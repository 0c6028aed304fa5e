/** What the reload protocol guarantees, over every interleaving of loads, reloads and requests. */
module RegistrySafe {
  import opened Wrappers
  import opened Registry
  import opened RegistryInv
  import opened RegistrySteps
  import opened RegistryOpens

  lemma LoadKeeps(s: State, t: Thread, o: Outcome, consumer: bool)
    requires Inv(s) && t in s.pcs && Next(s, t, o, consumer).Some?
    requires s.pcs[t].at.LoadLock? || HoldsLoad(s.pcs[t])
    ensures Inv(Next(s, t, o, consumer).value)
  {
    hide Inv, IsLoadable, LiveKey;
    var pc := s.pcs[t];
    match pc.at
    case LoadOpen => if o.Works? { LoadOpens(s, t); } else { LoadQuiet(s, t, o, consumer); }
    case LoadBuild =>
      if o.Works? && pc.name in s.db { LoadBuilds(s, t, consumer); }
      else if o.Throws? { LoadThrows(s, t); } else { LoadQuiet(s, t, o, consumer); }
    case LoadClose => if o.Works? { LoadCloses(s, t); } else { LoadThrows(s, t); }
    case LoadRegister => LoadRegisters(s, t);
    case _ => LoadQuiet(s, t, o, consumer);
  }

  lemma ReloadKeeps(s: State, t: Thread, o: Outcome, consumer: bool)
    requires Inv(s) && t in s.pcs && Next(s, t, o, consumer).Some?
    requires !s.pcs[t].at.LoadLock? && !HoldsLoad(s.pcs[t])
    ensures Inv(Next(s, t, o, consumer).value)
  {
    hide Inv, IsReserved, LiveKey, OnlyReference, Leaf;
    var pc := s.pcs[t];
    match pc.at
    case ReloadCheck => ReloadQuiet(s, t, o, consumer);
    case ReloadFind => ReloadQuiet(s, t, o, consumer);
    case ReloadLock => ReloadQuiet(s, t, o, consumer);
    case ReloadRead => ReloadPrepares(s, t, o, consumer);
    case ReloadPrepare => ReloadPrepares(s, t, o, consumer);
    case ReloadCloseNext => if o.Works? { ReloadClears(s, t); } else { ReloadFails(s, t, o, consumer); }
    case ReloadOpen => if o.Works? { ReloadOpens(s, t); } else { ReloadFails(s, t, o, consumer); }
    case ReloadBuild =>
      if o.Works? && OtherKey(pc.name, pc.live) in s.db { ReloadBuilds(s, t, consumer); }
      else if o.Throws? { ReloadThrows(s, t); } else { ReloadFails(s, t, o, consumer); }
    case ReloadUndo => if o.Works? { ReloadCloses(s, t); } else { ReloadThrows(s, t); }
    case ReloadSwap => ReloadSwaps(s, t);
    case ReloadStop => ReloadStops(s, t);
    case ReloadDrain => ReloadDrains(s, t);
    case ReloadClosePrev => if o.Works? { ReloadCloses(s, t); } else { ReloadThrows(s, t); }
  }

  lemma EventKeeps(s: State, e: Event)
    requires Inv(s) && Enabled(s, e)
    ensures Inv(Apply(s, e))
  {
    hide Inv, Next;
    match e
    case BeginLoad(t, path) => BeginKeeps(s, t, BeginLoadOf(path));
    case BeginReload(t, name) => BeginKeeps(s, t, Begin(ReloadCheck, name));
    case Step(t, o, consumer) =>
      if s.pcs[t].at.LoadLock? || HoldsLoad(s.pcs[t]) { LoadKeeps(s, t, o, consumer); } else { ReloadKeeps(s, t, o, consumer); }
    case _ => RequestKeeps(s, e);
  }

  lemma {:induction false} RunKeeps(s: State, events: seq<Event>)
    requires Inv(s) && Run(s, events).Some?
    ensures Inv(Run(s, events).value)
    decreases |events|
  {
    hide Inv, Enabled, Apply;
    if events != [] {
      EventKeeps(s, events[0]);
      RunKeeps(Apply(s, events[0]), events[1..]);
    }
  }

  lemma Reachable(events: seq<Event>)
    requires Run(INIT, events).Some?
    ensures Inv(Run(INIT, events).value)
  {
    RunKeeps(INIT, events);
  }

  // ---- An index in use is open under a key that no step closes ----

  /** Key `k` is the one a table, a request or a consumer relies on. */
  predicate ReliedOn(s: State, k: string) {
    var n := TableOf(k);
    || (n in s.heads && k == LiveKey(n, s.heads[n].stagingIsLive))
    || (n in s.heads && Reloader(s, n).Some? && HandsOver(Reloader(s, n).value))
    || (Loader(s).Some? && Loader(s).value.at.LoadRegister? && Loader(s).value.name == k)
  }

  /** Between building the new slot and having drained the old one, a reload needs both keys. */
  predicate HandsOver(pc: Pc) {
    pc.at.ReloadSwap? || pc.at.ReloadStop? || pc.at.ReloadDrain?
  }

  ghost predicate OpenFor(s: State, slot: nat) {
    exists k :: k in s.db && s.db[k] == slot && ReliedOn(s, k)
  }

  lemma LiveIsOpen(s: State, n: string)
    requires Inv(s) && n in s.heads
    ensures s.heads[n].slot.Some? && OpenFor(s, s.heads[n].slot.value)
  {
    hide Inv, IsReserved, LiveKey, TableOf;
    HeadFact(s, n);
    KeysOf(n, s.heads[n].stagingIsLive);
    assert ReliedOn(s, LiveKey(n, s.heads[n].stagingIsLive));
  }

  /** The slots a reload hands over are open under its two keys. */
  lemma HandedOver(s: State, n: string, slot: nat)
    requires Inv(s) && Reloader(s, n).Some?
    requires KeepsConsumer(Reloader(s, n).value, slot) || Retires(Reloader(s, n).value, slot)
    ensures OpenFor(s, slot)
  {
    hide Inv, IsReserved, LiveKey, TableOf;
    LockFact(s, n);
    var t := s.serial[n];
    Mine(s, t);
    var pc := s.pcs[t];
    KeysOf(n, pc.live);
    assert ReliedOn(s, if pc.at.ReloadSwap? then OtherKey(n, pc.live) else LiveKey(n, pc.live));
  }

  lemma UsedIsOpen(s: State, slot: nat)
    requires Inv(s) && InUse(s, slot)
    ensures OpenFor(s, slot)
  {
    hide Inv, OpenFor, LiveKey, TableOf;
    if n :| n in s.heads && s.heads[n].slot == Some(slot) {
      LiveIsOpen(s, n);
    } else if h :| h in s.handles && s.handles[h].slot == slot {
      PinFact(s, h);
      var n := s.handles[h].name;
      if s.heads[n].slot == Some(slot) { LiveIsOpen(s, n); } else { HandedOver(s, n, slot); }
    } else {
      ConsumerFact(s, slot);
      var n := s.kafka[slot];
      if Reloader(s, n).Some? && KeepsConsumer(Reloader(s, n).value, slot) {
        HandedOver(s, n, slot);
      } else {
        RegisteringIsOpen(s, n, slot);
      }
    }
  }

  lemma RegisteringIsOpen(s: State, n: string, slot: nat)
    requires Inv(s) && Loader(s).Some? && Registers(Loader(s).value, n, slot)
    ensures OpenFor(s, slot)
  {
    hide Inv, LiveKey, TableOf, IsLoadable;
    ThreadFact(s, s.loadLock.value);
    assert ReliedOn(s, n);
  }

  /** The key a step is about to close is relied on by no one. */
  lemma ClosesUnneeded(s: State, t: Thread)
    requires Inv(s) && t in s.pcs && Closes(s, t).Some? && Closes(s, t).value in s.db
    ensures !ReliedOn(s, Closes(s, t).value)
  {
    hide Inv, IsReserved, LiveKey, TableOf, IsLoadable;
    var pc := s.pcs[t];
    if LoadOpened(pc) {
      LoadAlone(s, t);
    } else {
      ReloadAlone(s, t);
      NoLoader(s, pc.name);
      LoaderLoads(s);
    }
  }

  lemma LoaderLoads(s: State)
    requires Inv(s)
    ensures Loader(s).Some? && LoadOpened(Loader(s).value) ==> TableOf(Loader(s).value.name) !in s.heads
  {
    hide Inv, TableOf;
    if Loader(s).Some? && LoadOpened(Loader(s).value) {
      LoadAlone(s, s.loadLock.value);
    }
  }

  /** Reload safety: after any run, whatever key any thread closes next, the index behind it serves no
      table, is pinned by no request, and no Kafka consumer writes to it. */
  lemma CloseIsSafe(events: seq<Event>, t: Thread)
    requires Run(INIT, events).Some? && t in Run(INIT, events).value.pcs
    ensures var s := Run(INIT, events).value;
            var key := Closes(s, t);
            key.Some? && key.value in s.db ==> !InUse(s, s.db[key.value])
  {
    hide Inv, Run, InUse, ReliedOn, Closes;
    Reachable(events);
    var s := Run(INIT, events).value;
    if Closes(s, t).Some? && Closes(s, t).value in s.db {
      ClosesUnneeded(s, t);
      KeyFacts(s);
      NotInUse(s, Closes(s, t).value);
    }
  }

  lemma NotInUse(s: State, key: string)
    requires Inv(s) && key in s.db && !ReliedOn(s, key)
    requires forall j, k :: j in s.db && k in s.db && s.db[j] == s.db[k] ==> j == k
    ensures !InUse(s, s.db[key])
  {
    hide Inv, InUse, ReliedOn;
    if InUse(s, s.db[key]) { UsedIsOpen(s, s.db[key]); }
  }

  /** A request works on one index, open from the Acquire to the Release. */
  lemma PinnedStaysOpen(events: seq<Event>, h: nat)
    requires Run(INIT, events).Some? && h in Run(INIT, events).value.handles
    ensures var s := Run(INIT, events).value; exists k :: k in s.db && s.db[k] == s.handles[h].slot
  {
    hide Inv, Run, ReliedOn;
    Reachable(events);
    var s := Run(INIT, events).value;
    assert IsPinned(s, s.handles[h].slot);
    UsedIsOpen(s, s.handles[h].slot);
  }

  // ---- Keys ----

  /** The key a step leaves open as an exception takes its call to an end. */
  function LeavesOpen(s: State, t: Thread, o: Outcome): Option<string>
    requires t in s.pcs
  {
    var pc := s.pcs[t];
    match pc.at
    case LoadBuild => if o.Throws? then Some(pc.name) else None
    case ReloadBuild => if o.Throws? then Some(OtherKey(pc.name, pc.live)) else None
    case LoadClose | ReloadUndo | ReloadClosePrev => if o.Works? then None else Closes(s, t)
    case _ => None
  }

  /** The key a step closes, or registers: what becomes of a key that was left open. */
  function Settles(s: State, t: Thread, o: Outcome): Option<string>
    requires t in s.pcs
  {
    if s.pcs[t].at.LoadRegister? then Some(s.pcs[t].name)
    else if o.Works? then Closes(s, t)
    else None
  }

  /** `left` is what its name says: the keys that exceptional exits left open since they were last closed or
      registered. */
  lemma LeftIs(s: State, t: Thread, o: Outcome, consumer: bool, k: string)
    requires Inv(s) && t in s.pcs && Next(s, t, o, consumer).Some?
    ensures k in Next(s, t, o, consumer).value.left
       <==> LeavesOpen(s, t, o) == Some(k) || (k in s.left && Settles(s, t, o) != Some(k))
  {
    hide Inv, Next, LeavesOpen, Settles;
    match s.pcs[t].at
    case LoadLock | LoadCheck | LoadOpen | LoadCanonical => LeftByOpening(s, t, o, consumer);
    case ReloadCheck | ReloadFind | ReloadLock | ReloadRead | ReloadPrepare => LeftByLocking(s, t, o, consumer);
    case ReloadOpen | ReloadSwap | ReloadStop | ReloadDrain => LeftBySwapping(s, t, o, consumer);
    case LoadBuild | LoadClose => LeftByLoad(s, t, o, consumer, k);
    case LoadRegister =>
      LoadAlone(s, t);
      LeftByRegister(s, t, o, consumer, k);
    case ReloadBuild | ReloadUndo => LeftByRebuilding(s, t, o, consumer, k);
    case ReloadCloseNext | ReloadClosePrev => LeftByClosing(s, t, o, consumer, k);
  }

  lemma LeftByOpening(s: State, t: Thread, o: Outcome, consumer: bool)
    requires t in s.pcs && (s.pcs[t].at.LoadLock? || s.pcs[t].at.LoadCheck? || s.pcs[t].at.LoadOpen? || s.pcs[t].at.LoadCanonical?)
    requires Next(s, t, o, consumer).Some?
    ensures Next(s, t, o, consumer).value.left == s.left && LeavesOpen(s, t, o).None? && Settles(s, t, o).None?
  {
    hide IsLoadable, IsReserved, LiveKey, Leaf, OnlyReference;
  }

  lemma LeftByLocking(s: State, t: Thread, o: Outcome, consumer: bool)
    requires t in s.pcs && (s.pcs[t].at.ReloadCheck? || s.pcs[t].at.ReloadFind? || s.pcs[t].at.ReloadLock? || s.pcs[t].at.ReloadRead? || s.pcs[t].at.ReloadPrepare?)
    requires Next(s, t, o, consumer).Some?
    ensures Next(s, t, o, consumer).value.left == s.left && LeavesOpen(s, t, o).None? && Settles(s, t, o).None?
  {
    hide IsLoadable, IsReserved, LiveKey, Leaf, OnlyReference;
  }

  lemma LeftBySwapping(s: State, t: Thread, o: Outcome, consumer: bool)
    requires t in s.pcs && (s.pcs[t].at.ReloadOpen? || s.pcs[t].at.ReloadSwap? || s.pcs[t].at.ReloadStop? || s.pcs[t].at.ReloadDrain?)
    requires Next(s, t, o, consumer).Some?
    ensures Next(s, t, o, consumer).value.left == s.left && LeavesOpen(s, t, o).None? && Settles(s, t, o).None?
  {
    hide IsLoadable, IsReserved, LiveKey, Leaf, OnlyReference;
  }

  lemma LeftByLoad(s: State, t: Thread, o: Outcome, consumer: bool, k: string)
    requires t in s.pcs && (s.pcs[t].at.LoadBuild? || s.pcs[t].at.LoadClose?)
    ensures k in Next(s, t, o, consumer).value.left
       <==> LeavesOpen(s, t, o) == Some(k) || (k in s.left && Settles(s, t, o) != Some(k))
  {
    hide IsLoadable, IsReserved, LiveKey, Leaf, OnlyReference;
  }

  lemma LeftByRegister(s: State, t: Thread, o: Outcome, consumer: bool, k: string)
    requires t in s.pcs && s.pcs[t].at.LoadRegister? && s.pcs[t].name !in s.heads
    ensures k in Next(s, t, o, consumer).value.left
       <==> LeavesOpen(s, t, o) == Some(k) || (k in s.left && Settles(s, t, o) != Some(k))
  {
    hide IsLoadable, IsReserved, LiveKey, Leaf, OnlyReference;
  }

  lemma LeftByRebuilding(s: State, t: Thread, o: Outcome, consumer: bool, k: string)
    requires t in s.pcs && (s.pcs[t].at.ReloadBuild? || s.pcs[t].at.ReloadUndo?)
    ensures k in Next(s, t, o, consumer).value.left
       <==> LeavesOpen(s, t, o) == Some(k) || (k in s.left && Settles(s, t, o) != Some(k))
  {
    hide IsLoadable, IsReserved, LiveKey, Leaf, OnlyReference;
  }

  lemma LeftByClosing(s: State, t: Thread, o: Outcome, consumer: bool, k: string)
    requires t in s.pcs && (s.pcs[t].at.ReloadCloseNext? || s.pcs[t].at.ReloadClosePrev?)
    ensures k in Next(s, t, o, consumer).value.left
       <==> LeavesOpen(s, t, o) == Some(k) || (k in s.left && Settles(s, t, o) != Some(k))
  {
    hide IsLoadable, IsReserved, LiveKey, Leaf, OnlyReference;
  }

  predicate NoneLeavesOpen(s: State, events: seq<Event>)
    decreases |events|
  {
    events != [] && Enabled(s, events[0]) ==>
      && (events[0].Step? ==> LeavesOpen(s, events[0].t, events[0].o).None?)
      && NoneLeavesOpen(Apply(s, events[0]), events[1..])
  }

  /** Without exceptional exits nothing is ever left open. */
  lemma {:induction false} NothingIsLeft(s: State, events: seq<Event>)
    requires Inv(s) && s.left == {} && Run(s, events).Some? && NoneLeavesOpen(s, events)
    ensures Run(s, events).value.left == {}
    decreases |events|
  {
    hide Inv, Next, LeavesOpen, Settles;
    if events != [] {
      var e := events[0];
      EventKeeps(s, e);
      if e.Step? {
        forall k | k in Apply(s, e).left
          ensures false
        {
          LeftIs(s, e.t, e.o, e.consumer, k);
        }
      }
      assert Apply(s, e).left == {};
      NothingIsLeft(Apply(s, e), events[1..]);
    }
  }

  /** Of a registered table the live key is open, and the other one exactly while a reload has both open or
      an exception has left it open. */
  lemma OpenKeys(events: seq<Event>, n: string)
    requires Run(INIT, events).Some? && n in Run(INIT, events).value.heads
    ensures var s := Run(INIT, events).value;
            var flag := s.heads[n].stagingIsLive;
            && LiveKey(n, flag) in s.db && s.heads[n].slot == Some(s.db[LiveKey(n, flag)])
            && (OtherKey(n, flag) in s.db <==>
                  (Reloader(s, n).Some? && BothOpen(Reloader(s, n).value)) || OtherKey(n, flag) in s.left)
            && (forall k :: k in s.db && TableOf(k) == n ==> k == LiveKey(n, flag) || k == OtherKey(n, flag))
  {
    hide Inv, Run, IsReserved, TableOf;
    Reachable(events);
    var s := Run(INIT, events).value;
    HeadFact(s, n);
    if OtherKey(n, s.heads[n].stagingIsLive) in s.left { LeftFact(s, OtherKey(n, s.heads[n].stagingIsLive)); }
    forall k | k in s.db && TableOf(k) == n
      ensures k == LiveKey(n, s.heads[n].stagingIsLive) || k == OtherKey(n, s.heads[n].stagingIsLive)
    {
      KeyIsOneOf(k, s.heads[n].stagingIsLive);
    }
  }

  /** With no reload of a table under way, exactly the key the flag names is open, if and only if no
      exception has left the other one open. */
  lemma OneKeyAtRest(events: seq<Event>, n: string)
    requires Run(INIT, events).Some? && n in Run(INIT, events).value.heads && n !in Run(INIT, events).value.serial
    ensures var s := Run(INIT, events).value;
            var flag := s.heads[n].stagingIsLive;
            (forall k :: TableOf(k) == n ==> (k in s.db <==> k == LiveKey(n, flag))) <==> OtherKey(n, flag) !in s.left
  {
    hide Run, IsReserved, TableOf, Inv, LiveKey;
    OpenKeys(events, n);
    Reachable(events);
    var s := Run(INIT, events).value;
    HeadFact(s, n);
    KeysOf(n, s.heads[n].stagingIsLive);
  }

  /** The open keys are those of registered tables, the one being loaded, and those an exception left open. */
  lemma NoStrayKeys(events: seq<Event>, k: string)
    requires Run(INIT, events).Some? && TableOf(k) !in Run(INIT, events).value.heads
    ensures var s := Run(INIT, events).value;
            k in s.db <==> (Loader(s).Some? && LoadOpened(Loader(s).value) && Loader(s).value.name == k) || k in s.left
  {
    hide Run, IsReserved, TableOf, Inv;
    Reachable(events);
    var s := Run(INIT, events).value;
    if k in s.db { KeyFact(s, k); }
    if k in s.left { LeftFact(s, k); }
    if Loader(s).Some? { ThreadFact(s, s.loadLock.value); }
  }

  /** LoadTable's second look at the registry never finds the table; ReloadTable's always does; and closing
      the next key before opening it finds exactly what an exception left there. */
  lemma SecondLooks(events: seq<Event>, t: Thread)
    requires Run(INIT, events).Some? && t in Run(INIT, events).value.pcs
    ensures var s := Run(INIT, events).value;
            var pc := s.pcs[t];
            && (pc.at.LoadRegister? ==> pc.name !in s.heads)
            && (pc.at.ReloadFind? ==> pc.name in s.heads)
            && (pc.at.ReloadRead? ==> pc.name in s.heads && s.heads[pc.name].slot.Some?)
            && (pc.at.ReloadCloseNext? ==> (OtherKey(pc.name, pc.live) in s.db <==> OtherKey(pc.name, pc.live) in s.left))
            && (pc.at.ReloadOpen? ==> OtherKey(pc.name, pc.live) !in s.db)
  {
    hide Run, IsReserved, IsLoadable, LiveKey, TableOf, Inv;
    Reachable(events);
    var s := Run(INIT, events).value;
    ThreadFact(s, t);
    var pc := s.pcs[t];
    if pc.at.ReloadRead? { HeadFact(s, pc.name); }
    if pc.at.ReloadCloseNext? {
      Mine(s, t);
      if OtherKey(pc.name, pc.live) in s.left { LeftFact(s, OtherKey(pc.name, pc.live)); }
    }
    if pc.at.ReloadOpen? { NothingStale(s, t); }
  }

  /** How a second key comes to stay open at rest: a reload that cannot start its consumer's thread. */
  lemma BuildThrows(s: State, t: Thread, consumer: bool)
    requires Inv(s) && t in s.pcs && s.pcs[t].at.ReloadBuild?
    ensures var n := s.pcs[t].name;
            var z := Next(s, t, Throws, consumer);
            && z.Some? && n in z.value.heads && n !in z.value.serial
            && LiveKey(n, z.value.heads[n].stagingIsLive) in z.value.db && OtherKey(n, z.value.heads[n].stagingIsLive) in z.value.db
  {
    hide Inv, IsLoadable, IsReserved, LiveKey, TableOf;
    ReloadAlone(s, t);
  }
}
