/** Which Kafka consumers run: exactly those of the slots built for a table with a consumer configured, from the
    step that builds the slot to the step of its own reload that stops it. */
module RegistryConsumers {
  import opened Wrappers
  import opened Registry
  import opened RegistryInv
  import opened RegistrySteps
  import opened RegistryOpens
  import opened RegistrySafe

  // ---- What a run has done, read off its steps ----

  /** The slots built, those of them with a consumer configured, and those whose consumer was told to stop. */
  datatype History = History(built: set<nat>, configured: set<nat>, stopped: set<nat>)

  const NOTHING := History({}, {}, {})

  /** The key a thread about to build a slot builds it for. */
  function BuildKey(pc: Pc): Option<string> {
    match pc.at
    case LoadBuild => Some(pc.name)
    case ReloadBuild => Some(OtherKey(pc.name, pc.live))
    case _ => None
  }

  /** The slot a step builds. */
  function Builds(s: State, e: Event): Option<nat> {
    if e.Step? && e.t in s.pcs && e.o.Works? && BuildKey(s.pcs[e.t]).Some? && BuildKey(s.pcs[e.t]).value in s.db
    then Some(s.db[BuildKey(s.pcs[e.t]).value]) else None
  }

  /** The slot whose consumer a step stops: the one a reload has swapped out, or one that is not registered. */
  function Stops(s: State, e: Event): Option<nat> {
    if e.Step? && e.t in s.pcs then
      var pc := s.pcs[e.t];
      match pc.at
      case ReloadStop => pc.oldSlot
      case LoadRegister => if pc.name in s.heads then Some(pc.slot) else None
      case _ => None
    else None
  }

  function Only(slot: Option<nat>): set<nat> {
    if slot.Some? then {slot.value} else {}
  }

  function Noted(h: History, s: State, e: Event): History {
    var built := Only(Builds(s, e));
    History(h.built + built,
            h.configured + if built != {} && e.consumer then built else {},
            h.stopped + Only(Stops(s, e)))
  }

  /** The history of a run that has `h` behind it. */
  function Recorded(h: History, s: State, events: seq<Event>): History
    decreases |events|
  {
    if events != [] && Enabled(s, events[0]) then Recorded(Noted(h, s, events[0]), Apply(s, events[0]), events[1..]) else h
  }

  // ---- What every step keeps ----

  /** The slot a thread is about to put in place, or has just taken out of place. */
  function Needs(s: State, t: Thread): Option<nat>
    requires t in s.pcs
  {
    var pc := s.pcs[t];
    match pc.at
    case LoadRegister | ReloadSwap => Some(pc.slot)
    case ReloadStop => pc.oldSlot
    case _ => None
  }

  function NewKey(pc: Pc): Option<string> {
    match pc.at
    case LoadCanonical | LoadBuild | LoadClose => Some(pc.name)
    case ReloadBuild => Some(OtherKey(pc.name, pc.live))
    case _ => None
  }

  /** The index a thread has opened, for which no slot was ever built. */
  function Opens(s: State, t: Thread): Option<nat>
    requires t in s.pcs
  {
    var key := NewKey(s.pcs[t]);
    if key.Some? && key.value in s.db then Some(s.db[key.value]) else None
  }

  predicate Running(h: History, slot: Option<nat>) {
    slot.Some? ==> slot.value in h.built && slot.value !in h.stopped
  }

  predicate BooksKept(h: History, s: State) {
    && s.kafka.Keys == h.configured - h.stopped
    && h.configured <= h.built && h.stopped <= h.built
    && forall g :: g in h.built ==> g < s.nextGen
  }

  predicate ThreadKept(h: History, s: State, t: Thread)
    requires t in s.pcs
  {
    && Running(h, Needs(s, t))
    && (Opens(s, t).Some? ==> Opens(s, t).value !in h.built)
  }

  predicate Registering(s: State, k: string) {
    Loader(s).Some? && Loader(s).value.at.LoadRegister? && Loader(s).value.name == k
  }

  /** What an exception left open of a table not registered is as it was opened. */
  predicate LeftKept(h: History, s: State, k: string) {
    k in s.db && TableOf(k) !in s.heads && !Registering(s, k) ==> s.db[k] !in h.built
  }

  ghost predicate Kept(h: History, s: State) {
    && BooksKept(h, s)
    && (forall n :: n in s.heads ==> Running(h, s.heads[n].slot))
    && (forall t :: t in s.pcs ==> ThreadKept(h, s, t))
    && (forall k :: k in s.left ==> LeftKept(h, s, k))
  }

  // ---- What a step can do to them ----

  /** A step of thread `t` builds at most one slot, puts in place only one it has built, and opens an index only
      under a key that is new or was left open. */
  ghost predicate Orderly(s: State, z: State, e: Event, t: Thread) {
    && z.kafka.Keys == s.kafka.Keys - Only(Stops(s, e)) + (if e.Step? && e.consumer then Only(Builds(s, e)) else {})
    && z.nextGen >= s.nextGen
    && (z.pcs == s.pcs - {t} || (t in z.pcs && z.pcs == s.pcs[t := z.pcs[t]]))
    && (forall k :: k in z.db ==> if k in s.db then z.db[k] == s.db[k] else z.db[k] == s.nextGen < z.nextGen)
    && (Builds(s, e).Some? ==> z.db == s.db && z.left == s.left)
    && (Builds(s, e).Some? && s.pcs[e.t].at.LoadBuild? ==> Registering(z, s.pcs[e.t].name))
    && (Stops(s, e).Some? ==> z.heads == s.heads)
    && (|| z.heads == s.heads
        || (t in s.pcs && Needs(s, t).Some? && s.pcs[t].name in z.heads && z.heads[s.pcs[t].name].slot == Needs(s, t)
            && z.heads == s.heads[s.pcs[t].name := z.heads[s.pcs[t].name]]))
    && (t in z.pcs && Needs(z, t).Some? ==>
          Needs(z, t) == Builds(s, e) || exists n :: n in s.heads && s.heads[n].slot == Needs(z, t))
    && (t in z.pcs && NewKey(z.pcs[t]).Some? ==>
          var k := NewKey(z.pcs[t]).value;
          || (t in s.pcs && NewKey(s.pcs[t]) == Some(k) && Builds(s, e).None?)
          || k !in s.db
          || (t in s.pcs && s.pcs[t].at.LoadOpen? && s.pcs[t].name == k))
    && (forall k :: k in z.left ==> k in s.left || (t in s.pcs && NewKey(s.pcs[t]) == Some(k)) || TableOf(k) in s.heads)
    && (forall k :: Registering(s, k) ==> Registering(z, k) || k in z.heads)
  }

  // ---- No two threads work on the same slot ----

  predicate Involved(s: State, t: Thread, g: nat)
    requires t in s.pcs
  {
    Needs(s, t) == Some(g) || Opens(s, t) == Some(g)
  }

  /** The slot is the index behind a key of the thread's own table. */
  lemma KeyOfSlot(s: State, t: Thread, g: nat) returns (k: string)
    requires Inv(s) && t in s.pcs && Involved(s, t, g)
    ensures k in s.db && s.db[k] == g && TableOf(k) == s.pcs[t].name && Owner(s, t, s.pcs[t].name)
    ensures s.pcs[t].name in s.heads && Needs(s, t).Some? && Swapped(s.pcs[t]) ==>
              k == OtherKey(s.pcs[t].name, s.heads[s.pcs[t].name].stagingIsLive)
    ensures !s.pcs[t].at.LoadClose? && Opens(s, t) == Some(g) ==> BuildKey(s.pcs[t]) == Some(k) || s.pcs[t].at.LoadCanonical?
  {
    hide Inv, IsReserved, IsLoadable, TableOf, LiveKey;
    var pc := s.pcs[t];
    if LoadOpened(pc) {
      LoadAlone(s, t);
      k := pc.name;
    } else {
      ReloadAlone(s, t);
      k := if pc.at.ReloadStop? then LiveKey(pc.name, pc.live) else OtherKey(pc.name, pc.live);
    }
  }

  lemma OneOwner(s: State, t: Thread, u: Thread, n: string)
    requires Owner(s, t, n) && Owner(s, u, n)
    ensures t == u
  {
  }

  lemma SlotsApart(s: State, t: Thread, u: Thread, g: nat)
    requires Inv(s) && t in s.pcs && u in s.pcs && Involved(s, t, g) && Involved(s, u, g)
    ensures t == u
  {
    hide Inv, Owner, Involved;
    var j := KeyOfSlot(s, t, g);
    var k := KeyOfSlot(s, u, g);
    KeyFacts(s);
    OneOwner(s, t, u, s.pcs[t].name);
  }

  /** The slot a step stops is no table's live slot. */
  lemma StopsRetired(s: State, e: Event, n: string)
    requires Inv(s) && Stops(s, e).Some? && n in s.heads
    ensures s.heads[n].slot != Stops(s, e) && Needs(s, e.t) == Stops(s, e) && s.pcs[e.t].at.ReloadStop?
  {
    hide Inv, IsReserved, TableOf, LiveKey, OtherKey;
    var pc := s.pcs[e.t];
    if pc.at.LoadRegister? { LoadAlone(s, e.t); }
    HeadFact(s, n);
    KeysOf(n, s.heads[n].stagingIsLive);
    if s.heads[n].slot == Stops(s, e) {
      var k := KeyOfSlot(s, e.t, Stops(s, e).value);
      KeyFacts(s);
    }
  }

  // ---- An orderly step keeps them ----

  lemma BooksStay(h: History, s: State, z: State, e: Event, t: Thread)
    requires Inv(s) && Kept(h, s) && Orderly(s, z, e, t) && (e.Step? ==> e.t == t)
    ensures BooksKept(Noted(h, s, e), z)
  {
    hide Inv, Next, Running, ThreadKept, LeftKept, Needs, BuildKey, NewKey, TableOf;
    if Builds(s, e).Some? {
      BuildsOpened(s, e);
      assert ThreadKept(h, s, t);
      KeyFact(s, BuildKey(s.pcs[t]).value);
      BuiltIsNew(h, s, e);
    }
    if Stops(s, e).Some? {
      StoppedWasBuilt(h, s, e);
    }
  }

  lemma BuildsOpened(s: State, e: Event)
    requires Builds(s, e).Some?
    ensures e.Step? && e.t in s.pcs && Opens(s, e.t) == Builds(s, e) && Stops(s, e).None?
  {
    hide OtherKey;
  }

  lemma BuiltIsNew(h: History, s: State, e: Event)
    requires Builds(s, e).Some? && ThreadKept(h, s, e.t)
    ensures Builds(s, e).value !in h.built
  {
    BuildsOpened(s, e);
  }

  lemma StoppedWasBuilt(h: History, s: State, e: Event)
    requires Kept(h, s) && Stops(s, e).Some?
    ensures Stops(s, e).value in h.built && Builds(s, e).None?
  {
    hide LeftKept, TableOf;
    assert ThreadKept(h, s, e.t);
  }

  lemma HeadsStay(h: History, s: State, z: State, e: Event, t: Thread)
    requires Inv(s) && Kept(h, s) && Orderly(s, z, e, t) && (e.Step? ==> e.t == t)
    ensures forall n :: n in z.heads ==> Running(Noted(h, s, e), z.heads[n].slot)
  {
    hide Inv, LeftKept, TableOf, NewKey, BuildKey;
    forall n | n in z.heads
      ensures Running(Noted(h, s, e), z.heads[n].slot)
    {
      if Stops(s, e).Some? {
        StoppedWasBuilt(h, s, e);
        StopsRetired(s, e, n);
      }
      if n !in s.heads || z.heads[n] != s.heads[n] { assert ThreadKept(h, s, t); }
    }
  }

  lemma NeededWhenStopped(s: State, e: Event)
    requires Inv(s) && Stops(s, e).Some?
    ensures e.Step? && e.t in s.pcs && Needs(s, e.t) == Stops(s, e)
  {
    hide Inv;
  }

  lemma OthersStay(h: History, s: State, z: State, e: Event, t: Thread, u: Thread)
    requires Inv(s) && Kept(h, s) && Orderly(s, z, e, t) && (e.Step? ==> e.t == t) && u != t && u in z.pcs
    ensures ThreadKept(Noted(h, s, e), z, u)
  {
    hide Inv, LeftKept, TableOf, OtherKey, BuildKey, NewKey, Registering, Stops, Builds;
    assert ThreadKept(h, s, u);
    if Stops(s, e).Some? {
      StoppedWasBuilt(h, s, e);
      NeededWhenStopped(s, e);
      if Needs(s, u) == Stops(s, e) {
        SlotsApart(s, t, u, Stops(s, e).value);
      }
    }
    if Builds(s, e).Some? {
      BuildsOpened(s, e);
      if Opens(s, u) == Builds(s, e) { SlotsApart(s, t, u, Builds(s, e).value); }
    }
  }

  lemma OwnNeeds(h: History, s: State, z: State, e: Event, t: Thread)
    requires Inv(s) && Kept(h, s) && Orderly(s, z, e, t) && (e.Step? ==> e.t == t) && t in z.pcs
    ensures Running(Noted(h, s, e), Needs(z, t))
  {
    hide Inv, Needs, LeftKept, TableOf, OtherKey, BuildKey, NewKey, Opens, Registering;
    if Needs(z, t).Some? {
      if Needs(z, t) == Builds(s, e) {
        assert ThreadKept(h, s, t);
        NewlyBuilt(h, s, e);
      } else {
        var n :| n in s.heads && s.heads[n].slot == Needs(z, t);
        StillBuilt(h, s, e, n);
      }
    }
  }

  lemma NewlyBuilt(h: History, s: State, e: Event)
    requires BooksKept(h, s) && Builds(s, e).Some? && ThreadKept(h, s, e.t)
    ensures Running(Noted(h, s, e), Builds(s, e))
  {
    BuildsOpened(s, e);
    BuiltIsNew(h, s, e);
  }

  lemma StillBuilt(h: History, s: State, e: Event, n: string)
    requires Inv(s) && n in s.heads && Running(h, s.heads[n].slot)
    ensures Running(Noted(h, s, e), s.heads[n].slot)
  {
    hide Inv, Stops, Builds;
    if Stops(s, e).Some? { StopsRetired(s, e, n); }
  }

  lemma OwnOpens(h: History, s: State, z: State, e: Event, t: Thread)
    requires Inv(s) && Kept(h, s) && Orderly(s, z, e, t) && (e.Step? ==> e.t == t) && t in z.pcs && Opens(z, t).Some?
    ensures Opens(z, t).value !in Noted(h, s, e).built
  {
    hide Inv, Needs, LeftKept, TableOf, OtherKey, BuildKey, NewKey, Registering, Running, Stops;
    var k := NewKey(z.pcs[t]).value;
    if k in s.db {
      assert ThreadKept(h, s, t);
      if NewKey(s.pcs[t]) != Some(k) || Builds(s, e).Some? {
        OpenedAgain(h, s, t);
        OpensNotBuilds(s, e);
      }
    }
  }

  lemma OpensNotBuilds(s: State, e: Event)
    requires e.Step? ==> e.t in s.pcs && s.pcs[e.t].at.LoadOpen?
    ensures Builds(s, e).None?
  {
  }

  /** The index a load finds open under its key was left there before any slot was built for it. */
  lemma OpenedAgain(h: History, s: State, t: Thread)
    requires Inv(s) && Kept(h, s) && t in s.pcs && s.pcs[t].at.LoadOpen? && s.pcs[t].name in s.db
    ensures s.db[s.pcs[t].name] !in h.built
  {
    hide Inv, IsLoadable, IsReserved, LiveKey, TableOf, Running, ThreadKept;
    LoadAlone(s, t);
    assert LeftKept(h, s, s.pcs[t].name);
  }

  lemma LeftStays(h: History, s: State, z: State, e: Event, t: Thread, k: string)
    requires Inv(s) && Kept(h, s) && Orderly(s, z, e, t) && (e.Step? ==> e.t == t) && k in z.left
    ensures LeftKept(Noted(h, s, e), z, k)
  {
    hide Inv, Needs, TableOf, Running, Stops, OtherKey, BuildKey, NewKey, Registering;
    if TableOf(k) !in z.heads && k in z.db && !Registering(z, k) {
      if k in s.left {
        assert LeftKept(h, s, k);
        if Registering(s, k) { RegistersItself(s, k); }
      } else {
        assert ThreadKept(h, s, t);
      }
      if Builds(s, e).Some? && Builds(s, e).value == s.db[k] { BuiltElsewhere(s, z, e, k); }
    }
  }

  lemma RegistersItself(s: State, k: string)
    requires Inv(s) && Registering(s, k)
    ensures TableOf(k) == k
  {
    hide Inv, TableOf, IsLoadable;
    LoadAlone(s, s.loadLock.value);
  }

  lemma BuiltElsewhere(s: State, z: State, e: Event, k: string)
    requires Inv(s) && k in s.db && Builds(s, e) == Some(s.db[k])
    requires s.pcs[e.t].at.LoadBuild? ==> Registering(z, s.pcs[e.t].name)
    ensures Registering(z, k) || TableOf(k) in s.heads
  {
    hide Inv, TableOf, Registering, OtherKey;
    BuildsOpened(s, e);
    var key := KeyOfSlot(s, e.t, s.db[k]);
    ThreadFact(s, e.t);
    KeyFacts(s);
  }

  lemma OrderlyKeeps(h: History, s: State, z: State, e: Event, t: Thread)
    requires Inv(s) && Kept(h, s) && Orderly(s, z, e, t) && (e.Step? ==> e.t == t)
    ensures Kept(Noted(h, s, e), z)
  {
    hide Inv, Orderly, ThreadKept, LeftKept, BooksKept, Running, Noted;
    BooksStay(h, s, z, e, t);
    HeadsStay(h, s, z, e, t);
    forall u | u in z.pcs
      ensures ThreadKept(Noted(h, s, e), z, u)
    {
      if u != t { OthersStay(h, s, z, e, t, u); } else { OwnStays(h, s, z, e, t); }
    }
    forall k | k in z.left
      ensures LeftKept(Noted(h, s, e), z, k)
    {
      LeftStays(h, s, z, e, t, k);
    }
  }

  lemma OwnStays(h: History, s: State, z: State, e: Event, t: Thread)
    requires Inv(s) && Kept(h, s) && Orderly(s, z, e, t) && (e.Step? ==> e.t == t) && t in z.pcs
    ensures ThreadKept(Noted(h, s, e), z, t)
  {
    hide Inv, Orderly, Kept, Noted, Running, Needs, Opens;
    OwnNeeds(h, s, z, e, t);
    if Opens(z, t).Some? { OwnOpens(h, s, z, e, t); }
  }

  // ---- Every step is orderly ----

  /** Thread `t` moves on without building, opening, publishing or stopping anything. */
  ghost predicate OnlyMoves(s: State, z: State, t: Thread) {
    && z.heads == s.heads && z.kafka == s.kafka && z.nextGen == s.nextGen
    && (forall k :: k in z.db ==> k in s.db && z.db[k] == s.db[k])
    && (z.pcs == s.pcs - {t} || (t in z.pcs && z.pcs == s.pcs[t := z.pcs[t]]))
    && (z.loadLock == s.loadLock || s.loadLock == None || s.loadLock == Some(t))
    && (forall k :: k in z.left ==> k in s.left || (t in s.pcs && NewKey(s.pcs[t]) == Some(k)) || TableOf(k) in s.heads)
    && (t in s.pcs ==> !s.pcs[t].at.LoadRegister?)
    && (t in z.pcs ==>
          && Needs(z, t).None?
          && (NewKey(z.pcs[t]).Some? ==> t in s.pcs && NewKey(s.pcs[t]) == NewKey(z.pcs[t])))
  }

  lemma MoveIsOrderly(s: State, z: State, e: Event, t: Thread)
    requires Builds(s, e).None? && Stops(s, e).None? && OnlyMoves(s, z, t)
    ensures Orderly(s, z, e, t)
  {
    hide NewKey, Needs, Builds, Stops, TableOf;
  }

  lemma LoadMoves(s: State, t: Thread, o: Outcome, consumer: bool)
    requires Inv(s) && t in s.pcs && Next(s, t, o, consumer).Some?
    requires var at := s.pcs[t].at; at.LoadLock? || at.LoadCheck? || at.LoadCanonical?
    ensures OnlyMoves(s, Next(s, t, o, consumer).value, t) && Builds(s, Step(t, o, consumer)).None?
    ensures Stops(s, Step(t, o, consumer)).None?
  {
    hide Inv, IsLoadable, TableOf, LiveKey;
    ThreadFact(s, t);
  }

  lemma LoadEndMoves(s: State, t: Thread, o: Outcome, consumer: bool)
    requires Inv(s) && t in s.pcs && Next(s, t, o, consumer).Some?
    requires var at := s.pcs[t].at; at.LoadClose? || ((at.LoadOpen? || at.LoadBuild?) && !o.Works?)
    ensures OnlyMoves(s, Next(s, t, o, consumer).value, t) && Builds(s, Step(t, o, consumer)).None?
    ensures Stops(s, Step(t, o, consumer)).None?
  {
    hide Inv, IsLoadable, TableOf, LiveKey;
    ThreadFact(s, t);
  }

  lemma ReloadMoves(s: State, t: Thread, o: Outcome, consumer: bool)
    requires Inv(s) && t in s.pcs && Next(s, t, o, consumer).Some?
    requires var at := s.pcs[t].at; at.ReloadFind? || at.ReloadLock?
    ensures OnlyMoves(s, Next(s, t, o, consumer).value, t) && Builds(s, Step(t, o, consumer)).None?
    ensures Stops(s, Step(t, o, consumer)).None?
  {
    hide Inv, IsReserved, IsLoadable, Leaf, OnlyReference, TableOf, LiveKey, OtherKey, HoldsSerial;
  }

  lemma NoKeyYet(s: State, t: Thread, pc: Pc)
    requires pc.at.ReloadFind? || pc.at.LoadLock?
    ensures NewKey(pc).None? && Needs(Place(s, t, pc), t).None?
  {
  }

  lemma ReloadCheckMoves(s: State, t: Thread, o: Outcome, consumer: bool)
    requires Inv(s) && t in s.pcs && s.pcs[t].at.ReloadCheck?
    ensures Next(s, t, o, consumer).Some? && OnlyMoves(s, Next(s, t, o, consumer).value, t)
    ensures Builds(s, Step(t, o, consumer)).None? && Stops(s, Step(t, o, consumer)).None?
  {
    hide Inv, IsReserved, Leaf, TableOf, NewKey, Needs;
    var pc := s.pcs[t];
    NoKeyYet(s, t, pc.(at := ReloadFind));
    NoKeyYet(s, t, BeginLoadOf(pc.name));
    var z := Next(s, t, o, consumer).value;
    assert z == Place(s, t, pc.(at := ReloadFind)) || z == Exit(s, t) || z == Place(s, t, BeginLoadOf(pc.name));
  }

  lemma ReloadPreparesMoves(s: State, t: Thread, o: Outcome, consumer: bool)
    requires Inv(s) && t in s.pcs && Next(s, t, o, consumer).Some?
    requires var at := s.pcs[t].at; at.ReloadRead? || at.ReloadPrepare? || at.ReloadCloseNext?
    ensures OnlyMoves(s, Next(s, t, o, consumer).value, t) && Builds(s, Step(t, o, consumer)).None?
    ensures Stops(s, Step(t, o, consumer)).None?
  {
    hide Inv, TableOf, LiveKey;
  }

  lemma ReloadEndMoves(s: State, t: Thread, o: Outcome, consumer: bool)
    requires Inv(s) && t in s.pcs && Next(s, t, o, consumer).Some?
    requires var at := s.pcs[t].at; at.ReloadUndo? || at.ReloadClosePrev?
    ensures OnlyMoves(s, Next(s, t, o, consumer).value, t) && Builds(s, Step(t, o, consumer)).None?
    ensures Stops(s, Step(t, o, consumer)).None?
  {
    hide Inv, IsReserved, IsLoadable, TableOf, LiveKey;
    ReloadAlone(s, t);
  }

  lemma ReloadDrainMoves(s: State, t: Thread, o: Outcome, consumer: bool)
    requires Inv(s) && t in s.pcs && Next(s, t, o, consumer).Some?
    requires var at := s.pcs[t].at; at.ReloadDrain?
    ensures OnlyMoves(s, Next(s, t, o, consumer).value, t) && Builds(s, Step(t, o, consumer)).None?
    ensures Stops(s, Step(t, o, consumer)).None?
  {
    hide Inv, IsReserved, IsLoadable, OnlyReference, TableOf, LiveKey;
    ReloadAlone(s, t);
  }

  lemma ReloadFailMoves(s: State, t: Thread, o: Outcome, consumer: bool)
    requires Inv(s) && t in s.pcs && Next(s, t, o, consumer).Some?
    requires var at := s.pcs[t].at; (at.ReloadOpen? || at.ReloadBuild?) && !o.Works?
    ensures OnlyMoves(s, Next(s, t, o, consumer).value, t) && Builds(s, Step(t, o, consumer)).None?
    ensures Stops(s, Step(t, o, consumer)).None?
  {
    hide Inv, IsReserved, IsLoadable, TableOf, LiveKey;
    ReloadAlone(s, t);
  }

  lemma LoadOpensOrderly(s: State, t: Thread, consumer: bool)
    requires Inv(s) && t in s.pcs && s.pcs[t].at.LoadOpen? && Next(s, t, Works, consumer).Some?
    ensures Orderly(s, Next(s, t, Works, consumer).value, Step(t, Works, consumer), t)
  {
    hide Inv, IsLoadable, IsReserved, LiveKey, TableOf;
    LoadAlone(s, t);
  }

  lemma LoadBuildsOrderly(s: State, t: Thread, consumer: bool)
    requires Inv(s) && t in s.pcs && s.pcs[t].at.LoadBuild? && Next(s, t, Works, consumer).Some?
    ensures Orderly(s, Next(s, t, Works, consumer).value, Step(t, Works, consumer), t)
  {
    hide Inv, IsLoadable, IsReserved, LiveKey, TableOf;
    LoadAlone(s, t);
  }

  lemma LoadRegistersOrderly(s: State, t: Thread, o: Outcome, consumer: bool)
    requires Inv(s) && t in s.pcs && s.pcs[t].at.LoadRegister? && Next(s, t, o, consumer).Some?
    ensures Orderly(s, Next(s, t, o, consumer).value, Step(t, o, consumer), t)
  {
    hide Inv, IsLoadable, IsReserved, LiveKey, TableOf;
    LoadAlone(s, t);
  }

  lemma ReloadOpensOrderly(s: State, t: Thread, consumer: bool)
    requires Inv(s) && t in s.pcs && s.pcs[t].at.ReloadOpen? && Next(s, t, Works, consumer).Some?
    ensures Orderly(s, Next(s, t, Works, consumer).value, Step(t, Works, consumer), t)
  {
    hide Inv, IsReserved, LiveKey, TableOf;
    NothingStale(s, t);
  }

  lemma ReloadBuildsOrderly(s: State, t: Thread, consumer: bool)
    requires Inv(s) && t in s.pcs && s.pcs[t].at.ReloadBuild? && Next(s, t, Works, consumer).Some?
    ensures Orderly(s, Next(s, t, Works, consumer).value, Step(t, Works, consumer), t)
  {
    hide Inv, IsReserved, IsLoadable, LiveKey, TableOf;
    ReloadAlone(s, t);
  }

  lemma ReloadSwapsOrderly(s: State, t: Thread, o: Outcome, consumer: bool)
    requires Inv(s) && t in s.pcs && s.pcs[t].at.ReloadSwap? && Next(s, t, o, consumer).Some?
    ensures Orderly(s, Next(s, t, o, consumer).value, Step(t, o, consumer), t)
  {
    hide Inv, IsReserved, IsLoadable, LiveKey, TableOf;
    ReloadAlone(s, t);
  }

  lemma ReloadStopsOrderly(s: State, t: Thread, o: Outcome, consumer: bool)
    requires Inv(s) && t in s.pcs && s.pcs[t].at.ReloadStop? && Next(s, t, o, consumer).Some?
    ensures Orderly(s, Next(s, t, o, consumer).value, Step(t, o, consumer), t)
  {
    hide Inv, IsReserved, IsLoadable, LiveKey, TableOf;
  }

  lemma StepIsOrderly(s: State, t: Thread, o: Outcome, consumer: bool)
    requires Inv(s) && t in s.pcs && Next(s, t, o, consumer).Some?
    ensures Orderly(s, Next(s, t, o, consumer).value, Step(t, o, consumer), t)
  {
    hide Inv, Next, Orderly, OnlyMoves, Builds, Stops;
    var at := s.pcs[t].at;
    if at.LoadOpen? && o.Works? { LoadOpensOrderly(s, t, consumer); }
    else if at.LoadBuild? && o.Works? { LoadBuildsOrderly(s, t, consumer); }
    else if at.LoadRegister? { LoadRegistersOrderly(s, t, o, consumer); }
    else if at.ReloadOpen? && o.Works? { ReloadOpensOrderly(s, t, consumer); }
    else if at.ReloadBuild? && o.Works? { ReloadBuildsOrderly(s, t, consumer); }
    else if at.ReloadSwap? { ReloadSwapsOrderly(s, t, o, consumer); }
    else if at.ReloadStop? { ReloadStopsOrderly(s, t, o, consumer); }
    else {
      match at {
        case LoadLock | LoadCheck | LoadCanonical => LoadMoves(s, t, o, consumer);
        case LoadOpen | LoadBuild | LoadClose => LoadEndMoves(s, t, o, consumer);
        case ReloadCheck => ReloadCheckMoves(s, t, o, consumer);
        case ReloadFind | ReloadLock => ReloadMoves(s, t, o, consumer);
        case ReloadRead | ReloadPrepare | ReloadCloseNext => ReloadPreparesMoves(s, t, o, consumer);
        case ReloadUndo | ReloadClosePrev => ReloadEndMoves(s, t, o, consumer);
        case ReloadDrain => ReloadDrainMoves(s, t, o, consumer);
        case ReloadOpen | ReloadBuild => ReloadFailMoves(s, t, o, consumer);
      }
      MoveIsOrderly(s, Next(s, t, o, consumer).value, Step(t, o, consumer), t);
    }
  }

  /** Requests do not touch any of it. */
  lemma RequestsKeep(h: History, s: State, z: State)
    requires Kept(h, s) && z == s.(handles := z.handles)
    ensures Kept(h, z)
  {
    hide TableOf, NewKey, Running;
    forall t | t in z.pcs
      ensures ThreadKept(h, z, t)
    {
      assert ThreadKept(h, s, t);
    }
    forall k | k in z.left
      ensures LeftKept(h, z, k)
    {
      assert LeftKept(h, s, k);
    }
  }

  lemma BeginMoves(s: State, e: Event)
    requires Enabled(s, e) && (e.BeginLoad? || e.BeginReload?)
    ensures OnlyMoves(s, Apply(s, e), e.t) && Builds(s, e).None? && Stops(s, e).None?
  {
    hide Leaf, TableOf, OtherKey;
  }

  lemma EventKept(h: History, s: State, e: Event)
    requires Inv(s) && Kept(h, s) && Enabled(s, e)
    ensures Kept(Noted(h, s, e), Apply(s, e))
  {
    hide Inv, Kept, Next, Orderly, OnlyMoves, Builds, Stops;
    match e
    case Step(t, o, consumer) =>
      StepIsOrderly(s, t, o, consumer);
      OrderlyKeeps(h, s, Apply(s, e), e, t);
    case BeginLoad(t, _) =>
      BeginMoves(s, e);
      MoveIsOrderly(s, Apply(s, e), e, t);
      OrderlyKeeps(h, s, Apply(s, e), e, t);
    case BeginReload(t, _) =>
      BeginMoves(s, e);
      MoveIsOrderly(s, Apply(s, e), e, t);
      OrderlyKeeps(h, s, Apply(s, e), e, t);
    case _ =>
      NotesNothing(h, s, e);
      RequestsKeep(h, s, Apply(s, e));
  }

  lemma NotesNothing(h: History, s: State, e: Event)
    requires !e.Step?
    ensures Noted(h, s, e) == h
  {
  }

  lemma {:induction false} RunKept(h: History, s: State, events: seq<Event>)
    requires Inv(s) && Kept(h, s) && Run(s, events).Some?
    ensures Kept(Recorded(h, s, events), Run(s, events).value)
    decreases |events|
  {
    hide Inv, Kept, Enabled, Apply, Noted;
    if events != [] {
      EventKeeps(s, events[0]);
      EventKept(h, s, events[0]);
      RunKept(Noted(h, s, events[0]), Apply(s, events[0]), events[1..]);
    }
  }

  lemma NothingYet()
    ensures Inv(INIT) && Kept(NOTHING, INIT)
  {
  }

  // ---- Results ----

  /** Over every run, a consumer runs exactly if its slot was built with one configured and its own reload, or
      the load that dropped the slot, has not stopped it. */
  lemma ConsumersRun(events: seq<Event>, g: nat)
    requires Run(INIT, events).Some?
    ensures var h := Recorded(NOTHING, INIT, events);
            g in Run(INIT, events).value.kafka <==> g in h.configured && g !in h.stopped
  {
    hide Run, Recorded, Needs, Opens, Running, LeftKept, ThreadKept;
    NothingYet();
    RunKept(NOTHING, INIT, events);
    assert g in Run(INIT, events).value.kafka <==> g in Run(INIT, events).value.kafka.Keys;
  }

  /** So a table always reads its stream: at whatever point of whatever run, the consumer of the slot that
      requests get runs, writing for this table, exactly if it was configured when the slot was built. */
  lemma LiveConsumer(events: seq<Event>, n: string)
    requires Run(INIT, events).Some? && n in Run(INIT, events).value.heads
    ensures var s, h := Run(INIT, events).value, Recorded(NOTHING, INIT, events);
            && s.heads[n].slot.Some? && s.heads[n].slot.value in h.built
            && (s.heads[n].slot.value in s.kafka <==> s.heads[n].slot.value in h.configured)
            && (s.heads[n].slot.value in s.kafka ==> s.kafka[s.heads[n].slot.value] == n)
  {
    hide Run, Recorded, Inv, Needs, Opens, LeftKept, ThreadKept, LiveKey, TableOf;
    NothingYet();
    RunKept(NOTHING, INIT, events);
    Reachable(events);
    var s := Run(INIT, events).value;
    HeadFact(s, n);
    ConsumersRun(events, s.heads[n].slot.value);
    if s.heads[n].slot.value in s.kafka { OwnConsumer(s, n); }
  }

  /** While a reload is between building the new slot and stopping the old consumer, both consumers run that
      are configured. */
  lemma BothConsumers(events: seq<Event>, t: Thread)
    requires Run(INIT, events).Some? && t in Run(INIT, events).value.pcs
    ensures var s, h := Run(INIT, events).value, Recorded(NOTHING, INIT, events);
            var slot := Needs(s, t);
            slot.Some? ==> slot.value in h.built && (slot.value in s.kafka <==> slot.value in h.configured)
  {
    hide Run, Recorded, Inv, Needs, Opens, LeftKept;
    NothingYet();
    RunKept(NOTHING, INIT, events);
    var s, h := Run(INIT, events).value, Recorded(NOTHING, INIT, events);
    assert ThreadKept(h, s, t);
    if Needs(s, t).Some? { ConsumersRun(events, Needs(s, t).value); }
  }

  /** A consumer works for the table whose slot owns it. */
  lemma OwnConsumer(s: State, n: string)
    requires Inv(s) && n in s.heads && s.heads[n].slot.Some? && s.heads[n].slot.value in s.kafka
    ensures s.kafka[s.heads[n].slot.value] == n
  {
    hide Inv, LiveKey, TableOf, OtherKey;
    var g := s.heads[n].slot.value;
    var m := s.kafka[g];
    ConsumerFact(s, g);
    HeadFact(s, n);
    KeyFacts(s);
    KeysOf(n, s.heads[n].stagingIsLive);
    if m in s.heads && s.heads[m].slot == Some(g) {
      HeadFact(s, m);
      KeysOf(m, s.heads[m].stagingIsLive);
    } else if Reloader(s, m).Some? && KeepsConsumer(Reloader(s, m).value, g) {
      LockFact(s, m);
      var k := KeyOfSlot(s, s.serial[m], g);
    } else {
      var k := KeyOfSlot(s, s.loadLock.value, g);
    }
  }
}
