/** What a reload never takes away from requests, and that it comes to an end. */
module RegistryProgress {
  import opened Wrappers
  import opened Registry
  import opened RegistryInv
  import opened RegistrySteps
  import opened RegistryOpens
  import opened RegistrySafe
  import opened RegistryNames

  // ---- Every call ends ----

  /** The most steps a call has left. */
  function Rank(at: Phase): nat {
    match at
    case ReloadCheck => 14
    case ReloadFind => 13
    case ReloadLock => 12
    case ReloadRead => 11
    case ReloadPrepare => 10
    case ReloadCloseNext => 9
    case ReloadOpen => 8
    case ReloadBuild => 7
    case ReloadUndo => 1
    case ReloadSwap => 6
    case ReloadStop => 5
    case ReloadDrain => 4
    case ReloadClosePrev => 3
    case LoadLock => 7
    case LoadCheck => 6
    case LoadOpen => 5
    case LoadCanonical => 4
    case LoadBuild => 3
    case LoadRegister => 2
    case LoadClose => 1
  }

  /** A step leaves the handles alone, and the registered tables unless it registers or swaps one. */
  ghost predicate StepsDown(s: State, t: Thread, z: State)
    requires t in s.pcs
  {
    && z.handles == s.handles
    && (t in z.pcs ==> Rank(z.pcs[t].at) < Rank(s.pcs[t].at))
    && (s.pcs[t].at.ReloadSwap? || s.pcs[t].at.LoadRegister? || z.heads == s.heads)
  }

  lemma OpeningDown(s: State, t: Thread, o: Outcome, consumer: bool)
    requires t in s.pcs && Next(s, t, o, consumer).Some? && (s.pcs[t].at.LoadLock? || s.pcs[t].at.LoadCheck? || s.pcs[t].at.LoadOpen?)
    ensures StepsDown(s, t, Next(s, t, o, consumer).value)
  {
    hide IsLoadable, IsReserved, LiveKey, Leaf, OnlyReference;
  }

  lemma BuildingDown(s: State, t: Thread, o: Outcome, consumer: bool)
    requires t in s.pcs && Next(s, t, o, consumer).Some? && (s.pcs[t].at.LoadCanonical? || s.pcs[t].at.LoadBuild?)
    ensures StepsDown(s, t, Next(s, t, o, consumer).value)
  {
    hide IsLoadable, IsReserved, LiveKey, Leaf, OnlyReference;
  }

  lemma EndingDown(s: State, t: Thread, o: Outcome, consumer: bool)
    requires t in s.pcs && Next(s, t, o, consumer).Some? && (s.pcs[t].at.LoadClose? || s.pcs[t].at.LoadRegister?)
    ensures StepsDown(s, t, Next(s, t, o, consumer).value)
  {
    hide IsLoadable, IsReserved, LiveKey, Leaf, OnlyReference;
  }

  lemma LockingDown(s: State, t: Thread, o: Outcome, consumer: bool)
    requires t in s.pcs && Next(s, t, o, consumer).Some? && (s.pcs[t].at.ReloadFind? || s.pcs[t].at.ReloadLock?)
    ensures StepsDown(s, t, Next(s, t, o, consumer).value)
  {
    hide IsLoadable, IsReserved, LiveKey, Leaf, OnlyReference;
  }

  lemma CheckDown(s: State, t: Thread, o: Outcome, consumer: bool)
    requires t in s.pcs && Next(s, t, o, consumer).Some? && s.pcs[t].at.ReloadCheck?
    ensures StepsDown(s, t, Next(s, t, o, consumer).value)
  {
    hide IsLoadable, IsReserved, LiveKey, Leaf, OnlyReference;
  }

  lemma PreparingDown(s: State, t: Thread, o: Outcome, consumer: bool)
    requires t in s.pcs && Next(s, t, o, consumer).Some? && (s.pcs[t].at.ReloadRead? || s.pcs[t].at.ReloadPrepare?)
    ensures StepsDown(s, t, Next(s, t, o, consumer).value)
  {
    hide IsLoadable, IsReserved, LiveKey, Leaf, OnlyReference;
  }

  lemma NextKeyDown(s: State, t: Thread, o: Outcome, consumer: bool)
    requires t in s.pcs && Next(s, t, o, consumer).Some? && (s.pcs[t].at.ReloadCloseNext? || s.pcs[t].at.ReloadOpen?)
    ensures StepsDown(s, t, Next(s, t, o, consumer).value)
  {
    hide IsLoadable, IsReserved, LiveKey, Leaf, OnlyReference;
  }

  lemma ClosingDown(s: State, t: Thread, o: Outcome, consumer: bool)
    requires t in s.pcs && Next(s, t, o, consumer).Some? && (s.pcs[t].at.ReloadUndo? || s.pcs[t].at.ReloadClosePrev?)
    ensures StepsDown(s, t, Next(s, t, o, consumer).value)
  {
    hide IsLoadable, IsReserved, LiveKey, Leaf, OnlyReference;
  }

  lemma RebuildingDown(s: State, t: Thread, o: Outcome, consumer: bool)
    requires t in s.pcs && Next(s, t, o, consumer).Some? && s.pcs[t].at.ReloadBuild?
    ensures StepsDown(s, t, Next(s, t, o, consumer).value)
  {
    hide IsLoadable, IsReserved, LiveKey, Leaf, OnlyReference;
  }

  lemma SwappingDown(s: State, t: Thread, o: Outcome, consumer: bool)
    requires t in s.pcs && Next(s, t, o, consumer).Some? && (s.pcs[t].at.ReloadSwap? || s.pcs[t].at.ReloadStop? || s.pcs[t].at.ReloadDrain?)
    ensures StepsDown(s, t, Next(s, t, o, consumer).value)
  {
    hide IsLoadable, IsReserved, LiveKey, Leaf, OnlyReference;
  }

  /** Each step takes its call nearer to its end. */
  lemma EveryStepDown(s: State, t: Thread, o: Outcome, consumer: bool)
    requires t in s.pcs && Next(s, t, o, consumer).Some?
    ensures StepsDown(s, t, Next(s, t, o, consumer).value)
  {
    hide Next, StepsDown;
    var at := s.pcs[t].at;
    if at.LoadLock? || at.LoadCheck? || at.LoadOpen? {
      OpeningDown(s, t, o, consumer);
    } else if at.LoadCanonical? || at.LoadBuild? {
      BuildingDown(s, t, o, consumer);
    } else if at.LoadClose? || at.LoadRegister? {
      EndingDown(s, t, o, consumer);
    } else if at.ReloadCheck? {
      CheckDown(s, t, o, consumer);
    } else if at.ReloadFind? || at.ReloadLock? {
      LockingDown(s, t, o, consumer);
    } else if at.ReloadRead? || at.ReloadPrepare? {
      PreparingDown(s, t, o, consumer);
    } else if at.ReloadCloseNext? || at.ReloadOpen? {
      NextKeyDown(s, t, o, consumer);
    } else if at.ReloadBuild? {
      RebuildingDown(s, t, o, consumer);
    } else if at.ReloadUndo? || at.ReloadClosePrev? {
      ClosingDown(s, t, o, consumer);
    } else {
      SwappingDown(s, t, o, consumer);
    }
  }

  // ---- Only a swap replaces a table's index ----

  predicate SwapsNext(s: State, e: Event, n: string) {
    e.Step? && e.t in s.pcs && s.pcs[e.t].at.ReloadSwap? && s.pcs[e.t].name == n
  }

  /** Any other event, every failure exit included, leaves the live slot and the flag of a table alone. */
  lemma OnlySwaps(s: State, e: Event, n: string)
    requires Inv(s) && Enabled(s, e) && n in s.heads && !SwapsNext(s, e, n)
    ensures n in Apply(s, e).heads && Apply(s, e).heads[n] == s.heads[n]
  {
    hide Inv, Next;
    if e.Step? {
      EveryStepDown(s, e.t, e.o, e.consumer);
      if s.pcs[e.t].at.LoadRegister? { RegisterAdds(s, e.t, e.o, e.consumer, n); }
      if s.pcs[e.t].at.ReloadSwap? { SwapElsewhere(s, e.t, e.o, e.consumer, n); }
    }
  }

  lemma RegisterAdds(s: State, t: Thread, o: Outcome, consumer: bool, n: string)
    requires Inv(s) && t in s.pcs && s.pcs[t].at.LoadRegister? && n in s.heads
    ensures var z := Next(s, t, o, consumer);
            z.Some? && n in z.value.heads && z.value.heads[n] == s.heads[n]
  {
    hide Inv;
    LoadAlone(s, t);
  }

  lemma SwapElsewhere(s: State, t: Thread, o: Outcome, consumer: bool, n: string)
    requires t in s.pcs && s.pcs[t].at.ReloadSwap? && s.pcs[t].name != n && n in s.heads
    ensures var z := Next(s, t, o, consumer);
            z.Some? ==> n in z.value.heads && z.value.heads[n] == s.heads[n]
  {
  }

  /** A swap is made by the thread that holds the table's reload lock, and to a newer index. */
  lemma SwapsForward(s: State, e: Event, n: string)
    requires Inv(s) && Enabled(s, e) && n in s.heads && SwapsNext(s, e, n)
    ensures n in s.serial && s.serial[n] == e.t
    ensures var z := Apply(s, e);
            && n in z.heads && s.heads[n].slot.Some? && z.heads[n].slot.Some?
            && s.heads[n].slot.value < z.heads[n].slot.value
            && z.heads[n].stagingIsLive == !s.heads[n].stagingIsLive
  {
    hide Inv, IsReserved, IsLoadable, LiveKey;
    ReloadAlone(s, e.t);
  }

  /** Thread `t` holds the reload lock of `n` before each of the events, and none of them is its swap. */
  predicate ReloadWithoutSwap(s: State, events: seq<Event>, t: Thread, n: string)
    decreases |events|
  {
    events != [] ==>
      && n in s.serial && s.serial[n] == t && Enabled(s, events[0])
      && !(SwapsNext(s, events[0], n) && events[0].t == t)
      && ReloadWithoutSwap(Apply(s, events[0]), events[1..], t, n)
  }

  /** A reload that fails, whatever the others do meanwhile, leaves the table exactly as it found it. */
  lemma {:induction false} FailedReload(s: State, events: seq<Event>, t: Thread, n: string)
    requires Inv(s) && n in s.heads && ReloadWithoutSwap(s, events, t, n)
    ensures Run(s, events).Some? && n in Run(s, events).value.heads && Run(s, events).value.heads[n] == s.heads[n]
    decreases |events|
  {
    hide Inv, Enabled, Apply, SwapsNext;
    if events != [] {
      var e := events[0];
      if SwapsNext(s, e, n) { SwapperIs(s, e, n); }
      OnlySwaps(s, e, n);
      EventKeeps(s, e);
      FailedReload(Apply(s, e), events[1..], t, n);
    }
  }

  lemma SwapperIs(s: State, e: Event, n: string)
    requires Inv(s) && Enabled(s, e) && n in s.heads && SwapsNext(s, e, n)
    ensures n in s.serial && s.serial[n] == e.t
  {
    hide Inv, Apply, Enabled;
    SwapsForward(s, e, n);
  }

  // ---- Availability ----

  predicate NoOlder(s: State, z: State, n: string) {
    && n in z.heads && Acquire(s, n).Some? && Acquire(z, n).Some?
    && Acquire(s, n).value.slot <= Acquire(z, n).value.slot
  }

  lemma EventNoOlder(s: State, e: Event, n: string)
    requires Inv(s) && Enabled(s, e) && n in s.heads
    ensures NoOlder(s, Apply(s, e), n)
  {
    hide Inv, Enabled, Apply, SwapsNext, HeadOk;
    EventKeeps(s, e);
    if SwapsNext(s, e, n) { SwapsForward(s, e, n); } else { OnlySwaps(s, e, n); }
    Served(s, n);
    Served(Apply(s, e), n);
  }

  lemma Served(s: State, n: string)
    requires Inv(s) && n in s.heads
    ensures Acquire(s, n) == Some(Handle(n, s.heads[n].slot.value)) && s.heads[n].slot.Some?
    ensures s.heads[n].slot.value in s.db.Values
  {
    hide Inv, LiveKey;
    HeadFact(s, n);
  }

  /** Once a table is registered, Acquire never fails, what it hands out is an open index, and successive
      requests never go back to an older one. */
  lemma {:induction false} AlwaysServed(s: State, events: seq<Event>, n: string)
    requires Inv(s) && n in s.heads && Run(s, events).Some?
    ensures NoOlder(s, Run(s, events).value, n)
    ensures Acquire(Run(s, events).value, n).value.slot in Run(s, events).value.db.Values
    decreases |events|
  {
    hide Inv, Enabled, Apply, Acquire;
    if events == [] {
      Served(s, n);
    } else {
      EventNoOlder(s, events[0], n);
      EventKeeps(s, events[0]);
      AlwaysServed(Apply(s, events[0]), events[1..], n);
    }
  }

  // ---- Draining ----

  /** Thread `t` has swapped `slot` out and not yet seen it drained. */
  predicate Draining(s: State, t: Thread, slot: nat) {
    t in s.pcs && Retires(s.pcs[t], slot)
  }

  function Pins(s: State, slot: nat): set<nat> {
    set h | h in s.handles && s.handles[h].slot == slot
  }

  /** A slot being drained is no table's live slot, so no Acquire hands it out. */
  lemma RetiredIsNotLive(s: State, t: Thread, slot: nat)
    requires Inv(s) && Draining(s, t, slot)
    ensures !IsLive(s, slot)
  {
    hide Inv, IsReserved, LiveKey, TableOf;
    ReloadAlone(s, t);
    KeyFacts(s);
    forall m | m in s.heads
      ensures s.heads[m].slot != Some(slot)
    {
      HeadFact(s, m);
      KeysOf(m, s.heads[m].stagingIsLive);
    }
  }

  /** The pins of a slot being drained never grow, unless a client copies a handle it has. */
  lemma PinsShrink(s: State, e: Event, t: Thread, slot: nat)
    requires Inv(s) && Draining(s, t, slot) && Enabled(s, e)
    ensures !e.Copy? ==> Pins(Apply(s, e), slot) <= Pins(s, slot)
    ensures Pins(s, slot) == {} ==> Pins(Apply(s, e), slot) == {}
  {
    hide Inv, Draining, Next;
    RetiredIsNotLive(s, t, slot);
    forall h | h in Pins(Apply(s, e), slot)
      ensures h in Pins(s, slot) || (e.Copy? && e.from in Pins(s, slot))
    {
      if e.Step? { EveryStepDown(s, e.t, e.o, e.consumer); }
    }
  }

  /** The reload's test of `use_count` waits for exactly the requests on the old slot. */
  lemma WaitsForPins(s: State, t: Thread, o: Outcome, consumer: bool)
    requires Inv(s) && t in s.pcs && s.pcs[t].at.ReloadDrain?
    ensures s.pcs[t].oldSlot.Some?
    ensures Next(s, t, o, consumer).Some? <==> Pins(s, s.pcs[t].oldSlot.value) == {}
  {
    hide Inv, IsReserved, IsLoadable, LiveKey, TableOf;
    ReloadAlone(s, t);
    var slot := s.pcs[t].oldSlot.value;
    RetiredIsNotLive(s, t, slot);
    assert (forall h :: h in s.handles ==> s.handles[h].slot != slot) <==> Pins(s, slot) == {} by {
      assert forall h :: h in Pins(s, slot) <==> h in s.handles && s.handles[h].slot == slot;
    }
  }

  // ---- No deadlock ----

  predicate CanMove(s: State, t: Thread) {
    t in s.pcs && Next(s, t, Works, false).Some?
  }

  /** A thread can move unless it waits for a lock, or for requests to release the slot it retires. */
  lemma MovesUnlessWaiting(s: State, t: Thread)
    requires Inv(s) && t in s.pcs
    ensures CanMove(s, t)
         || (s.pcs[t].at.LoadLock? && s.loadLock.Some?)
         || (s.pcs[t].at.ReloadLock? && s.pcs[t].name in s.serial)
         || (s.pcs[t].at.ReloadDrain? && s.pcs[t].oldSlot.Some? && Pins(s, s.pcs[t].oldSlot.value) != {})
  {
    hide Inv, IsReserved, IsLoadable, LiveKey, OnlyReference, Leaf, Pins;
    if s.pcs[t].at.ReloadDrain? { WaitsForPins(s, t, Works, false); }
    if s.pcs[t].at.ReloadSwap? { ReloadAlone(s, t); }
  }

  /** No deadlock: while any call is under way, some thread can move, or a request still holds a slot
      that a reload is draining. */
  lemma NoDeadlock(s: State, t: Thread)
    requires Inv(s) && t in s.pcs
    ensures exists u :: u in s.pcs && (CanMove(s, u) || exists slot :: Draining(s, u, slot) && Pins(s, slot) != {})
  {
    hide Inv, Next, Pins, CanMove;
    MovesUnlessWaiting(s, t);
    var u := t;
    if s.pcs[t].at.LoadLock? && s.loadLock.Some? {
      u := s.loadLock.value;
      LockFact(s, "");
      ThreadFact(s, u);
    } else if s.pcs[t].at.ReloadLock? && s.pcs[t].name in s.serial {
      LockFact(s, s.pcs[t].name);
      u := s.serial[s.pcs[t].name];
    }
    MovesUnlessWaiting(s, u);
    if !CanMove(s, u) {
      assert Draining(s, u, s.pcs[u].oldSlot.value);
    }
  }

  // ---- All calls come to their end ----

  /** The most steps all calls have left. */
  ghost function Work(pcs: map<Thread, Pc>): nat
    decreases |pcs|
  {
    if pcs == map[] then 0
    else
      var t :| t in pcs;
      assert |pcs - {t}| < |pcs| by { Fewer(pcs, t); }
      Rank(pcs[t].at) + Work(pcs - {t})
  }

  lemma Fewer(pcs: map<Thread, Pc>, t: Thread)
    requires t in pcs
    ensures |pcs - {t}| == |pcs| - 1
  {
    assert (pcs - {t})[t := pcs[t]] == pcs;
  }

  /** Whichever call is counted first. */
  lemma {:induction false} WorkOf(pcs: map<Thread, Pc>, u: Thread)
    requires u in pcs
    ensures Work(pcs) == Rank(pcs[u].at) + Work(pcs - {u})
    decreases |pcs|
  {
    hide Rank;
    var t :| t in pcs && Work(pcs) == Rank(pcs[t].at) + Work(pcs - {t});
    if t != u {
      Fewer(pcs, t);
      Fewer(pcs, u);
      WorkOf(pcs - {t}, u);
      WorkOf(pcs - {u}, t);
      assert pcs - {t} - {u} == pcs - {u} - {t};
    }
  }

  predicate EndsCalls(e: Event) {
    e.Step? || e.Release?
  }

  ghost function Effort(s: State): nat {
    Work(s.pcs) + |s.handles|
  }

  lemma StepsElsewhere(s: State, t: Thread, o: Outcome, consumer: bool)
    requires Inv(s) && t in s.pcs && Next(s, t, o, consumer).Some?
    ensures Next(s, t, o, consumer).value.pcs - {t} == s.pcs - {t}
  {
    hide Inv, Next;
    StepNames(s, t, o, consumer);
  }

  lemma RankAboveZero(at: Phase)
    ensures Rank(at) > 0
  {
  }

  /** Each step and each release brings the end of all calls nearer. */
  lemma EffortFalls(s: State, e: Event)
    requires Inv(s) && Enabled(s, e) && EndsCalls(e)
    ensures Effort(Apply(s, e)) < Effort(s)
  {
    hide Inv, Next, Rank, Work;
    if e.Step? {
      var z := Next(s, e.t, e.o, e.consumer).value;
      EveryStepDown(s, e.t, e.o, e.consumer);
      StepsElsewhere(s, e.t, e.o, e.consumer);
      RankAboveZero(s.pcs[e.t].at);
      WorkOf(s.pcs, e.t);
      if e.t in z.pcs { WorkOf(z.pcs, e.t); } else { assert z.pcs - {e.t} == z.pcs; }
    } else {
      assert (s.handles - {e.h})[e.h := s.handles[e.h]] == s.handles;
    }
  }

  /** So steps and releases cannot go on for ever, whatever the outcomes of the calls they make. */
  lemma {:induction false} RunsAreShort(s: State, events: seq<Event>)
    requires Inv(s) && Run(s, events).Some? && forall i :: 0 <= i < |events| ==> EndsCalls(events[i])
    ensures |events| + Effort(Run(s, events).value) <= Effort(s)
    decreases |events|
  {
    hide Inv, Enabled, Apply, Effort, EndsCalls;
    if events != [] {
      EffortFalls(s, events[0]);
      EventKeeps(s, events[0]);
      RunsAreShort(Apply(s, events[0]), events[1..]);
    }
  }

  /** And where neither is possible any more, no call is under way. */
  lemma StuckIsDone(s: State)
    requires Inv(s) && forall e :: EndsCalls(e) ==> !Enabled(s, e)
    ensures s.pcs == map[]
  {
    hide Inv, Next, Draining;
    if t :| t in s.pcs {
      var e := SomeEvent(s, t);
    }
  }

  lemma SomeEvent(s: State, t: Thread) returns (e: Event)
    requires Inv(s) && t in s.pcs
    ensures EndsCalls(e) && Enabled(s, e)
  {
    hide Inv, Next, Draining;
    NoDeadlock(s, t);
    var u :| u in s.pcs && (CanMove(s, u) || exists slot :: Draining(s, u, slot) && Pins(s, slot) != {});
    if CanMove(s, u) {
      e := Step(u, Works, false);
    } else {
      var slot :| Draining(s, u, slot) && Pins(s, slot) != {};
      var h :| h in Pins(s, slot);
      e := Release(h);
    }
  }

  /** From any reachable state, once requests release what they hold, all calls come to their end. */
  lemma {:induction false} AllCallsEnd(s: State) returns (events: seq<Event>)
    requires Inv(s)
    ensures forall i :: 0 <= i < |events| ==> EndsCalls(events[i])
    ensures Run(s, events).Some? && Run(s, events).value.pcs == map[]
    decreases Effort(s)
  {
    hide Inv, Enabled, Apply, Effort, EndsCalls;
    events := [];
    if t :| t in s.pcs {
      var e := SomeEvent(s, t);
      EffortFalls(s, e);
      EventKeeps(s, e);
      var rest := AllCallsEnd(Apply(s, e));
      events := [e] + rest;
      assert events[1..] == rest;
    }
  }
}
