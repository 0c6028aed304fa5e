/** Under which name a table is registered: the file name of the path asked for, whatever the path. */
module RegistryNames {
  import opened Wrappers
  import opened Registry
  import opened RegistryInv
  import opened RegistrySafe
  import opened RegistryOpens

  predicate Loads(at: Phase) {
    at.LoadLock? || at.LoadCheck? || at.LoadOpen? || at.LoadCanonical? || at.LoadBuild? || at.LoadClose? || at.LoadRegister?
  }

  predicate NamedByLeaf(pc: Pc) {
    Loads(pc.at) ==> pc.name == Leaf(pc.asked)
  }

  /** Loads go by file names, so that no registered name is a path. */
  predicate Named(s: State) {
    && (forall t :: t in s.pcs ==> NamedByLeaf(s.pcs[t]))
    && (forall n :: n in s.heads ==> '/' !in n)
  }

  predicate NamesStay(s: State, z: State, t: Thread)
    requires t in s.pcs
  {
    && (z.pcs == s.pcs - {t} || (t in z.pcs && z.pcs == s.pcs[t := z.pcs[t]]
                                 && (NamedByLeaf(s.pcs[t]) ==> NamedByLeaf(z.pcs[t]))))
    && (forall n :: n in z.heads ==> n in s.heads || (s.pcs[t].at.LoadRegister? && n == s.pcs[t].name))
  }

  lemma OpeningNames(s: State, t: Thread, o: Outcome, consumer: bool)
    requires t in s.pcs && Next(s, t, o, consumer).Some?
    requires s.pcs[t].at.LoadLock? || s.pcs[t].at.LoadCheck? || s.pcs[t].at.LoadOpen? || s.pcs[t].at.LoadCanonical?
    ensures NamesStay(s, Next(s, t, o, consumer).value, t)
  {
    hide Leaf, IsLoadable, IsReserved, LiveKey, OnlyReference;
  }

  lemma BuildingNames(s: State, t: Thread, o: Outcome, consumer: bool)
    requires t in s.pcs && Next(s, t, o, consumer).Some?
    requires s.pcs[t].at.LoadBuild? || s.pcs[t].at.LoadClose? || s.pcs[t].at.LoadRegister?
    ensures NamesStay(s, Next(s, t, o, consumer).value, t)
  {
    hide Leaf, IsLoadable, IsReserved, LiveKey, OnlyReference;
  }

  lemma LockingNames(s: State, t: Thread, o: Outcome, consumer: bool)
    requires t in s.pcs && Next(s, t, o, consumer).Some?
    requires s.pcs[t].at.ReloadFind? || s.pcs[t].at.ReloadLock? || s.pcs[t].at.ReloadRead?
    ensures NamesStay(s, Next(s, t, o, consumer).value, t)
  {
    hide Leaf, IsLoadable, IsReserved, LiveKey, OnlyReference;
  }

  lemma CheckNames(s: State, t: Thread, o: Outcome, consumer: bool)
    requires t in s.pcs && Next(s, t, o, consumer).Some? && s.pcs[t].at.ReloadCheck?
    ensures NamesStay(s, Next(s, t, o, consumer).value, t)
  {
    hide Leaf, IsLoadable, IsReserved, LiveKey, OnlyReference;
  }

  lemma OtherKeyNames(s: State, t: Thread, o: Outcome, consumer: bool)
    requires t in s.pcs && Next(s, t, o, consumer).Some?
    requires s.pcs[t].at.ReloadPrepare? || s.pcs[t].at.ReloadCloseNext? || s.pcs[t].at.ReloadOpen? || s.pcs[t].at.ReloadBuild?
    ensures NamesStay(s, Next(s, t, o, consumer).value, t)
  {
    hide Leaf, IsLoadable, IsReserved, LiveKey, OnlyReference;
  }

  lemma SwappingNames(s: State, t: Thread, o: Outcome, consumer: bool)
    requires t in s.pcs && Next(s, t, o, consumer).Some?
    requires s.pcs[t].at.ReloadUndo? || s.pcs[t].at.ReloadSwap? || s.pcs[t].at.ReloadStop? || s.pcs[t].at.ReloadDrain? || s.pcs[t].at.ReloadClosePrev?
    ensures NamesStay(s, Next(s, t, o, consumer).value, t)
  {
    hide Leaf, IsLoadable, IsReserved, LiveKey, OnlyReference;
  }

  lemma StepNames(s: State, t: Thread, o: Outcome, consumer: bool)
    requires t in s.pcs && Next(s, t, o, consumer).Some?
    ensures NamesStay(s, Next(s, t, o, consumer).value, t)
  {
    hide Next, NamesStay;
    match s.pcs[t].at
    case LoadLock | LoadCheck | LoadOpen | LoadCanonical => OpeningNames(s, t, o, consumer);
    case LoadBuild | LoadClose | LoadRegister => BuildingNames(s, t, o, consumer);
    case ReloadCheck => CheckNames(s, t, o, consumer);
    case ReloadFind | ReloadLock | ReloadRead => LockingNames(s, t, o, consumer);
    case ReloadPrepare | ReloadCloseNext | ReloadOpen | ReloadBuild => OtherKeyNames(s, t, o, consumer);
    case ReloadUndo | ReloadSwap | ReloadStop | ReloadDrain | ReloadClosePrev => SwappingNames(s, t, o, consumer);
  }

  lemma EventNames(s: State, e: Event)
    requires Named(s) && Enabled(s, e)
    ensures Named(Apply(s, e))
  {
    hide Next, Leaf;
    if e.Step? { StepNames(s, e.t, e.o, e.consumer); }
  }

  lemma {:induction false} RunNames(s: State, events: seq<Event>)
    requires Named(s) && Run(s, events).Some?
    ensures Named(Run(s, events).value)
    decreases |events|
  {
    hide Named, Enabled, Apply;
    if events != [] {
      EventNames(s, events[0]);
      RunNames(Apply(s, events[0]), events[1..]);
    }
  }

  /** A load that comes to registering adds the file name of what it was asked for, and so the very name it
      was asked for if and only if that is not a path. */
  lemma RegistersLeaf(events: seq<Event>, t: Thread, o: Outcome, consumer: bool)
    requires Run(INIT, events).Some? && t in Run(INIT, events).value.pcs && Run(INIT, events).value.pcs[t].at.LoadRegister?
    ensures var s := Run(INIT, events).value;
            var asked := s.pcs[t].asked;
            var z := Next(s, t, o, consumer);
            && z.Some? && Leaf(asked) !in s.heads && z.value.heads.Keys == s.heads.Keys + {Leaf(asked)}
            && asked !in s.heads && (asked in z.value.heads <==> '/' !in asked)
  {
    hide Inv, Run, Leaf, IsLoadable, IsReserved, LiveKey, TableOf;
    Reachable(events);
    RunNames(INIT, events);
    var s := Run(INIT, events).value;
    LoadAlone(s, t);
    assert NamedByLeaf(s.pcs[t]);
    if '/' !in s.pcs[t].asked { LeafOfName(s.pcs[t].asked); }
  }

  lemma LeafOfName(name: string)
    requires '/' !in name
    ensures Leaf(name) == name
  {
  }

  /** The file name is what comes after the last slash, all of it if there is none. */
  lemma {:induction false} LeafIsLast(path: string, before: string, name: string)
    requires path == before + name && '/' !in name && (before == "" || before[|before| - 1] == '/')
    ensures Leaf(path) == name
    decreases |path|
  {
    if before == "" {
      assert path == name;
    } else {
      assert path[|before| - 1] == '/';
      assert path[1..] == before[1..] + name;
      LeafIsLast(path[1..], before[1..], name);
    }
  }

  /** No table is registered under an empty name, a path, the name of a hidden directory or that of a reload's
      staging directory; and a load is turned away exactly for such names and for those already registered. */
  lemma RegisteredNames(events: seq<Event>, n: string)
    requires Run(INIT, events).Some? && n in Run(INIT, events).value.heads
    ensures n != "" && '/' !in n && n[0] != '.' && !(|n| >= 7 && n[|n| - 7..] == "~reload")
  {
    hide Inv, Run, TableOf, LiveKey;
    Reachable(events);
    RunNames(INIT, events);
    HeadFact(Run(INIT, events).value, n);
  }

  lemma TurnedAway(s: State, t: Thread, o: Outcome, consumer: bool)
    requires t in s.pcs && s.pcs[t].at.LoadCheck?
    ensures Next(s, t, o, consumer) == Some(EndLoad(s, t)) <==>
              var n := s.pcs[t].name; n == "" || n[0] == '.' || (|n| >= 7 && n[|n| - 7..] == "~reload") || n in s.heads
  {
    assert t !in EndLoad(s, t).pcs && t in Goto(s, t, LoadOpen).pcs;
  }
}
