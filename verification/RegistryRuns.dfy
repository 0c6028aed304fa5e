/** Two runs of the registry from its start: a reload by path, and one that an exception ends. */
module RegistryRuns {
  import opened Wrappers
  import opened Registry

  // ---- ReloadTable("a/b") ----

  const PATH := "a/b"

  function Steps(n: nat): seq<Event> {
    if n == 0 then [] else [Step(0, Works, false)] + Steps(n - 1)
  }

  function Alone(db: map<string, nat>, nextGen: nat, locked: bool, pcs: map<Thread, Pc>): State {
    State(db, nextGen, map[], if locked then Some(0) else None, map[], pcs, map[], map[], {})
  }

  lemma LeafOfPath()
    ensures Leaf(PATH) == "b" && IsLoadable("b")
  {
    assert PATH[1..] == "/b" && "/b"[1..] == "b";
  }

  lemma {:induction false} OneStep(s: State, z: State, n: nat)
    requires 0 in s.pcs && Next(s, 0, Works, false) == Some(z)
    ensures Run(s, Steps(n + 1)) == Run(z, Steps(n))
  {
    hide Next;
    assert Steps(n + 1)[1..] == Steps(n);
  }

  lemma Moved(a: Pc, b: Pc)
    ensures map[0 := a][0 := b] == map[0 := b]
  {
  }

  const LOADED := INIT.(db := map["b" := 0], nextGen := 1, heads := map["b" := Head(Some(0), false)])

  /** Reloading the unknown "a/b", a directory, hot-opens "b", and "a/b" stays unknown. */
  lemma PathOpensLeaf()
    ensures Run(INIT, [BeginReload(0, PATH)] + Steps(7))
         == Some(LOADED)
  {
    hide Leaf, IsReserved, IsLoadable, Run;
    LeafOfPath();
    NotReserved();
    var load := BeginLoadOf(PATH);
    var s0 := Alone(map[], 0, false, map[0 := Begin(ReloadCheck, PATH)]);
    var s1 := Alone(map[], 0, false, map[0 := load]);
    var s2 := Alone(map[], 0, true, map[0 := load.(at := LoadCheck)]);
    var s3 := Alone(map[], 0, true, map[0 := load.(at := LoadOpen)]);
    var s4 := Alone(map["b" := 0], 1, true, map[0 := load.(at := LoadCanonical)]);
    var s5 := Alone(map["b" := 0], 1, true, map[0 := load.(at := LoadBuild)]);
    var s6 := Alone(map["b" := 0], 1, true, map[0 := load.(at := LoadRegister, slot := 0)]);
    Begins(s0);
    Moved(s0.pcs[0], s1.pcs[0]);
    Moved(s1.pcs[0], s2.pcs[0]);
    Moved(s2.pcs[0], s3.pcs[0]);
    Moved(s3.pcs[0], s4.pcs[0]);
    Moved(s4.pcs[0], s5.pcs[0]);
    Moved(s5.pcs[0], s6.pcs[0]);
    OneStep(s0, s1, 6);
    OneStep(s1, s2, 5);
    OneStep(s2, s3, 4);
    OneStep(s3, s4, 3);
    OneStep(s4, s5, 2);
    OneStep(s5, s6, 1);
    assert Exit(s6, 0).pcs == map[] && s6.left - {"b"} == {};
    assert s6.heads["b" := Head(Some(0), false)] == LOADED.heads;
    OneStep(s6, LOADED, 0);
    NoSteps(LOADED);
  }

  lemma NotReserved()
    ensures !IsReserved(PATH)
  {
  }

  lemma NoSteps(z: State)
    ensures Run(z, Steps(0)) == Some(z)
  {
  }

  lemma Begins(s0: State)
    requires s0 == Alone(map[], 0, false, map[0 := Begin(ReloadCheck, PATH)])
    ensures Run(INIT, [BeginReload(0, PATH)] + Steps(7)) == Run(s0, Steps(7))
  {
    assert ([BeginReload(0, PATH)] + Steps(7))[1..] == Steps(7);
  }

  // ---- A reload that throws ----

  const LOAD: seq<Event> := [BeginReload(0, PATH)] + Steps(7)
  const RELOAD: seq<Event> := [BeginReload(0, "b")] + Steps(7)
  const THROW: Event := Step(0, Throws, true)

  lemma {:induction false} RunOn(s: State, p: seq<Event>, q: seq<Event>)
    requires Run(s, p).Some?
    ensures Run(s, p + q) == Run(Run(s, p).value, q)
    decreases |p|
  {
    hide Apply, Enabled;
    if p == [] {
      assert p + q == q;
    } else {
      assert (p + q)[1..] == p[1..] + q;
      RunOn(Apply(s, p[0]), p[1..], q);
    }
  }

  /** Thread 0 inside the reload of "b". */
  function Reloading(db: map<string, nat>, nextGen: nat, locked: bool, at: Phase): State {
    LOADED.(db := db, nextGen := nextGen, serial := if locked then map["b" := 0] else map[],
            pcs := map[0 := Begin(ReloadCheck, "b").(at := at)])
  }

  lemma Goes(db: map<string, nat>, nextGen: nat, locked: bool, at: Phase, to: Phase)
    ensures Goto(Reloading(db, nextGen, locked, at), 0, to) == Reloading(db, nextGen, locked, to)
  {
    Moved(Begin(ReloadCheck, "b").(at := at), Begin(ReloadCheck, "b").(at := to));
  }

  /** Up to the lock. */
  lemma ComesToLock()
    ensures Run(LOADED, RELOAD) == Run(Reloading(map["b" := 0], 1, true, ReloadRead), Steps(4))
  {
    hide IsReserved, IsLoadable, Leaf, Run, LiveKey;
    var db := map["b" := 0];
    Goes(db, 1, false, ReloadCheck, ReloadFind);
    Goes(db, 1, false, ReloadFind, ReloadLock);
    Goes(db, 1, false, ReloadLock, ReloadRead);
    BeginsReload();
    OneStep(Reloading(db, 1, false, ReloadCheck), Reloading(db, 1, false, ReloadFind), 6);
    OneStep(Reloading(db, 1, false, ReloadFind), Reloading(db, 1, false, ReloadLock), 5);
    OneStep(Reloading(db, 1, false, ReloadLock), Reloading(db, 1, true, ReloadRead), 4);
  }

  lemma BeginsReload()
    ensures Run(LOADED, RELOAD) == Run(Reloading(map["b" := 0], 1, false, ReloadCheck), Steps(7))
  {
    assert RELOAD[1..] == Steps(7);
  }

  const BOTH: map<string, nat> := map["b" := 0, "b~reload" := 1]

  lemma TwoKeys()
    ensures OtherKey("b", false) == "b~reload" && LiveKey("b", false) == "b"
  {
  }

  /** And on, with the other key opened next to the live one. */
  lemma ComesToBuild()
    ensures Run(LOADED, RELOAD) == Some(Reloading(BOTH, 2, true, ReloadBuild))
  {
    hide IsReserved, IsLoadable, Leaf, Run, LiveKey, OtherKey;
    var db := map["b" := 0];
    TwoKeys();
    ComesToLock();
    Goes(db, 1, true, ReloadRead, ReloadPrepare);
    Goes(db, 1, true, ReloadPrepare, ReloadCloseNext);
    Goes(db, 1, true, ReloadCloseNext, ReloadOpen);
    Goes(BOTH, 2, true, ReloadOpen, ReloadBuild);
    OneStep(Reloading(db, 1, true, ReloadRead), Reloading(db, 1, true, ReloadPrepare), 3);
    OneStep(Reloading(db, 1, true, ReloadPrepare), Reloading(db, 1, true, ReloadCloseNext), 2);
    assert db - {"b~reload"} == db && {} - {"b~reload"} == {};
    OneStep(Reloading(db, 1, true, ReloadCloseNext), Reloading(db, 1, true, ReloadOpen), 1);
    assert db["b~reload" := 1] == BOTH;
    OneStep(Reloading(db, 1, true, ReloadOpen), Reloading(BOTH, 2, true, ReloadBuild), 0);
    NoSteps(Reloading(BOTH, 2, true, ReloadBuild));
  }

  /** The consumer's thread cannot be started: no call is under way any more, and both keys are open. */
  lemma ThrowLeavesBoth()
    ensures Run(INIT, LOAD + RELOAD + [THROW]) == Some(LOADED.(db := BOTH, nextGen := 2, left := {"b~reload"}))
  {
    hide IsReserved, IsLoadable, Leaf, LiveKey, OtherKey, Run;
    PathOpensLeaf();
    ComesToBuild();
    TwoKeys();
    RunOn(INIT, LOAD, RELOAD);
    RunOn(INIT, LOAD + RELOAD, [THROW]);
    var s := Reloading(BOTH, 2, true, ReloadBuild);
    var z := LOADED.(db := BOTH, nextGen := 2, left := {"b~reload"});
    assert Next(s, 0, Throws, true) == Some(z) by {
      assert s.pcs - {0} == map[] && s.serial - {"b"} == map[] && s.left + {"b~reload"} == z.left;
    }
    OneEvent(s, THROW);
  }

  lemma OneEvent(s: State, e: Event)
    requires Enabled(s, e)
    ensures Run(s, [e]) == Some(Apply(s, e))
  {
    hide Enabled, Apply;
    assert [e][1..] == [];
  }
}
