/** Each step of LoadTable and ReloadTable keeps the invariant. */
module RegistrySteps {
  import opened Wrappers
  import opened Registry
  import opened RegistryInv

  // ---- Steps that open and close nothing ----

  /** What other threads can tell from a position is the same before and after. */
  predicate SameRole(p: Pc, q: Pc) {
    && (LoadOpened(p) <==> LoadOpened(q)) && (BothOpen(p) <==> BothOpen(q)) && (HoldsSerial(p) <==> HoldsSerial(q))
    && (Cleared(q) ==> Cleared(p))
    && (LoadOpened(p) || HoldsSerial(q) ==> p.name == q.name)
    && !p.at.ReloadStop? && !p.at.ReloadDrain? && !p.at.ReloadSwap? && !p.at.LoadRegister?
  }

  lemma PlaceMoves(s: State, t: Thread, q: Pc, n: string)
    ensures Moves(s, Place(s, t, q), t, n) && Quiet(s, Place(s, t, q))
  {
  }

  lemma LockPlace(s: State, t: Thread, q: Pc, n: string)
    requires n in s.serial && LockOk(s, n) && t in s.pcs && (HoldsSerial(s.pcs[t]) ==> HoldsSerial(q) && q.name == s.pcs[t].name)
    ensures LockOk(Place(s, t, q), n)
  {
    hide HoldsSerial;
  }

  lemma Advance(s: State, t: Thread, q: Pc)
    requires Inv(s) && t in s.pcs && SameRole(s.pcs[t], q) && ThreadOk(Place(s, t, q), t)
    ensures Inv(Place(s, t, q))
  {
    hide Inv, ThreadOk, HoldsSerial, HoldsLoad, LoadOpened, BothOpen, Moves, Quiet, LockOk;
    var n := s.pcs[t].name;
    ThreadFact(s, t);
    LockFact(s, n);
    PlaceMoves(s, t, q, n);
    if n in s.serial { LockPlace(s, t, q, n); }
    QuietKeeps(s, Place(s, t, q), t, n);
  }

  /** LoadTable returns before it has opened anything. */
  lemma GiveUpLoad(s: State, t: Thread)
    requires Inv(s) && t in s.pcs && HoldsLoad(s.pcs[t]) && !LoadOpened(s.pcs[t])
    ensures Inv(EndLoad(s, t))
  {
    hide Inv, IsLoadable, LiveKey;
    var n := s.pcs[t].name;
    ThreadFact(s, t);
    LockFact(s, n);
    QuietKeeps(s, EndLoad(s, t), t, n);
  }

  lemma EndReloadMoves(s: State, t: Thread, n: string)
    requires n in s.serial && s.serial[n] == t && (s.loadLock == Some(t) ==> t in s.pcs && HoldsLoad(s.pcs[t]))
    requires t in s.pcs && HoldsSerial(s.pcs[t])
    ensures Moves(s, EndReload(s, t, n), t, n) && Quiet(s, EndReload(s, t, n)) && s.loadLock != Some(t)
  {
  }

  lemma ThreadLocks(s: State, t: Thread)
    requires Inv(s) && t in s.pcs
    ensures HoldsLoad(s.pcs[t]) <==> s.loadLock == Some(t)
    ensures HoldsSerial(s.pcs[t]) ==> s.pcs[t].name in s.serial && s.serial[s.pcs[t].name] == t
  {
    hide Inv, HoldsSerial, HoldsLoad, LoadOpened, BothOpen, Swapped;
    ThreadFact(s, t);
  }

  /** ReloadTable throws before it has opened anything. */
  lemma GiveUpReload(s: State, t: Thread)
    requires Inv(s) && t in s.pcs && HoldsSerial(s.pcs[t]) && !BothOpen(s.pcs[t])
    ensures Inv(EndReload(s, t, s.pcs[t].name))
  {
    hide Inv, Moves, Quiet;
    var n := s.pcs[t].name;
    ThreadLocks(s, t);
    EndReloadMoves(s, t, n);
    QuietKeeps(s, EndReload(s, t, n), t, n);
  }

  /** A thread that holds no lock returns. */
  lemma Leave(s: State, t: Thread)
    requires Inv(s) && t in s.pcs && !HoldsSerial(s.pcs[t]) && !HoldsLoad(s.pcs[t])
    ensures Inv(Exit(s, t))
  {
    hide Inv, IsLoadable, LiveKey;
    var n := s.pcs[t].name;
    ThreadFact(s, t);
    LockFact(s, n);
    QuietKeeps(s, Exit(s, t), t, n);
  }

  lemma LoadLocked(s: State, z: State, t: Thread)
    requires t in s.pcs && s.pcs[t].at.LoadLock? && s.loadLock == None && z == Goto(s, t, LoadCheck).(loadLock := Some(t))
    ensures Moves(s, z, t, s.pcs[t].name) && Quiet(s, z) && ThreadOk(z, t)
    ensures s.pcs[t].name in s.serial && LockOk(s, s.pcs[t].name) ==> LockOk(z, s.pcs[t].name)
  {
  }

  lemma TakeLoadLock(s: State, t: Thread)
    requires Inv(s) && t in s.pcs && s.pcs[t].at.LoadLock? && s.loadLock == None
    ensures Inv(Goto(s, t, LoadCheck).(loadLock := Some(t)))
  {
    hide Inv, Moves, Quiet, ThreadOk, LockOk;
    LockFact(s, s.pcs[t].name);
    LoadLocked(s, Goto(s, t, LoadCheck).(loadLock := Some(t)), t);
    QuietKeeps(s, Goto(s, t, LoadCheck).(loadLock := Some(t)), t, s.pcs[t].name);
  }

  lemma SerialLocked(s: State, z: State, t: Thread, n: string)
    requires t in s.pcs && s.pcs[t].at.ReloadLock? && s.pcs[t].name == n && n !in s.serial && ThreadOk(s, t)
    requires z == Goto(s, t, ReloadRead).(serial := s.serial[n := t])
    ensures Moves(s, z, t, n) && Quiet(s, z) && ThreadOk(z, t) && LockOk(z, n) && s.loadLock != Some(t)
  {
  }

  lemma TakeSerial(s: State, t: Thread)
    requires Inv(s) && t in s.pcs && s.pcs[t].at.ReloadLock? && s.pcs[t].name !in s.serial
    ensures var n := s.pcs[t].name; Inv(Goto(s, t, ReloadRead).(serial := s.serial[n := t]))
  {
    hide Inv, Moves, Quiet, ThreadOk, LockOk;
    ThreadFact(s, t);
    SerialLocked(s, Goto(s, t, ReloadRead).(serial := s.serial[s.pcs[t].name := t]), t, s.pcs[t].name);
    QuietKeeps(s, Goto(s, t, ReloadRead).(serial := s.serial[s.pcs[t].name := t]), t, s.pcs[t].name);
  }

  lemma Begun(s: State, t: Thread, pc: Pc)
    requires t !in s.pcs && (pc.at.LoadLock? || pc.at.ReloadCheck?) && s.loadLock != Some(t)
    ensures ThreadOk(Place(s, t, pc), t)
    ensures pc.name in s.serial && LockOk(s, pc.name) ==> LockOk(Place(s, t, pc), pc.name)
  {
  }

  lemma BeginKeeps(s: State, t: Thread, pc: Pc)
    requires Inv(s) && t !in s.pcs && (pc.at.LoadLock? || pc.at.ReloadCheck?)
    ensures Inv(Place(s, t, pc))
  {
    hide Inv, Moves, Quiet, ThreadOk, LockOk;
    LockFact(s, pc.name);
    PlaceMoves(s, t, pc, pc.name);
    Begun(s, t, pc);
    QuietKeeps(s, Place(s, t, pc), t, pc.name);
  }

  /** The facts a reload of a table starts each step from. */
  lemma Mine(s: State, t: Thread)
    requires Inv(s) && t in s.pcs && HoldsSerial(s.pcs[t])
    ensures var n := s.pcs[t].name;
            ThreadOk(s, t) && Owner(s, t, n) && LockOk(s, n) && HeadOk(s, n) && !IsReserved(n)
  {
    hide Inv;
    ThreadFact(s, t);
    LockFact(s, s.pcs[t].name);
    HeadFact(s, s.pcs[t].name);
  }

  /** Once a reload has cleared the next key, it is free to be opened. */
  lemma NothingStale(s: State, t: Thread)
    requires Inv(s) && t in s.pcs && s.pcs[t].at.ReloadOpen?
    ensures OtherKey(s.pcs[t].name, s.pcs[t].live) !in s.db
  {
    hide Inv, IsReserved, LiveKey, TableOf;
    Mine(s, t);
    var pc := s.pcs[t];
    KeysOf(pc.name, pc.live);
    if OtherKey(pc.name, pc.live) in s.left { LeftFact(s, OtherKey(pc.name, pc.live)); }
  }

  lemma LoadQuiet(s: State, t: Thread, o: Outcome, consumer: bool)
    requires Inv(s) && t in s.pcs && Next(s, t, o, consumer).Some?
    requires var pc := s.pcs[t];
             || pc.at.LoadLock? || pc.at.LoadCheck? || pc.at.LoadCanonical?
             || (pc.at.LoadOpen? && !o.Works?) || (pc.at.LoadBuild? && !o.Throws? && (o.Fails? || pc.name !in s.db))
    ensures Inv(Next(s, t, o, consumer).value)
  {
    hide Inv, IsLoadable, LiveKey;
    var pc := s.pcs[t];
    ThreadFact(s, t);
    match pc.at
    case LoadLock => TakeLoadLock(s, t);
    case LoadCheck =>
      if !IsLoadable(pc.name) || pc.name in s.heads { GiveUpLoad(s, t); } else { Advance(s, t, pc.(at := LoadOpen)); }
    case LoadOpen => GiveUpLoad(s, t);
    case LoadCanonical => Advance(s, t, pc.(at := if o.Works? then LoadBuild else LoadClose));
    case LoadBuild => Advance(s, t, pc.(at := LoadClose));
  }

  /** Moves between positions that hold no lock. */
  lemma AdvanceFree(s: State, t: Thread, q: Pc)
    requires Inv(s) && t in s.pcs && (s.pcs[t].at.ReloadCheck? || s.pcs[t].at.ReloadFind?)
    requires q.at.LoadLock? || ((q.at.ReloadFind? || q.at.ReloadLock?) && q.name in s.heads)
    ensures Inv(Place(s, t, q))
  {
    hide Inv, ThreadOk;
    ThreadFact(s, t);
    FreeThread(s, t, q);
    Advance(s, t, q);
  }

  lemma FreeThread(s: State, t: Thread, q: Pc)
    requires t in s.pcs && ThreadOk(s, t) && !HoldsLoad(s.pcs[t])
    requires q.at.LoadLock? || ((q.at.ReloadFind? || q.at.ReloadLock?) && q.name in s.heads)
    ensures ThreadOk(Place(s, t, q), t)
  {
  }

  /** Moves inside a reload that leave the same keys open. */
  lemma AdvanceReload(s: State, t: Thread, q: Pc)
    requires Inv(s) && t in s.pcs && HoldsSerial(s.pcs[t]) && SameRole(s.pcs[t], q) && q.name == s.pcs[t].name
    requires q.at.ReloadPrepare? || q.at.ReloadCloseNext? || q.at.ReloadOpen? || q.at.ReloadUndo?
    requires q.name in s.heads && q.live == s.heads[q.name].stagingIsLive
    ensures Inv(Place(s, t, q))
  {
    hide Inv, ThreadOk, SameRole;
    ThreadFact(s, t);
    ReloadThread(s, t, q);
    Advance(s, t, q);
  }

  lemma ReloadThread(s: State, t: Thread, q: Pc)
    requires t in s.pcs && ThreadOk(s, t) && HoldsSerial(s.pcs[t]) && q.name == s.pcs[t].name
    requires q.at.ReloadPrepare? || q.at.ReloadCloseNext? || q.at.ReloadOpen? || q.at.ReloadUndo?
    requires q.name in s.heads && q.live == s.heads[q.name].stagingIsLive
    ensures ThreadOk(Place(s, t, q), t)
  {
  }

  lemma Flag(s: State, t: Thread)
    requires Inv(s) && t in s.pcs && HoldsSerial(s.pcs[t])
    ensures var pc := s.pcs[t];
            && pc.name in s.heads
            && (!pc.at.ReloadRead? && !Swapped(pc) ==> s.heads[pc.name].stagingIsLive == pc.live)
  {
    hide Inv;
    ThreadFact(s, t);
  }

  lemma ReloadQuiet(s: State, t: Thread, o: Outcome, consumer: bool)
    requires Inv(s) && t in s.pcs && Next(s, t, o, consumer).Some?
    requires var pc := s.pcs[t]; pc.at.ReloadCheck? || pc.at.ReloadFind? || pc.at.ReloadLock?
    ensures Inv(Next(s, t, o, consumer).value)
  {
    hide Inv, IsReserved, LiveKey, Leaf;
    var pc := s.pcs[t];
    match pc.at
    case ReloadCheck =>
      if pc.name in s.heads { AdvanceFree(s, t, pc.(at := ReloadFind)); }
      else if IsReserved(pc.name) || !o.Works? { Leave(s, t); }
      else { AdvanceFree(s, t, BeginLoadOf(pc.name)); }
    case ReloadFind => if pc.name in s.heads { AdvanceFree(s, t, pc.(at := ReloadLock)); } else { Leave(s, t); }
    case ReloadLock => TakeSerial(s, t);
  }

  lemma ReloadPrepares(s: State, t: Thread, o: Outcome, consumer: bool)
    requires Inv(s) && t in s.pcs && Next(s, t, o, consumer).Some?
    requires var pc := s.pcs[t]; pc.at.ReloadRead? || pc.at.ReloadPrepare?
    ensures Inv(Next(s, t, o, consumer).value)
  {
    hide Inv, IsReserved, LiveKey;
    Flag(s, t);
    var pc := s.pcs[t];
    match pc.at
    case ReloadRead =>
      if s.heads[pc.name].slot.None? { GiveUpReload(s, t); }
      else { AdvanceReload(s, t, pc.(at := ReloadPrepare, live := s.heads[pc.name].stagingIsLive)); }
    case ReloadPrepare =>
      if o.Works? { AdvanceReload(s, t, pc.(at := ReloadCloseNext)); } else { GiveUpReload(s, t); }
  }

  lemma ReloadFails(s: State, t: Thread, o: Outcome, consumer: bool)
    requires Inv(s) && t in s.pcs && Next(s, t, o, consumer).Some?
    requires var pc := s.pcs[t];
             || (pc.at.ReloadCloseNext? && !o.Works?) || (pc.at.ReloadOpen? && !o.Works?)
             || (pc.at.ReloadBuild? && !o.Throws? && (o.Fails? || OtherKey(pc.name, pc.live) !in s.db))
    ensures Inv(Next(s, t, o, consumer).value)
  {
    hide Inv, IsReserved, LiveKey;
    Flag(s, t);
    var pc := s.pcs[t];
    match pc.at
    case ReloadCloseNext => GiveUpReload(s, t);
    case ReloadOpen => GiveUpReload(s, t);
    case ReloadBuild => AdvanceReload(s, t, pc.(at := ReloadUndo));
  }
}
