/** What becomes of a call: it publishes its slot if everything it calls works, and nothing if something fails. */
module RegistryOutcomes {
  import opened Wrappers
  import opened Registry
  import opened RegistryInv
  import opened RegistrySteps
  import opened RegistryOpens
  import opened RegistrySafe

  /** The phases in which a call can still fail: its next foreign call decides. */
  predicate CanFail(at: Phase) {
    || at.LoadOpen? || at.LoadCanonical? || at.LoadBuild?
    || at.ReloadPrepare? || at.ReloadCloseNext? || at.ReloadOpen? || at.ReloadBuild?
  }

  /** The call only cleans up any more. */
  predicate GivesUp(s: State, t: Thread) {
    t in s.pcs ==> s.pcs[t].at.LoadClose? || s.pcs[t].at.ReloadUndo?
  }

  lemma LoadFails(s: State, t: Thread, o: Outcome, consumer: bool)
    requires t in s.pcs && (s.pcs[t].at.LoadOpen? || s.pcs[t].at.LoadCanonical? || s.pcs[t].at.LoadBuild?) && !o.Works?
    ensures Next(s, t, o, consumer).Some? && GivesUp(Next(s, t, o, consumer).value, t)
    ensures Next(s, t, o, consumer).value.heads == s.heads
  {
    hide IsLoadable, IsReserved, LiveKey, Leaf, OnlyReference;
  }

  lemma ReloadFails(s: State, t: Thread, o: Outcome, consumer: bool)
    requires t in s.pcs && !o.Works?
    requires var at := s.pcs[t].at; at.ReloadPrepare? || at.ReloadCloseNext? || at.ReloadOpen? || at.ReloadBuild?
    ensures Next(s, t, o, consumer).Some? && GivesUp(Next(s, t, o, consumer).value, t)
    ensures Next(s, t, o, consumer).value.heads == s.heads
  {
    hide IsLoadable, IsReserved, LiveKey, Leaf, OnlyReference;
  }

  lemma GivenUp(s: State, t: Thread, o: Outcome, consumer: bool)
    requires t in s.pcs && GivesUp(s, t)
    ensures Next(s, t, o, consumer).Some? && t !in Next(s, t, o, consumer).value.pcs
    ensures Next(s, t, o, consumer).value.heads == s.heads
  {
    hide IsLoadable, IsReserved, LiveKey, Leaf, OnlyReference;
  }

  /** Once a foreign call has failed or thrown, the call that made it changes no table any more, but at most
      closes what it has opened, and ends. */
  lemma FailedCallGivesUp(s: State, t: Thread, o: Outcome, consumer: bool)
    requires t in s.pcs && CanFail(s.pcs[t].at) && !o.Works?
    ensures Next(s, t, o, consumer).Some?
    ensures var z := Next(s, t, o, consumer).value;
            && z.heads == s.heads && GivesUp(z, t)
            && forall p, c :: t in z.pcs ==>
                 Next(z, t, p, c).Some? && t !in Next(z, t, p, c).value.pcs && Next(z, t, p, c).value.heads == s.heads
  {
    hide Next, GivesUp;
    if s.pcs[t].at.LoadOpen? || s.pcs[t].at.LoadCanonical? || s.pcs[t].at.LoadBuild? {
      LoadFails(s, t, o, consumer);
    } else {
      ReloadFails(s, t, o, consumer);
    }
    var z := Next(s, t, o, consumer).value;
    forall p, c | t in z.pcs
      ensures Next(z, t, p, c).Some? && t !in Next(z, t, p, c).value.pcs && Next(z, t, p, c).value.heads == s.heads
    {
      GivenUp(z, t, p, c);
    }
  }

  /** The phase after a foreign call that works, on the way to publishing a slot. */
  function Following(at: Phase): Phase
    requires CanFail(at)
  {
    match at
    case LoadOpen => LoadCanonical
    case LoadCanonical => LoadBuild
    case LoadBuild => LoadRegister
    case ReloadPrepare => ReloadCloseNext
    case ReloadCloseNext => ReloadOpen
    case ReloadOpen => ReloadBuild
    case ReloadBuild => ReloadSwap
  }

  predicate GoesOn(s: State, z: State, t: Thread)
    requires t in s.pcs && CanFail(s.pcs[t].at)
  {
    t in z.pcs && z.pcs[t] == s.pcs[t].(at := Following(s.pcs[t].at), slot := z.pcs[t].slot) && z.heads == s.heads
  }

  predicate Publishes(s: State, z: State, t: Thread)
    requires t in s.pcs
  {
    var pc := s.pcs[t];
    && pc.name in z.heads && z.heads[pc.name] == Head(Some(pc.slot), pc.at.ReloadSwap? && !pc.live)
    && if pc.at.ReloadSwap? then t in z.pcs && z.pcs[t].at.ReloadStop? else t !in z.pcs
  }

  lemma LoadGoesOn(s: State, t: Thread, consumer: bool)
    requires Inv(s) && t in s.pcs && (s.pcs[t].at.LoadOpen? || s.pcs[t].at.LoadCanonical? || s.pcs[t].at.LoadBuild?)
    ensures Next(s, t, Works, consumer).Some? && GoesOn(s, Next(s, t, Works, consumer).value, t)
  {
    hide Inv, IsLoadable, IsReserved, LiveKey, TableOf;
    LoadAlone(s, t);
  }

  lemma ReloadGoesOn(s: State, t: Thread, consumer: bool)
    requires Inv(s) && t in s.pcs
    requires var at := s.pcs[t].at; at.ReloadPrepare? || at.ReloadCloseNext? || at.ReloadOpen? || at.ReloadBuild?
    ensures Next(s, t, Works, consumer).Some? && GoesOn(s, Next(s, t, Works, consumer).value, t)
  {
    hide Inv, IsLoadable, IsReserved, LiveKey, TableOf;
    ReloadAlone(s, t);
  }

  lemma ReadyPublishes(s: State, t: Thread, o: Outcome, consumer: bool)
    requires Inv(s) && t in s.pcs && (s.pcs[t].at.LoadRegister? || s.pcs[t].at.ReloadSwap?)
    ensures Next(s, t, o, consumer).Some? && Publishes(s, Next(s, t, o, consumer).value, t)
  {
    hide Inv, IsLoadable, IsReserved, LiveKey, TableOf;
    if s.pcs[t].at.LoadRegister? { LoadAlone(s, t); } else { ReloadAlone(s, t); }
  }

  /** And as long as foreign calls work it goes on, phase by phase, until it publishes the slot it has built. */
  lemma WorkingCallGoesOn(s: State, t: Thread, consumer: bool)
    requires Inv(s) && t in s.pcs && (CanFail(s.pcs[t].at) || s.pcs[t].at.LoadRegister? || s.pcs[t].at.ReloadSwap?)
    ensures Next(s, t, Works, consumer).Some?
    ensures var z := Next(s, t, Works, consumer).value;
            if CanFail(s.pcs[t].at) then GoesOn(s, z, t) else Publishes(s, z, t)
  {
    hide Inv, Next, GoesOn, Publishes;
    match s.pcs[t].at
    case LoadOpen | LoadCanonical | LoadBuild => LoadGoesOn(s, t, consumer);
    case ReloadPrepare | ReloadCloseNext | ReloadOpen | ReloadBuild => ReloadGoesOn(s, t, consumer);
    case _ => ReadyPublishes(s, t, Works, consumer);
  }

  /** A reload of a table that is not registered becomes a load if there is a directory of that name which is not
      a staging one; otherwise it ends. */
  lemma UnknownTable(s: State, t: Thread, o: Outcome, consumer: bool)
    requires t in s.pcs && s.pcs[t].at.ReloadCheck? && s.pcs[t].name !in s.heads
    ensures Next(s, t, o, consumer).Some? && Next(s, t, o, consumer).value.heads == s.heads
    ensures var n, z := s.pcs[t].name, Next(s, t, o, consumer).value;
            if o.Works? && !(|n| >= 7 && n[|n| - 7..] == "~reload") then
              t in z.pcs && z.pcs[t].at.LoadLock? && z.pcs[t].name == Leaf(n) && z.pcs[t].asked == n
            else t !in z.pcs
  {
    hide Leaf, IsReserved, IsLoadable, LiveKey, OnlyReference;
    StagingNames(s.pcs[t].name);
  }

  lemma StagingNames(n: string)
    ensures IsReserved(n) <==> |n| >= 7 && n[|n| - 7..] == "~reload"
  {
  }
}
