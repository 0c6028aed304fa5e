/** The import over whole runs: nothing lost, nothing twice, and always an end. */
module ImportRuns {
  import opened Wrappers
  import opened Import
  import opened ImportInv

  /** Simple moves of a worker. */
  lemma WorkerMoves(s: State, p: nat, ok: bool, message: string)
    requires Inv(s) && p < |s.producers| && Produce(s, p, ok, message).Some?
    requires var at := s.producers[p].at; at.Check? || at.Open? || at.ReadCheck? || at.Read? || at.Validated? || at.AfterRead?
    ensures Inv(Produce(s, p, ok, message).value)
  {
    hide Inv;
    ProducerFact(s, p);
    QueueFact(s);
    var z := Produce(s, p, ok, message).value;
    assert z == Place(s, p, z.producers[p]);
    DoneWhenClaimed(s, p);
    PlaceKeeps(s, p, z.producers[p]);
  }

  /** A worker looks for another file unless an error is set. */
  lemma DoneWhenClaimed(s: State, p: nat)
    requires p < |s.producers| && ProducerOk(s, p)
    ensures (s.producers[p].at.Check? || s.producers[p].at.AfterRead?) && s.Failed() ==> ProducerOk(Goto(s, p, Done), p)
  {
  }

  lemma WorkerEffects(s: State, p: nat, ok: bool, message: string)
    requires Inv(s) && p < |s.producers| && Produce(s, p, ok, message).Some?
    requires var at := s.producers[p].at; at.Claim? || at.Validate? || at.PushReady? || at.SetError? || at.Aborting?
    ensures Inv(Produce(s, p, ok, message).value)
  {
    hide Inv, NotifyNotEmpty, NotifyNotFull, Abort, SetErr;
    ProducerFact(s, p);
    var producer := s.producers[p];
    match producer.at
    case Claim => ClaimKeeps(s, p);
    case Validate => SetsAndMoves(s, p, if ok then s else SetErr(s, message), message, Validated);
    case SetError => SetsAndMoves(s, p, SetErr(s, message), message, Aborting);
    case Aborting => AbortsAndEnds(s, p);
    case PushReady => Pushes(s, p);
  }

  lemma SetsAndMoves(s: State, p: nat, t: State, message: string, at: At)
    requires Inv(s) && p < |s.producers| && (t == s || t == SetErr(s, message))
    requires (s.producers[p].at.Validate? && at.Validated?) || (s.producers[p].at.SetError? && at.Aborting? && t == SetErr(s, message))
    ensures Inv(Goto(t, p, at))
  {
    hide Inv;
    ErrKeeps(s, message);
    ProducerFact(t, p);
    PlaceKeeps(t, p, t.producers[p].(at := at));
  }

  lemma AbortsAndEnds(s: State, p: nat)
    requires Inv(s) && p < |s.producers| && s.producers[p].at.Aborting?
    ensures Inv(Goto(Abort(s), p, Done))
  {
    hide Inv;
    ProducerFact(s, p);
    AbortKeeps(s);
    ProducerFact(Abort(s), p);
    PlaceKeeps(Abort(s), p, Abort(s).producers[p].(at := Done));
  }

  lemma Pushes(s: State, p: nat)
    requires Inv(s) && p < |s.producers| && s.producers[p].at.PushReady?
    ensures Inv(TryPush(s, p))
  {
    hide Inv, NotifyNotEmpty;
    ProducerFact(s, p);
    QueueFact(s);
    var producer := s.producers[p];
    if s.aborted {
      Dropped(s, p);
    } else if |s.q| < s.cap {
      PushKeeps(s, p);
    } else {
      PlaceKeeps(s, p, producer.(at := PushWaiting));
    }
  }

  /** After an abort a push drops its batch; the run has failed. */
  lemma Dropped(s: State, p: nat)
    requires Inv(s) && p < |s.producers| && s.producers[p].at.PushReady? && s.aborted
    ensures var producer := s.producers[p];
            Inv(Place(s, p, producer.(at := ReadCheck, next := producer.next + 1)))
  {
    hide Ledger;
    var z := Place(s, p, s.producers[p].(at := ReadCheck, next := s.producers[p].next + 1));
    forall r | 0 <= r < |z.producers|
      ensures ProducerOk(z, r)
    {
      assert ProducerOk(s, r);
    }
  }

  lemma WritingKeeps(s: State, ok: bool, message: string)
    requires Inv(s) && WriterStep(s, ok, message).Some?
    ensures Inv(WriterStep(s, ok, message).value)
  {
    hide Inv, TryPop, Abort, SetErr;
    QueueFact(s);
    var z := WriterStep(s, ok, message).value;
    match s.writer.at
    case PopReady => PopKeeps(s);
    case Write =>
      assert s.written + s.writer.hand + s.q == s.written + s.writer.hand + [] + s.q;
      WriterKeeps(s, z);
    case WriteFailed =>
      ErrKeeps(s, message);
      ErrOnly(s, message);
      WriterKeeps(SetErr(s, message), z);
    case WriterAborting =>
      AbortKeeps(s);
      QueueFact(Abort(s));
      Aborted(s);
      WriterKeeps(Abort(s), z);
  }

  lemma ErrOnly(s: State, message: string)
    requires WriterOk(s)
    ensures SetErr(s, message) == s.(error := SetErr(s, message).error) && SetErr(s, message).Failed()
  {
  }

  lemma Aborted(s: State)
    requires s.Failed()
    ensures Abort(s).eos && Abort(s).aborted && Abort(s).Failed()
    ensures Abort(s).writer.at == if s.writer.at.PopWaiting? then PopReady else s.writer.at
  {
  }

  lemma GoingKeeps(s: State)
    requires Inv(s) && MainStep(s).Some?
    ensures Inv(MainStep(s).value)
  {
    hide Inv, Abort, PushEos;
    QueueFact(s);
    match s.main
    case Joining(i) => MainKeeps(s, if i >= |s.producers| then Deciding else Joining(i + 1));
    case Deciding => MainKeeps(s, if s.Failed() then MainAborting else PushingEos);
    case PushingEos => EosKeeps(s);
    case MainAborting => MainAborts(s);
    case JoiningWriter => MainKeeps(s, Finished);
  }

  lemma EventKeeps(s: State, e: Event)
    requires Inv(s) && Apply(s, e).Some?
    ensures Inv(Apply(s, e).value)
  {
    hide Inv, Produce, WriterStep, MainStep;
    match e
    case Work(p, ok, message) => WorkKeeps(s, p, ok, message);
    case Writing(ok, message) => WritingKeeps(s, ok, message);
    case Going => GoingKeeps(s);
    case SpuriousPush(p) =>
      ProducerFact(s, p);
      PlaceKeeps(s, p, s.producers[p].(at := PushReady));
    case SpuriousPop =>
      QueueFact(s);
      WriterKeeps(s, Apply(s, e).value);
  }

  lemma WorkKeeps(s: State, p: nat, ok: bool, message: string)
    requires Inv(s) && p < |s.producers| && Produce(s, p, ok, message).Some?
    ensures Inv(Produce(s, p, ok, message).value)
  {
    hide Inv, TryPush, ClaimFile, Abort, SetErr;
    var at := s.producers[p].at;
    if at.Claim? || at.Validate? || at.PushReady? || at.SetError? || at.Aborting? {
      WorkerEffects(s, p, ok, message);
    } else {
      WorkerMoves(s, p, ok, message);
    }
  }

  lemma {:induction false} RunKeeps(s: State, events: seq<Event>)
    requires Inv(s) && Run(s, events).Some?
    ensures Inv(Run(s, events).value)
    decreases |events|
  {
    hide Inv, Apply;
    if events != [] {
      EventKeeps(s, events[0]);
      RunKeeps(Apply(s, events[0]).value, events[1..]);
    }
  }

  lemma InitOk(files: seq<nat>, capacity: nat, workers: nat)
    ensures Inv(Init(files, capacity, workers))
  {
    var s := Init(files, capacity, workers);
    assert Flow(s) == [];
  }
}
