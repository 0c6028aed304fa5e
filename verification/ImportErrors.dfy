/** An import reports an error exactly if one of its calls has failed; and it keeps to its two sizes. */
module ImportErrors {
  import opened Wrappers
  import opened Import
  import opened ImportInv
  import opened ImportRuns
  import opened ImportEnds
  import opened ImportQueue

  /** A foreign call fails in this step: opening, reading or validating in a worker, or writing. */
  predicate Fails(s: State, e: Event) {
    match e
    case Work(p, ok, _) =>
      !ok && p < |s.producers| && (s.producers[p].at.Open? || s.producers[p].at.Read? || s.producers[p].at.Validate?)
    case Writing(ok, _) => !ok && s.writer.at.Write?
    case _ => false
  }

  predicate SomethingFails(s: State, events: seq<Event>)
    decreases |events|
  {
    events != [] && Apply(s, events[0]).Some? && (Fails(s, events[0]) || SomethingFails(Apply(s, events[0]).value, events[1..]))
  }

  /** A worker is about to set its error. */
  predicate Setting(s: State) {
    exists p :: 0 <= p < |s.producers| && s.producers[p].at.SetError?
  }

  predicate Noticed(s: State) {
    s.Failed() || Setting(s) || s.writer.at.WriteFailed?
  }

  /** What a step of worker `p` does to that: others are at most woken up. */
  predicate Notices(s: State, z: State, p: nat, fails: bool)
    requires p < |s.producers|
  {
    && |z.producers| == |s.producers|
    && (forall q :: 0 <= q < |s.producers| && q != p ==> (z.producers[q].at.SetError? <==> s.producers[q].at.SetError?))
    && (z.writer.at.WriteFailed? <==> s.writer.at.WriteFailed?)
    && (z.producers[p].at.SetError? ==> fails)
    && (z.Failed() || z.producers[p].at.SetError? <==> s.Failed() || s.producers[p].at.SetError? || fails)
  }

  lemma MoveNotices(s: State, p: nat, ok: bool, message: string)
    requires p < |s.producers| && Produce(s, p, ok, message).Some?
    requires var at := s.producers[p].at; at.Check? || at.Open? || at.ReadCheck? || at.Read? || at.Validated? || at.AfterRead?
    ensures Notices(s, Produce(s, p, ok, message).value, p, Fails(s, Work(p, ok, message)))
  {
  }

  lemma ClaimNotices(s: State, p: nat)
    requires p < |s.producers| && s.producers[p].at.Claim?
    ensures Notices(s, ClaimFile(s, p), p, false)
  {
  }

  lemma PushNotices(s: State, p: nat)
    requires p < |s.producers| && s.producers[p].at.PushReady?
    ensures Notices(s, TryPush(s, p), p, false)
  {
  }

  lemma ErrorNotices(s: State, p: nat, message: string)
    requires p < |s.producers|
    ensures s.producers[p].at.Validate? ==> Notices(s, Goto(SetErr(s, message), p, Validated), p, true)
    ensures s.producers[p].at.Validate? ==> Notices(s, Goto(s, p, Validated), p, false)
    ensures s.producers[p].at.SetError? ==> Notices(s, Goto(SetErr(s, message), p, Aborting), p, false)
  {
  }

  lemma AbortNotices(s: State, p: nat)
    requires p < |s.producers| && s.producers[p].at.Aborting?
    ensures |Abort(s).producers| == |s.producers| && Notices(s, Goto(Abort(s), p, Done), p, false)
  {
  }

  lemma WorkNotices(s: State, p: nat, ok: bool, message: string)
    requires p < |s.producers| && Produce(s, p, ok, message).Some?
    ensures Noticed(Produce(s, p, ok, message).value) <==> Noticed(s) || Fails(s, Work(p, ok, message))
  {
    hide SetErr, Abort, TryPush, ClaimFile, Notices;
    match s.producers[p].at {
      case Claim => ClaimNotices(s, p);
      case Validate => ErrorNotices(s, p, message);
      case SetError => ErrorNotices(s, p, message);
      case PushReady => PushNotices(s, p);
      case Aborting => AbortNotices(s, p);
      case _ => MoveNotices(s, p, ok, message);
    }
    hide Produce, Fails, Noticed;
    AllNotice(s, Produce(s, p, ok, message).value, p, Fails(s, Work(p, ok, message)));
  }

  lemma AllNotice(s: State, z: State, p: nat, fails: bool)
    requires p < |s.producers| && Notices(s, z, p, fails)
    ensures Noticed(z) <==> Noticed(s) || fails
  {
    if Setting(s) {
      var q :| 0 <= q < |s.producers| && s.producers[q].at.SetError?;
      assert q != p ==> z.producers[q].at.SetError?;
    }
    if Setting(z) {
      var q :| 0 <= q < |z.producers| && z.producers[q].at.SetError?;
      assert q != p ==> s.producers[q].at.SetError?;
    }
    assert z.producers[p].at.SetError? ==> Setting(z);
    assert s.producers[p].at.SetError? ==> Setting(s);
  }

  lemma WritingNotices(s: State, ok: bool, message: string)
    requires WriterStep(s, ok, message).Some?
    ensures Noticed(WriterStep(s, ok, message).value) <==> Noticed(s) || Fails(s, Writing(ok, message))
  {
    SettingStays(s, ok, message);
    hide Setting, NotifyNotFull, NotifyNotEmpty;
  }

  lemma SettingStays(s: State, ok: bool, message: string)
    requires WriterStep(s, ok, message).Some?
    ensures Setting(WriterStep(s, ok, message).value) <==> Setting(s)
  {
    var z := WriterStep(s, ok, message).value;
    assert |z.producers| == |s.producers|;
    assert forall q :: 0 <= q < |s.producers| ==> (z.producers[q].at.SetError? <==> s.producers[q].at.SetError?);
  }

  /** Aborting and closing the queue only wake threads up. */
  lemma WakingNotices(s: State)
    ensures Setting(Abort(s)) <==> Setting(s)
    ensures Setting(PushEos(s)) <==> Setting(s)
  {
    assert |Abort(s).producers| == |s.producers| && PushEos(s).producers == s.producers;
    assert forall q :: 0 <= q < |s.producers| ==> (Abort(s).producers[q].at.SetError? <==> s.producers[q].at.SetError?);
  }

  lemma MainNotices(s: State)
    requires MainStep(s).Some?
    ensures Noticed(MainStep(s).value) <==> Noticed(s)
  {
    WakingNotices(s);
    var z := MainStep(s).value;
    assert s.main.MainAborting? ==> z == Abort(s).(main := JoiningWriter);
    SameSetting(if s.main.MainAborting? then Abort(s) else if s.main.PushingEos? then PushEos(s) else s, z);
    hide Setting, NotifyNotFull;
  }

  lemma SameSetting(s: State, z: State)
    requires z.producers == s.producers
    ensures Setting(z) <==> Setting(s)
  {
  }

  lemma EventNotices(s: State, e: Event)
    requires Apply(s, e).Some?
    ensures Noticed(Apply(s, e).value) <==> Noticed(s) || Fails(s, e)
  {
    hide Produce, WriterStep, MainStep;
    match e
    case Work(p, ok, message) => WorkNotices(s, p, ok, message);
    case Writing(ok, message) => WritingNotices(s, ok, message);
    case Going => MainNotices(s);
    case SpuriousPush(p) =>
      var z := Apply(s, e).value;
      assert forall q :: 0 <= q < |s.producers| ==> (z.producers[q].at.SetError? <==> s.producers[q].at.SetError?);
    case SpuriousPop =>
  }

  lemma {:induction false} RunNotices(s: State, events: seq<Event>)
    requires Run(s, events).Some?
    ensures Noticed(Run(s, events).value) <==> Noticed(s) || SomethingFails(s, events)
    decreases |events|
  {
    hide Apply, Noticed, Fails;
    if events != [] {
      EventNotices(s, events[0]);
      RunNotices(Apply(s, events[0]).value, events[1..]);
    }
  }

  /** An import ends with an error if and only if opening, reading or validating a file, or writing a batch,
      has failed in it. */
  lemma ErrorsAreReported(files: seq<nat>, capacity: nat, workers: nat, events: seq<Event>)
    requires var s := Run(Init(files, capacity, workers), events); s.Some? && s.value.main.Finished?
    ensures Run(Init(files, capacity, workers), events).value.Failed() <==> SomethingFails(Init(files, capacity, workers), events)
  {
    hide Inv, Run, SomethingFails;
    InitOk(files, capacity, workers);
    RunKeeps(Init(files, capacity, workers), events);
    RunNotices(Init(files, capacity, workers), events);
    QueueFact(Run(Init(files, capacity, workers), events).value);
  }

  // ---- What a worker does after its call has failed ----

  /** The worker is on its way out. */
  predicate Leaving(s: State, p: nat)
    requires p < |s.producers|
  {
    var at := s.producers[p].at;
    at.SetError? || at.Aborting? || at.Done? || (at.Validated? && s.Failed())
  }

  lemma FailureLeaves(s: State, p: nat, message: string)
    requires Fails(s, Work(p, false, message))
    ensures Apply(s, Work(p, false, message)).Some? && p < |Apply(s, Work(p, false, message)).value.producers|
    ensures Leaving(Apply(s, Work(p, false, message)).value, p)
  {
  }

  lemma OwnLeaves(s: State, p: nat, ok: bool, message: string)
    requires p < |s.producers| && Leaving(s, p) && Produce(s, p, ok, message).Some?
    ensures |Produce(s, p, ok, message).value.producers| == |s.producers| && Leaving(Produce(s, p, ok, message).value, p)
  {
  }

  /** Other threads leave it where it is, since it is not in the wait set. */
  predicate LeftAlone(s: State, z: State, p: nat)
    requires p < |s.producers|
  {
    |z.producers| == |s.producers| && (z.producers[p].at == s.producers[p].at || s.producers[p].at.PushWaiting?) && (s.Failed() ==> z.Failed())
  }

  lemma OtherPushes(s: State, q: nat, p: nat)
    requires p < |s.producers| && q < |s.producers| && q != p
    ensures LeftAlone(s, TryPush(s, q), p) && LeftAlone(s, Abort(s), p) && LeftAlone(s, Goto(Abort(s), q, Done), p)
  {
  }

  lemma OtherClaims(s: State, q: nat, at: At, message: string, p: nat)
    requires p < |s.producers| && q < |s.producers| && q != p
    ensures LeftAlone(s, ClaimFile(s, q), p) && LeftAlone(s, Goto(s, q, at), p) && LeftAlone(s, Goto(SetErr(s, message), q, at), p)
  {
  }

  lemma OtherWork(s: State, q: nat, ok: bool, message: string, p: nat)
    requires p < |s.producers| && q < |s.producers| && q != p && Produce(s, q, ok, message).Some?
    ensures LeftAlone(s, Produce(s, q, ok, message).value, p)
  {
    OtherPushes(s, q, p);
    forall at
      ensures LeftAlone(s, Goto(s, q, at), p) && LeftAlone(s, Goto(SetErr(s, message), q, at), p) && LeftAlone(s, ClaimFile(s, q), p)
    {
      OtherClaims(s, q, at, message, p);
    }
    hide TryPush, Abort, Goto, SetErr, ClaimFile, LeftAlone;
  }

  lemma OtherSteps(s: State, e: Event, p: nat)
    requires p < |s.producers| && Apply(s, e).Some? && !e.Work? && (e.SpuriousPush? ==> e.p != p || s.producers[p].at.PushWaiting?)
    ensures LeftAlone(s, Apply(s, e).value, p)
  {
  }

  lemma StillLeaving(s: State, e: Event, p: nat)
    requires p < |s.producers| && Leaving(s, p) && Apply(s, e).Some?
    ensures p < |Apply(s, e).value.producers| && Leaving(Apply(s, e).value, p)
    ensures e.Work? && e.p == p ==> Queues(s, e) == []
  {
    hide Produce;
    if e.Work? && e.p == p {
      OwnLeaves(s, p, e.ok, e.message);
    } else if e.Work? {
      OtherWork(s, e.p, e.ok, e.message, p);
    } else {
      OtherSteps(s, e, p);
    }
  }

  /** What worker `p` queues in a run. */
  predicate QueuesNothing(s: State, events: seq<Event>, p: nat)
    decreases |events|
  {
    events != [] && Apply(s, events[0]).Some? ==>
      && (events[0].Work? && events[0].p == p ==> Queues(s, events[0]) == [])
      && QueuesNothing(Apply(s, events[0]).value, events[1..], p)
  }

  lemma {:induction false} LeavingQueuesNothing(s: State, events: seq<Event>, p: nat)
    requires p < |s.producers| && Leaving(s, p)
    ensures QueuesNothing(s, events, p)
    decreases |events|
  {
    hide Apply, Leaving, Queues;
    if events != [] && Apply(s, events[0]).Some? {
      StillLeaving(s, events[0], p);
      LeavingQueuesNothing(Apply(s, events[0]).value, events[1..], p);
    }
  }

  /** A worker whose call has failed queues nothing from then on, not even the batch it has just read. */
  lemma FailedQueuesNothing(s: State, p: nat, message: string, events: seq<Event>)
    requires Fails(s, Work(p, false, message))
    ensures QueuesNothing(s, [Work(p, false, message)] + events, p)
  {
    FailureLeaves(s, p, message);
    hide Apply, Leaving;
    var all := [Work(p, false, message)] + events;
    assert all[1..] == events;
    LeavingQueuesNothing(Apply(s, all[0]).value, events, p);
  }

  // ---- The two sizes ----

  lemma {:induction false} SameSizes(s: State, events: seq<Event>)
    requires Run(s, events).Some?
    ensures Run(s, events).value.cap == s.cap && |Run(s, events).value.producers| == |s.producers|
    decreases |events|
  {
    hide Apply;
    if events != [] {
      SameFilesStep(s, events[0]);
      SameSizes(Apply(s, events[0]).value, events[1..]);
    }
  }

  /** There are as many workers as asked for, and never more batches queued than asked for, but one of each at
      least; and a worker only waits when the queue is full. */
  lemma SizesKept(files: seq<nat>, capacity: nat, workers: nat, events: seq<Event>)
    requires Run(Init(files, capacity, workers), events).Some?
    ensures var s := Run(Init(files, capacity, workers), events).value;
            && |s.producers| == (if workers == 0 then 1 else workers)
            && |s.q| <= (if capacity == 0 then 1 else capacity)
            && forall p :: 0 <= p < |s.producers| && s.producers[p].at.PushWaiting? ==> |s.q| == if capacity == 0 then 1 else capacity
  {
    hide Inv, Run;
    InitOk(files, capacity, workers);
    RunKeeps(Init(files, capacity, workers), events);
    SameSizes(Init(files, capacity, workers), events);
    var s := Run(Init(files, capacity, workers), events).value;
    QueueFact(s);
    forall p | 0 <= p < |s.producers| && s.producers[p].at.PushWaiting?
      ensures |s.q| >= s.cap
    {
      ProducerFact(s, p);
    }
  }
}
