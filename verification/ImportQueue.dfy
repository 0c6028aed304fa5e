/** What the queue accepts is written, whatever error the workers run into. */
module ImportQueue {
  import opened Wrappers
  import opened Import
  import opened ImportInv
  import opened ImportRuns

  /** The batch a step puts into the queue. */
  function Queues(s: State, e: Event): seq<Item> {
    if e.Work? && e.p < |s.producers| && s.producers[e.p].at.PushReady? && !s.aborted && |s.q| < s.cap
    then [Item(s.producers[e.p].file, s.producers[e.p].next)] else []
  }

  /** All the batches a run puts into it, in order. */
  function Queued(s: State, events: seq<Event>): seq<Item>
    decreases |events|
  {
    if events == [] || Apply(s, events[0]).None? then []
    else Queues(s, events[0]) + Queued(Apply(s, events[0]).value, events[1..])
  }

  predicate WritesWork(events: seq<Event>) {
    forall e :: e in events && e.Writing? ==> e.ok
  }

  /** The writer has met no error of its own, and is not done before the queue is empty. */
  predicate WriterFine(s: State) {
    !s.writer.at.WriteFailed? && !s.writer.at.WriterAborting? && (s.writer.at.WriterDone? ==> s.q == [])
  }

  predicate Flows(s: State, z: State, more: seq<Item>) {
    WriterFine(z) && Flow(z) == Flow(s) + more
  }

  lemma PushFlows(s: State, p: nat)
    requires Inv(s) && WriterFine(s) && p < |s.producers| && s.producers[p].at.PushReady?
    ensures Flows(s, TryPush(s, p), Queues(s, Work(p, true, "")))
  {
    hide Inv;
    QueueFact(s);
    var item := Item(s.producers[p].file, s.producers[p].next);
    if s.aborted || |s.q| >= s.cap {
      assert Flow(s) + [] == Flow(s);
    } else {
      assert s.written + s.writer.hand + (s.q + [item]) == Flow(s) + [item];
      if s.writer.at.WriterDone? { NotDone(s, p); }
    }
  }

  /** The writer only leaves an open queue once all workers have. */
  lemma NotDone(s: State, p: nat)
    requires Inv(s) && p < |s.producers| && !s.producers[p].at.Done? && !s.aborted
    ensures !s.writer.at.WriterDone?
  {
    hide Inv;
    QueueFact(s);
  }

  lemma MovesFlow(s: State, z: State)
    requires WriterFine(s) && z.q == s.q && z.written == s.written && z.writer.hand == s.writer.hand
    requires z.writer.at == s.writer.at || z.writer.at.PopReady?
    ensures Flows(s, z, [])
  {
    assert Flow(s) + [] == Flow(s);
  }

  lemma WorkFlows(s: State, p: nat, ok: bool, message: string)
    requires Inv(s) && WriterFine(s) && p < |s.producers| && Produce(s, p, ok, message).Some?
    ensures Flows(s, Produce(s, p, ok, message).value, Queues(s, Work(p, ok, message)))
  {
    hide Inv, Flows, WriterFine, Flow;
    if s.producers[p].at.PushReady? {
      hide TryPush;
      PushFlows(s, p);
    } else if s.producers[p].at.Aborting? {
      AbortFlows(s, p);
    } else {
      hide Abort;
      MovesFlow(s, Produce(s, p, ok, message).value);
    }
  }

  lemma AbortFlows(s: State, p: nat)
    requires WriterFine(s) && p < |s.producers|
    ensures |Abort(s).producers| == |s.producers| && Flows(s, Goto(Abort(s), p, Done), [])
  {
    hide Flows, WriterFine, Flow;
    assert |Abort(s).producers| == |s.producers|;
    MovesFlow(s, Goto(Abort(s), p, Done));
  }

  lemma WritingFlows(s: State, message: string)
    requires Inv(s) && WriterFine(s) && WriterStep(s, true, message).Some?
    ensures Flows(s, WriterStep(s, true, message).value, [])
  {
    hide Inv, NotifyNotFull;
    QueueFact(s);
    var z := WriterStep(s, true, message).value;
    assert Flow(s) + [] == Flow(s);
    if s.writer.at.Write? {
      assert s.written + s.writer.hand + s.q == s.written + s.writer.hand + [] + s.q;
    } else if s.q != [] {
      PopFlows(s);
    }
  }

  lemma PopFlows(s: State)
    requires s.q != [] && s.writer.hand == []
    ensures TryPop(s).writer.at.Write? && Flow(TryPop(s)) == Flow(s)
  {
    assert s.q == [s.q[0]] + s.q[1..];
    assert s.written + [] + ([s.q[0]] + s.q[1..]) == s.written + [s.q[0]] + s.q[1..];
  }

  lemma StepFlows(s: State, e: Event)
    requires Inv(s) && WriterFine(s) && Apply(s, e).Some? && (e.Writing? ==> e.ok)
    ensures Flows(s, Apply(s, e).value, Queues(s, e))
  {
    hide Inv, Flows, Produce, WriterStep, Flow;
    QueueFact(s);
    match e
    case Work(p, ok, message) => WorkFlows(s, p, ok, message);
    case Writing(_, message) => WritingFlows(s, message);
    case _ => MovesFlow(s, Apply(s, e).value);
  }

  lemma {:induction false} RunFlows(s: State, events: seq<Event>)
    requires Inv(s) && WriterFine(s) && Run(s, events).Some? && WritesWork(events)
    ensures Flows(s, Run(s, events).value, Queued(s, events)) && Inv(Run(s, events).value)
    decreases |events|
  {
    hide Inv, Apply, Queues, Flow;
    if events == [] {
      assert Flow(s) + [] == Flow(s);
    } else {
      var z := Apply(s, events[0]).value;
      assert events[0] in events && forall e :: e in events[1..] ==> e in events;
      StepFlows(s, events[0]);
      EventKeeps(s, events[0]);
      RunFlows(z, events[1..]);
      assert Flow(s) + Queues(s, events[0]) + Queued(z, events[1..]) == Flow(s) + (Queues(s, events[0]) + Queued(z, events[1..]));
    }
  }

  /** Whatever errors the workers meet, an import whose writes work has in the end written exactly what was
      queued, in the order it was queued: an abort drops batches before they are queued, never after. */
  lemma QueuedIsWritten(files: seq<nat>, capacity: nat, workers: nat, events: seq<Event>)
    requires WritesWork(events)
    requires var s := Run(Init(files, capacity, workers), events); s.Some? && s.value.main.Finished?
    ensures Run(Init(files, capacity, workers), events).value.written == Queued(Init(files, capacity, workers), events)
  {
    hide Inv, Run, Queued;
    InitOk(files, capacity, workers);
    RunFlows(Init(files, capacity, workers), events);
    var s := Run(Init(files, capacity, workers), events).value;
    QueueFact(s);
    assert s.written + [] + [] == s.written && [] + [] + [] + Queued(Init(files, capacity, workers), events) == Queued(Init(files, capacity, workers), events);
  }
}
