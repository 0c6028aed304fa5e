/** What an import that ends without an error has done, and why every import ends. */
module ImportEnds {
  import opened Wrappers
  import opened Import
  import opened ImportInv
  import opened ImportRuns

  // ---- Exactly once ----

  /** A successful import has written the batches of each file, each once and in order, and nothing else. */
  lemma ExactlyOnce(files: seq<nat>, capacity: nat, workers: nat, events: seq<Event>, f: nat)
    requires var s := Run(Init(files, capacity, workers), events);
             s.Some? && s.value.main.Finished? && !s.value.Failed()
    ensures var s := Run(Init(files, capacity, workers), events).value;
            Lane(s.written, f) == if f < |files| then Batches(f, files[f]) else []
  {
    hide Inv, Run;
    InitOk(files, capacity, workers);
    RunKeeps(Init(files, capacity, workers), events);
    SameFiles(Init(files, capacity, workers), events);
    FinishedLane(Run(Init(files, capacity, workers), events).value, f);
  }

  lemma FinishedLane(s: State, f: nat)
    requires Inv(s) && s.main.Finished? && !s.Failed()
    ensures Lane(s.written, f) == if f < |s.files| then Batches(f, s.files[f]) else []
  {
    hide Lane, Batches;
    assert s.written + [] + [] == s.written;
    assert LaneOk(s, f);
    assert ProducerOk(s, 0);
  }

  lemma {:induction false} SameFiles(s: State, events: seq<Event>)
    requires Run(s, events).Some?
    ensures Run(s, events).value.files == s.files
    decreases |events|
  {
    hide Apply;
    if events != [] {
      SameFilesStep(s, events[0]);
      SameFiles(Apply(s, events[0]).value, events[1..]);
    }
  }

  predicate SameInput(s: State, z: State) {
    z.files == s.files && z.cap == s.cap && |z.producers| == |s.producers| && (s.error.Some? ==> z.error == s.error)
  }

  /** Nor what was written, or whether the writer has failed. */
  predicate WriterAlone(s: State, z: State) {
    && SameInput(s, z) && z.written == s.written
    && (s.writer.at.WriteFailed? <==> z.writer.at.WriteFailed?)
  }

  lemma WorkSame(s: State, p: nat, ok: bool, message: string)
    requires p < |s.producers| && Produce(s, p, ok, message).Some?
    ensures WriterAlone(s, Produce(s, p, ok, message).value)
  {
    hide WriterAlone, SetErr, Abort, TryPush, ClaimFile;
    match s.producers[p].at
    case Claim => ClaimSame(s, p);
    case Validate => SetSame(s, p, message, Validated);
    case SetError => SetSame(s, p, message, Aborting);
    case PushReady => PushSame(s, p);
    case Aborting => AbortSame(s, p);
    case Check | Open | ReadCheck | Read | Validated | AfterRead => MoveSame(s, Produce(s, p, ok, message).value);
    case PushWaiting =>
    case Done =>
  }

  lemma MoveSame(s: State, z: State)
    requires z == s.(producers := z.producers) && |z.producers| == |s.producers|
    ensures WriterAlone(s, z)
  {
  }

  lemma ClaimSame(s: State, p: nat)
    requires p < |s.producers|
    ensures WriterAlone(s, ClaimFile(s, p))
  {
  }

  lemma PushSame(s: State, p: nat)
    requires p < |s.producers|
    ensures WriterAlone(s, TryPush(s, p))
  {
  }

  lemma SetSame(s: State, p: nat, message: string, at: At)
    requires p < |s.producers|
    ensures WriterAlone(s, Goto(SetErr(s, message), p, at)) && WriterAlone(s, Goto(s, p, at))
  {
  }

  lemma AbortSame(s: State, p: nat)
    requires p < |s.producers|
    ensures |Abort(s).producers| == |s.producers| && WriterAlone(s, Goto(Abort(s), p, Done))
  {
  }

  lemma WritingSame(s: State, ok: bool, message: string)
    requires WriterStep(s, ok, message).Some?
    ensures SameInput(s, WriterStep(s, ok, message).value)
  {
  }

  lemma SameFilesStep(s: State, e: Event)
    requires Apply(s, e).Some?
    ensures SameInput(s, Apply(s, e).value)
  {
    hide Produce, WriterStep;
    match e
    case Work(p, ok, message) => WorkSame(s, p, ok, message);
    case Writing(ok, message) => WritingSame(s, ok, message);
    case _ =>
  }

  /** How often a batch occurs among the written ones is decided by its file's lane. */
  lemma {:induction false} CountInLane(items: seq<Item>, item: Item)
    ensures multiset(items)[item] == multiset(Lane(items, item.file))[item]
  {
    if items != [] {
      var last := items[|items| - 1];
      var init := items[..|items| - 1];
      CountInLane(init, item);
      assert items == init + [last];
    }
  }

  lemma {:induction false} CountInBatches(f: nat, n: nat, i: nat)
    ensures multiset(Batches(f, n))[Item(f, i)] == if i < n then 1 else 0
  {
    if n > 0 {
      CountInBatches(f, n - 1, i);
    }
  }

  /** In other words: every batch of every file exactly once. */
  lemma WrittenOnce(files: seq<nat>, capacity: nat, workers: nat, events: seq<Event>, item: Item)
    requires var s := Run(Init(files, capacity, workers), events);
             s.Some? && s.value.main.Finished? && !s.value.Failed()
    ensures var s := Run(Init(files, capacity, workers), events).value;
            multiset(s.written)[item] == if item.file < |files| && item.index < files[item.file] then 1 else 0
  {
    hide Run, Lane, Batches;
    var s := Run(Init(files, capacity, workers), events).value;
    ExactlyOnce(files, capacity, workers, events, item.file);
    CountInLane(s.written, item);
    if item.file < |files| { CountInBatches(item.file, files[item.file], item.index); }
  }

  /** The error reported is the first one set. */
  lemma {:induction false} FirstErrorWins(s: State, events: seq<Event>)
    requires Run(s, events).Some? && s.error.Some?
    ensures Run(s, events).value.error == s.error
    decreases |events|
  {
    hide Apply;
    if events != [] {
      SameFilesStep(s, events[0]);
      FirstErrorWins(Apply(s, events[0]).value, events[1..]);
    }
  }

  // ---- No lost wake-up, no deadlock ----

  /** A thread in a wait set has reason to be there, so no notification was missed. */
  lemma NoLostWakeUp(files: seq<nat>, capacity: nat, workers: nat, events: seq<Event>)
    requires Run(Init(files, capacity, workers), events).Some?
    ensures var s := Run(Init(files, capacity, workers), events).value;
            && (forall p :: 0 <= p < |s.producers| && s.producers[p].at.PushWaiting? ==> !(|s.q| < s.cap || s.aborted))
            && (s.writer.at.PopWaiting? ==> !(s.q != [] || s.eos || s.aborted))
  {
    hide Inv, Run;
    InitOk(files, capacity, workers);
    RunKeeps(Init(files, capacity, workers), events);
    var s := Run(Init(files, capacity, workers), events).value;
    QueueFact(s);
    forall p | 0 <= p < |s.producers| && s.producers[p].at.PushWaiting?
      ensures !(|s.q| < s.cap || s.aborted)
    {
      ProducerFact(s, p);
    }
  }

  predicate Moves(s: State, e: Event) {
    Apply(s, e).Some? && !e.SpuriousPush? && !e.SpuriousPop?
  }

  /** With the writer waiting or gone no worker waits for room in the queue. */
  lemma NoOneWaitsInVain(s: State)
    requires Inv(s) && (s.writer.at.PopWaiting? || s.writer.at.WriterDone?)
    ensures forall p :: 0 <= p < |s.producers| ==> !s.producers[p].at.PushWaiting?
  {
    hide Inv;
    QueueFact(s);
    forall p | 0 <= p < |s.producers|
      ensures !s.producers[p].at.PushWaiting?
    {
      ProducerFact(s, p);
    }
  }

  /** As long as the main thread has not finished, some thread can take a step of its own. */
  lemma NoDeadlock(s: State)
    requires Inv(s) && !s.main.Finished?
    ensures exists e :: Moves(s, e)
  {
    hide Inv;
    QueueFact(s);
    if !s.writer.at.PopWaiting? && !s.writer.at.WriterDone? {
      assert Moves(s, Writing(true, ""));
    } else {
      NoOneWaitsInVain(s);
      if p :| 0 <= p < |s.producers| && !s.producers[p].at.Done? {
        WorkerCan(s, p);
      } else {
        assert Moves(s, Going);
      }
    }
  }

  lemma WorkerCan(s: State, p: nat)
    requires p < |s.producers| && !s.producers[p].at.Done? && !s.producers[p].at.PushWaiting?
    ensures Moves(s, Work(p, true, ""))
  {
  }

  // ---- Termination ----

  function Left(files: seq<nat>, p: Producer): nat {
    if p.file < |files| && p.next <= files[p.file] then files[p.file] - p.next else 0
  }

  /** The most steps a worker, and the writer on its behalf, have left with the file it has. */
  function Weight(files: seq<nat>, p: Producer): nat {
    var left := 12 * Left(files, p);
    match p.at
    case Check => 8
    case Claim => 7
    case Open => 12 + left
    case ReadCheck => 11 + left
    case Read => 10 + left
    case Validate => 9 + left
    case Validated => 8 + left
    case PushReady => 7 + left
    case PushWaiting => 7 + left
    case AfterRead => 9
    case SetError => 2
    case Aborting => 1
    case Done => 0
  }

  function Weights(files: seq<nat>, ps: seq<Producer>): nat {
    if ps == [] then 0 else Weight(files, ps[0]) + Weights(files, ps[1..])
  }

  /** The files nobody has claimed yet. */
  function Unclaimed(files: seq<nat>, next: nat): nat
    decreases |files| - next
  {
    if next >= |files| then 0 else 6 + 12 * files[next] + Unclaimed(files, next + 1)
  }

  function WriterWeight(w: WriterAt): nat {
    match w
    case PopReady => 3
    case PopWaiting => 3
    case Write => 7
    case WriteFailed => 2
    case WriterAborting => 1
    case WriterDone => 0
  }

  function MainWeight(m: Main, workers: nat): nat {
    match m
    case Joining(i) => 4 + if i <= workers then workers - i else 0
    case Deciding => 3
    case PushingEos => 2
    case MainAborting => 2
    case JoiningWriter => 1
    case Finished => 0
  }

  function Remaining(s: State): nat {
    Unclaimed(s.files, s.nextFile) + Weights(s.files, s.producers) + 5 * |s.q| + WriterWeight(s.writer.at)
    + MainWeight(s.main, |s.producers|)
  }

  function Readies(ps: seq<Producer>): nat {
    if ps == [] then 0 else (if ps[0].at.PushReady? then 1 else 0) + Readies(ps[1..])
  }

  /** How many threads are about to test a condition they may have to wait for. */
  function Testing(s: State): nat {
    Readies(s.producers) + if s.writer.at.PopReady? then 1 else 0
  }

  predicate Less(z: State, s: State) {
    Remaining(z) < Remaining(s) || (Remaining(z) == Remaining(s) && Testing(z) < Testing(s))
  }

  lemma {:induction false} WeightsUpdate(files: seq<nat>, ps: seq<Producer>, p: nat, q: Producer)
    requires p < |ps|
    ensures Weights(files, ps[p := q]) + Weight(files, ps[p]) == Weights(files, ps) + Weight(files, q)
    ensures Readies(ps[p := q]) + (if ps[p].at.PushReady? then 1 else 0) == Readies(ps) + if q.at.PushReady? then 1 else 0
  {
    hide Weight;
    if p > 0 {
      assert ps[p := q][1..] == ps[1..][p - 1 := q];
      WeightsUpdate(files, ps[1..], p - 1, q);
    } else {
      assert ps[p := q][1..] == ps[1..];
    }
  }

  lemma {:induction false} NotifiedWeights(files: seq<nat>, ps: seq<Producer>, qs: seq<Producer>)
    requires |ps| == |qs| && forall p :: 0 <= p < |ps| ==> qs[p] == Notified(ps[p])
    ensures Weights(files, qs) == Weights(files, ps)
  {
    if ps != [] {
      NotifiedWeights(files, ps[1..], qs[1..]);
    }
  }

  lemma NotifyFullWork(s: State)
    ensures Remaining(NotifyNotFull(s)) == Remaining(s)
  {
    hide Weight, Weights, Unclaimed;
    NotifiedWeights(s.files, s.producers, NotifyNotFull(s).producers);
  }

  lemma NotifyEmptyWork(s: State)
    ensures Remaining(NotifyNotEmpty(s)) == Remaining(s)
  {
    hide Weight, Weights, Unclaimed;
  }

  lemma AbortWork(s: State)
    ensures Remaining(Abort(s)) == Remaining(s)
  {
    hide Weight, Weights, Unclaimed;
    NotifyEmptyWork(s.(eos := true, aborted := true));
    NotifyFullWork(NotifyNotEmpty(s.(eos := true, aborted := true)));
  }

  lemma PlaceWork(s: State, p: nat, q: Producer)
    requires p < |s.producers|
    ensures Remaining(Place(s, p, q)) + Weight(s.files, s.producers[p]) == Remaining(s) + Weight(s.files, q)
    ensures Testing(Place(s, p, q)) + (if s.producers[p].at.PushReady? then 1 else 0)
         == Testing(s) + if q.at.PushReady? then 1 else 0
  {
    hide Weight, Weights, Unclaimed;
    WeightsUpdate(s.files, s.producers, p, q);
  }

  lemma WorkDescends(s: State, p: nat, ok: bool, message: string)
    requires Inv(s) && p < |s.producers| && Produce(s, p, ok, message).Some?
    ensures Less(Produce(s, p, ok, message).value, s)
  {
    hide Inv, Less, ProducerOk, Abort, SetErr, TryPush, ClaimFile;
    ProducerFact(s, p);
    match s.producers[p].at
    case Claim => ClaimDescends(s, p);
    case Validate => ValidateDescends(s, p, if ok then s else SetErr(s, message), message);
    case SetError => ErrorDescends(s, p, message);
    case Aborting => AbortDescends(s, p);
    case PushReady => PushDescends(s, p);
    case _ => MoveDescends(s, p, ok, message);
  }

  lemma MoveDescends(s: State, p: nat, ok: bool, message: string)
    requires p < |s.producers| && ProducerOk(s, p)
    requires var at := s.producers[p].at; at.Check? || at.Open? || at.ReadCheck? || at.Read? || at.Validated? || at.AfterRead?
    ensures Less(Produce(s, p, ok, message).value, s)
  {
    hide Remaining, Testing;
    PlaceWork(s, p, Produce(s, p, ok, message).value.producers[p]);
  }

  lemma ValidateDescends(s: State, p: nat, t: State, message: string)
    requires p < |s.producers| && s.producers[p].at.Validate? && (t == s || t == SetErr(s, message))
    ensures Less(Goto(t, p, Validated), s)
  {
    hide Remaining, Testing, SetErr;
    SetErrWork(s, message);
    PlaceWork(t, p, t.producers[p].(at := Validated));
  }

  lemma ErrorDescends(s: State, p: nat, message: string)
    requires p < |s.producers| && s.producers[p].at.SetError?
    ensures Less(Goto(SetErr(s, message), p, Aborting), s)
  {
    hide Remaining, Testing, SetErr;
    SetErrWork(s, message);
    var t := SetErr(s, message);
    PlaceWork(t, p, t.producers[p].(at := Aborting));
  }

  lemma SetErrWork(s: State, message: string)
    ensures SetErr(s, message) == s.(error := SetErr(s, message).error)
    ensures Remaining(SetErr(s, message)) == Remaining(s) && Testing(SetErr(s, message)) == Testing(s)
  {
    hide Weights, Readies, Unclaimed;
  }

  lemma ClaimDescends(s: State, p: nat)
    requires p < |s.producers| && s.producers[p].at.Claim?
    ensures Less(ClaimFile(s, p), s)
  {
    hide Weights, Readies;
    WeightsUpdate(s.files, s.producers, p, ClaimFile(s, p).producers[p]);
  }

  lemma AbortDescends(s: State, p: nat)
    requires p < |s.producers| && s.producers[p].at.Aborting?
    ensures Less(Goto(Abort(s), p, Done), s)
  {
    hide Remaining, Testing;
    AbortWork(s);
    PlaceWork(Abort(s), p, Abort(s).producers[p].(at := Done));
  }

  lemma PushDescends(s: State, p: nat)
    requires p < |s.producers| && s.producers[p].at.PushReady? && ProducerOk(s, p)
    ensures Less(TryPush(s, p), s)
  {
    hide Remaining, Testing, NotifyNotEmpty;
    var producer := s.producers[p];
    var on := producer.(at := ReadCheck, next := producer.next + 1);
    PlaceWork(s, p, on);
    PlaceWork(s, p, producer.(at := PushWaiting));
    QueueWork(Place(s, p, on), Place(s, p, on).q + [Item(producer.file, producer.next)]);
    NotifyEmptyWork(Pushed(s, p));
  }

  lemma QueueWork(s: State, q: seq<Item>)
    ensures Remaining(s.(q := q)) + 5 * |s.q| == Remaining(s) + 5 * |q|
  {
    hide Weights, Unclaimed;
  }

  lemma WritingDescends(s: State, ok: bool, message: string)
    requires WriterStep(s, ok, message).Some?
    ensures Less(WriterStep(s, ok, message).value, s)
  {
    hide Weights, Readies, Unclaimed, Abort, NotifyNotFull, SetErr;
    match s.writer.at
    case PopReady =>
      if s.q != [] { NotifyFullWork(s.(writer := Writer(Write, [s.q[0]]), q := s.q[1..])); }
    case Write =>
    case WriteFailed => SetErrWork(s, message);
    case WriterAborting => WriterAborts(s);
  }

  lemma WriterAborts(s: State)
    requires s.writer.at.WriterAborting?
    ensures Less(Abort(s).(writer := Writer(WriterDone, [])), s)
  {
    hide Weights, Readies, Unclaimed;
    AbortWork(s);
    assert Abort(s).writer == s.writer;
  }

  lemma GoingDescends(s: State)
    requires MainStep(s).Some?
    ensures Less(MainStep(s).value, s)
  {
    hide Weights, Readies, Unclaimed, Abort, PushEos;
    if s.main.MainAborting? { MainDescends(s, Abort(s)); AbortWork(s); }
    if s.main.PushingEos? { MainDescends(s, PushEos(s)); EosWork(s); }
  }

  lemma EosWork(s: State)
    ensures Remaining(PushEos(s)) == Remaining(s) && PushEos(s).main == s.main
  {
    hide Weights, Unclaimed;
  }

  lemma MainDescends(s: State, z: State)
    requires (s.main.MainAborting? && z == Abort(s)) || (s.main.PushingEos? && z == PushEos(s))
    ensures z.main == s.main
    ensures Remaining(z.(main := JoiningWriter)) + 1 == Remaining(z)
  {
    hide Weights, Unclaimed;
  }

  /** Every step a thread takes of its own, waking others as it may, brings the import nearer to its end. */
  lemma EveryStepDescends(s: State, e: Event)
    requires Inv(s) && Moves(s, e)
    ensures Less(Apply(s, e).value, s)
  {
    hide Inv, Less, Produce, WriterStep, MainStep;
    match e
    case Work(p, ok, message) => WorkDescends(s, p, ok, message);
    case Writing(ok, message) => WritingDescends(s, ok, message);
    case Going => GoingDescends(s);
  }

  /** From any reachable state the import can be run to its end, whatever the outcomes on the way. */
  lemma AlwaysEnds(s: State) returns (events: seq<Event>)
    requires Inv(s)
    ensures Run(s, events).Some? && Run(s, events).value.main.Finished?
    decreases Remaining(s), Testing(s)
  {
    hide Inv, Apply, Remaining, Testing;
    if s.main.Finished? {
      events := [];
    } else {
      NoDeadlock(s);
      var e :| Moves(s, e);
      EveryStepDescends(s, e);
      EventKeeps(s, e);
      var rest := AlwaysEnds(Apply(s, e).value);
      events := [e] + rest;
    }
  }
}
