/** What every step of workers, writer and main thread keeps. */
module ImportInv {
  import opened Wrappers
  import opened Import

  // ---- Which batches of a file have gone through ----

  /** The batches of file `f`, in order. */
  function Lane(items: seq<Item>, f: nat): seq<Item> {
    if items == [] then []
    else if items[|items| - 1].file == f then Lane(items[..|items| - 1], f) + [items[|items| - 1]]
    else Lane(items[..|items| - 1], f)
  }

  /** The first `n` batches of file `f`. */
  function Batches(f: nat, n: nat): (r: seq<Item>)
    ensures |r| == n
  {
    if n == 0 then [] else Batches(f, n - 1) + [Item(f, n - 1)]
  }

  lemma LanePush(items: seq<Item>, item: Item, f: nat)
    ensures Lane(items + [item], f) == if item.file == f then Lane(items, f) + [item] else Lane(items, f)
  {
    assert (items + [item])[..|items|] == items;
  }

  /** Everything pushed so far: written, in the writer's hand, and queued. */
  function Flow(s: State): seq<Item> {
    s.written + s.writer.hand + s.q
  }

  // ---- The invariant ----

  /** The worker has claimed `file` and not come to its end. */
  predicate HasFile(at: At) {
    at.Open? || at.ReadCheck? || at.Read? || HasBatch(at) || at.SetError?
  }

  predicate HasBatch(at: At) {
    at.Validate? || at.Validated? || at.PushReady? || at.PushWaiting?
  }

  predicate ProducerOk(s: State, p: nat)
    requires p < |s.producers|
  {
    var producer := s.producers[p];
    && (HasFile(producer.at) ==>
          producer.file < s.nextFile && producer.file < |s.files| && producer.next <= s.files[producer.file])
    && (HasBatch(producer.at) ==> producer.next < s.files[producer.file])
    && (producer.at.PushWaiting? ==> |s.q| >= s.cap && !s.aborted)
    && (producer.at.Aborting? ==> s.Failed())
    && (producer.at.Done? && !s.Failed() ==> s.nextFile >= |s.files|)
  }

  predicate WriterOk(s: State) {
    var at := s.writer.at;
    && (if at.Write? || at.WriteFailed? then |s.writer.hand| == 1 else s.writer.hand == [])
    && (at.PopWaiting? ==> s.q == [] && !s.eos && !s.aborted)
    && (at.WriterAborting? ==> s.Failed())
    && (at.WriterDone? ==> s.eos && (s.aborted || s.q == []))
  }

  ghost predicate AllDone(s: State) {
    forall p :: 0 <= p < |s.producers| ==> s.producers[p].at.Done?
  }

  predicate Joined(m: Main) {
    !m.Joining?
  }

  predicate Signalled(m: Main) {
    m.JoiningWriter? || m.Finished?
  }

  ghost predicate MainOk(s: State) {
    && (s.main.Joining? ==> s.main.i <= |s.producers| && forall p :: 0 <= p < s.main.i ==> s.producers[p].at.Done?)
    && (Joined(s.main) ==> AllDone(s))
    && (s.main.MainAborting? ==> s.Failed())
    && (Signalled(s.main) ==> s.eos)
    && (s.main.Finished? ==> s.writer.at.WriterDone?)
    && (s.eos && !s.aborted ==> Signalled(s.main))
  }

  predicate QueueOk(s: State) {
    && 1 <= s.cap && |s.q| <= s.cap && 1 <= |s.producers|
    && (s.aborted ==> s.Failed() && s.eos)
  }

  /** No two workers have the same file. */
  predicate Apart(s: State) {
    forall i, j :: 0 <= i < j < |s.producers| && HasFile(s.producers[i].at) && HasFile(s.producers[j].at) ==>
      s.producers[i].file != s.producers[j].file
  }

  predicate Held(s: State, f: nat) {
    exists p :: 0 <= p < |s.producers| && HasFile(s.producers[p].at) && s.producers[p].file == f
  }

  /** How far each file has come: not claimed, read up to the next batch, or read to its end. */
  ghost predicate LaneOk(s: State, f: nat) {
    && (f >= s.nextFile || f >= |s.files| ==> Lane(Flow(s), f) == [])
    && (forall p :: 0 <= p < |s.producers| && HasFile(s.producers[p].at) && s.producers[p].file == f ==>
          Lane(Flow(s), f) == Batches(f, s.producers[p].next))
    && (f < s.nextFile && f < |s.files| && !Held(s, f) ==> Lane(Flow(s), f) == Batches(f, s.files[f]))
  }

  ghost predicate Ledger(s: State) {
    forall f: nat :: LaneOk(s, f)
  }

  ghost predicate Producers(s: State) {
    forall p :: 0 <= p < |s.producers| ==> ProducerOk(s, p)
  }

  ghost predicate Inv(s: State) {
    && QueueOk(s) && Producers(s) && WriterOk(s) && MainOk(s) && Apart(s)
    && (!s.Failed() ==> Ledger(s))
  }

  // ---- The effects steps are made of ----

  lemma ProducerFact(s: State, p: nat)
    requires Inv(s) && p < |s.producers|
    ensures ProducerOk(s, p)
  {
    hide ProducerOk, QueueOk, WriterOk, MainOk, Apart, Ledger;
  }

  lemma QueueFact(s: State)
    requires Inv(s)
    ensures QueueOk(s) && WriterOk(s) && MainOk(s)
  {
    hide Producers, QueueOk, WriterOk, MainOk, Apart, Ledger;
  }

  /** The worker leaves its file only at its end, or after a failure. */
  predicate Leaves(s: State, before: Producer, after: Producer) {
    && !before.at.Done?
    && (HasFile(after.at) ==> HasFile(before.at) && after.file == before.file && after.next == before.next)
    && (HasFile(before.at) && !HasFile(after.at) && !s.Failed() ==> before.file < |s.files| && before.next == s.files[before.file])
  }

  function Place(s: State, p: nat, q: Producer): State
    requires p < |s.producers|
  {
    s.(producers := s.producers[p := q])
  }

  lemma PlaceLane(s: State, p: nat, q: Producer, f: nat)
    requires p < |s.producers| && Apart(s) && Leaves(s, s.producers[p], q) && !s.Failed() && LaneOk(s, f)
    ensures LaneOk(Place(s, p, q), f)
  {
    hide Lane, Batches, HasFile;
    var z := Place(s, p, q);
    assert Flow(z) == Flow(s);
    if HasFile(s.producers[p].at) && s.producers[p].file == f {
      assert Lane(Flow(s), f) == Batches(f, s.producers[p].next);
      if HasFile(q.at) { assert HasFile(z.producers[p].at); }
    } else if Held(s, f) {
      var r :| 0 <= r < |s.producers| && HasFile(s.producers[r].at) && s.producers[r].file == f;
      assert HasFile(z.producers[r].at) && z.producers[r].file == f;
    }
  }

  lemma PlaceMain(s: State, p: nat, q: Producer)
    requires p < |s.producers| && !s.producers[p].at.Done? && MainOk(s)
    ensures MainOk(Place(s, p, q))
  {
  }

  lemma PlaceKeeps(s: State, p: nat, q: Producer)
    requires Inv(s) && p < |s.producers| && Leaves(s, s.producers[p], q) && ProducerOk(Place(s, p, q), p)
    ensures Inv(Place(s, p, q))
  {
    hide WriterOk, LaneOk, MainOk, ProducerOk, HasFile, Lane;
    var z := Place(s, p, q);
    PlaceMain(s, p, q);
    forall r | 0 <= r < |z.producers|
      ensures ProducerOk(z, r)
    {
      if r != p { SameProducer(s, z, r); }
    }
    if !s.Failed() {
      forall f: nat
        ensures LaneOk(z, f)
      {
        PlaceLane(s, p, q, f);
      }
    }
    assert WriterOk(z) by { SameWriter(s, z); }
  }

  lemma SameWriter(s: State, z: State)
    requires WriterOk(s) && z == s.(producers := z.producers)
    ensures WriterOk(z)
  {
  }

  lemma SameProducer(s: State, z: State, r: nat)
    requires Producers(s) && r < |s.producers| && |z.producers| == |s.producers| && z == s.(producers := z.producers)
    requires z.producers[r] == s.producers[r]
    ensures ProducerOk(z, r)
  {
    assert ProducerOk(s, r);
  }

  lemma ErrKeeps(s: State, message: string)
    requires Inv(s)
    ensures Inv(SetErr(s, message)) && SetErr(s, message).Failed()
  {
    hide Ledger;
    var z := SetErr(s, message);
    forall r | 0 <= r < |z.producers|
      ensures ProducerOk(z, r)
    {
      assert ProducerOk(s, r);
    }
  }

  // ---- Notifying ----

  lemma NotifiedLane(s: State, f: nat)
    requires LaneOk(s, f)
    ensures LaneOk(NotifyNotFull(s), f)
  {
    hide Lane, Batches;
    var z := NotifyNotFull(s);
    assert Flow(z) == Flow(s);
    forall p | 0 <= p < |z.producers| && HasFile(z.producers[p].at) && z.producers[p].file == f
      ensures Lane(Flow(z), f) == Batches(f, z.producers[p].next) && Held(s, f)
    {
      assert HasFile(s.producers[p].at) && s.producers[p].file == f;
    }
    if Held(s, f) {
      var p :| 0 <= p < |s.producers| && HasFile(s.producers[p].at) && s.producers[p].file == f;
      assert HasFile(z.producers[p].at) && z.producers[p].file == f;
    }
  }

  lemma NotifiedMain(s: State)
    requires MainOk(s)
    ensures MainOk(NotifyNotFull(s))
  {
  }

  /** Waking the waiting workers; they may have had reason to wait, or not. */
  lemma NotFullKeeps(s: State)
    requires QueueOk(s) && WriterOk(s) && MainOk(s) && Apart(s) && (!s.Failed() ==> Ledger(s))
    requires forall p :: 0 <= p < |s.producers| && !s.producers[p].at.PushWaiting? ==> ProducerOk(s, p)
    requires forall p :: 0 <= p < |s.producers| && s.producers[p].at.PushWaiting? ==>
               ProducerOk(Goto(s, p, PushReady), p)
    ensures Inv(NotifyNotFull(s))
  {
    hide LaneOk, MainOk;
    var z := NotifyNotFull(s);
    forall p | 0 <= p < |z.producers|
      ensures ProducerOk(z, p)
    {
      if s.producers[p].at.PushWaiting? { assert ProducerOk(Goto(s, p, PushReady), p); } else { assert ProducerOk(s, p); }
    }
    NotifiedMain(s);
    if !s.Failed() {
      forall f: nat ensures LaneOk(z, f) { NotifiedLane(s, f); }
    }
  }

  lemma AbortKeeps(s: State)
    requires Inv(s) && s.Failed()
    ensures Inv(Abort(s))
  {
    hide Ledger;
    var t := NotifyNotEmpty(s.(eos := true, aborted := true));
    forall p | 0 <= p < |s.producers|
      ensures s.producers[p].at.PushWaiting? ==> ProducerOk(Goto(t, p, PushReady), p)
      ensures !s.producers[p].at.PushWaiting? ==> ProducerOk(t, p)
    {
      assert ProducerOk(s, p);
    }
    NotFullKeeps(t);
  }

  // ---- Claiming a file ----

  lemma ClaimLane(s: State, p: nat, f: nat)
    requires p < |s.producers| && s.producers[p].at.Claim? && LaneOk(s, f)
    ensures LaneOk(ClaimFile(s, p), f)
  {
    hide Lane;
    var z := ClaimFile(s, p);
    assert Flow(z) == Flow(s);
    if Held(s, f) {
      var r :| 0 <= r < |s.producers| && HasFile(s.producers[r].at) && s.producers[r].file == f;
      assert HasFile(z.producers[r].at) && z.producers[r].file == f;
    }
    if f == s.nextFile && f < |s.files| {
      assert HasFile(z.producers[p].at) && z.producers[p].file == f;
    }
  }

  lemma ClaimMain(s: State, p: nat)
    requires p < |s.producers| && s.producers[p].at.Claim? && MainOk(s)
    ensures MainOk(ClaimFile(s, p))
  {
  }

  /** Each file is claimed once, by one worker. */
  lemma ClaimKeeps(s: State, p: nat)
    requires Inv(s) && p < |s.producers| && s.producers[p].at.Claim?
    ensures Inv(ClaimFile(s, p))
  {
    hide LaneOk, MainOk;
    var z := ClaimFile(s, p);
    ClaimMain(s, p);
    forall r | 0 <= r < |z.producers|
      ensures ProducerOk(z, r) && (r != p && HasFile(z.producers[r].at) ==> z.producers[r].file < s.nextFile)
    {
      assert ProducerOk(s, r);
    }
    assert Apart(z);
    assert WriterOk(z) && QueueOk(z);
    if !s.Failed() {
      forall f: nat ensures LaneOk(z, f) { ClaimLane(s, p, f); }
    }
  }

  // ---- Pushing ----

  /** What pushing does before the writer is notified. */
  function Pushed(s: State, p: nat): State
    requires p < |s.producers|
  {
    var producer := s.producers[p];
    Place(s, p, producer.(at := ReadCheck, next := producer.next + 1)).(q := s.q + [Item(producer.file, producer.next)])
  }

  lemma PushedLane(s: State, p: nat, f: nat)
    requires p < |s.producers| && s.producers[p].at.PushReady? && Apart(s) && ProducerOk(s, p) && LaneOk(s, f)
    ensures LaneOk(Pushed(s, p), f)
  {
    var z := Pushed(s, p);
    var item := Item(s.producers[p].file, s.producers[p].next);
    assert Flow(z) == Flow(s) + [item];
    LanePush(Flow(s), item, f);
    hide Lane;
    if Held(s, f) {
      var r :| 0 <= r < |s.producers| && HasFile(s.producers[r].at) && s.producers[r].file == f;
      assert HasFile(z.producers[r].at) && z.producers[r].file == f;
    }
  }

  lemma SameLane(s: State, z: State, f: nat)
    requires LaneOk(s, f) && Flow(z) == Flow(s) && z.producers == s.producers && z.files == s.files && z.nextFile == s.nextFile
    ensures LaneOk(z, f)
  {
    hide Lane, Batches, HasFile, Flow;
  }

  lemma PushedMain(s: State, p: nat)
    requires p < |s.producers| && s.producers[p].at.PushReady? && MainOk(s)
    ensures MainOk(NotifyNotEmpty(Pushed(s, p))) && !(s.eos && !s.aborted)
  {
  }

  lemma PushKeeps(s: State, p: nat)
    requires Inv(s) && p < |s.producers| && s.producers[p].at.PushReady? && !s.aborted && |s.q| < s.cap
    ensures Inv(NotifyNotEmpty(Pushed(s, p)))
  {
    hide LaneOk, MainOk;
    var z := NotifyNotEmpty(Pushed(s, p));
    PushedMain(s, p);
    forall r | 0 <= r < |z.producers|
      ensures ProducerOk(z, r)
    {
      assert ProducerOk(s, r);
      assert ProducerOk(s, p);
    }
    if !s.Failed() {
      forall f: nat
        ensures LaneOk(z, f)
      {
        assert ProducerOk(s, p);
        PushedLane(s, p, f);
        SameLane(Pushed(s, p), z, f);
      }
    }
  }

  // ---- Writer and main thread ----

  lemma TookLane(s: State, f: nat)
    requires s.writer.hand == [] && s.q != [] && LaneOk(s, f)
    ensures LaneOk(s.(writer := Writer(Write, [s.q[0]]), q := s.q[1..]), f)
  {
    var z := s.(writer := Writer(Write, [s.q[0]]), q := s.q[1..]);
    assert Flow(z) == Flow(s);
    SameLane(s, z, f);
  }

  lemma PopKeeps(s: State)
    requires Inv(s) && s.writer.at.PopReady?
    ensures Inv(TryPop(s))
  {
    hide LaneOk;
    if s.q != [] {
      var t := s.(writer := Writer(Write, [s.q[0]]), q := s.q[1..]);
      forall p | 0 <= p < |s.producers|
        ensures s.producers[p].at.PushWaiting? ==> ProducerOk(Goto(t, p, PushReady), p)
        ensures !s.producers[p].at.PushWaiting? ==> ProducerOk(t, p)
      {
        assert ProducerOk(s, p);
      }
      if !s.Failed() {
        forall f: nat ensures LaneOk(t, f) { TookLane(s, f); }
      }
      NotFullKeeps(t);
    } else {
      WriterKeeps(s, TryPop(s));
    }
  }

  /** The writer moves on without touching anything the others see. */
  lemma WriterKeeps(s: State, z: State)
    requires Inv(s) && z == s.(writer := z.writer, written := z.written) && WriterOk(z)
    requires s.Failed() || Flow(z) == Flow(s)
    requires s.writer.at.WriterDone? ==> z.writer.at.WriterDone?
    ensures Inv(z)
  {
    hide LaneOk;
    forall p | 0 <= p < |z.producers|
      ensures ProducerOk(z, p)
    {
      assert ProducerOk(s, p);
    }
    if !s.Failed() {
      forall f: nat ensures LaneOk(z, f) { SameLane(s, z, f); }
    }
  }

  /** The main thread moves on without touching anything the others see. */
  lemma MainKeeps(s: State, m: Main)
    requires Inv(s) && MainOk(s.(main := m))
    ensures Inv(s.(main := m))
  {
    hide LaneOk, MainOk;
    var z := s.(main := m);
    forall p | 0 <= p < |z.producers|
      ensures ProducerOk(z, p)
    {
      assert ProducerOk(s, p);
    }
    if !s.Failed() {
      forall f: nat ensures LaneOk(z, f) { SameLane(s, z, f); }
    }
  }

  lemma EosKeeps(s: State)
    requires Inv(s) && s.main.PushingEos?
    ensures Inv(PushEos(s).(main := JoiningWriter))
  {
    hide LaneOk;
    var z := PushEos(s).(main := JoiningWriter);
    forall p | 0 <= p < |z.producers|
      ensures ProducerOk(z, p)
    {
      assert ProducerOk(s, p);
    }
    if !s.Failed() {
      forall f: nat ensures LaneOk(z, f) { SameLane(s, z, f); }
    }
  }

  lemma MainAborts(s: State)
    requires Inv(s) && s.main.MainAborting?
    ensures Inv(Abort(s).(main := JoiningWriter))
  {
    hide Ledger;
    QueueFact(s);
    AbortKeeps(s);
    MainKeeps(Abort(s), JoiningWriter);
  }
}
