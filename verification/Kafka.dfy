/** Consuming a partition: the consumer that saves its offset after each message, and the one-shot catch-up
    that saves once at its end. */
module Kafka {
  import opened Wrappers
  import opened Ingest
  import opened IngestOps
  import opened Replay

  /** RD_KAFKA_OFFSET_BEGINNING */
  const BEGINNING: int := -2

  /** `LoadOffset`: the message after the last one committed. */
  function LoadOffset(file: Option<int>): (start: int)
    ensures start >= 0 || start == BEGINNING
  {
    if file.Some? && file.value >= 0 then file.value + 1 else BEGINNING
  }

  /** A message: its offset, and its payload as parsed, or `None` if it is no JSON. */
  datatype Record = Record(offset: nat, payload: Option<Json>) {
    function Items(): seq<Members> {
      ItemsOf(payload)
    }
  }

  predicate AllUnique(items: seq<Members>) {
    forall i :: 0 <= i < |items| ==> Unique(items[i])
  }

  // ---- The two loops ----

  /** What `rd_kafka_consume` returns. */
  datatype Poll = Nothing | Eof | Failed | Message(record: Record)

  function Records(polls: seq<Poll>): seq<Record> {
    if polls == [] then []
    else
      var last := polls[|polls| - 1];
      Records(polls[..|polls| - 1]) + if last.Message? then [last.record] else []
  }

  function ApplyAll(schema: Schema, conv: Conv, store: Store, records: seq<Record>): (s: Store)
    requires StoreFits(schema, store)
    ensures StoreFits(schema, s)
  {
    if records == [] then store
    else ApplyItems(schema, conv, ApplyAll(schema, conv, store, records[..|records| - 1]), records[|records| - 1].Items()).1
  }

  function LastOffset(records: seq<Record>, otherwise: int): int {
    if records == [] then otherwise else records[|records| - 1].offset
  }

  /** The objects of one payload, other elements being skipped; an exception ends the message, not the loop. */
  method ApplyPayload(idx: KVIndex, conv: Conv, payload: Option<Json>)
    requires WellFormed(idx.schema) && AllUnique(ItemsOf(payload))
    modifies idx
    ensures idx.Seen() == ApplyItems(idx.schema, conv, old(idx.Seen()), ItemsOf(payload)).1
  {
    hide ApplyItems, ApplyObject, WellFormed, Objects;
    NoItems(idx.schema, conv, idx.Seen());
    if payload.None? { return; }
    var j := payload.value;
    if j.Array? {
      ApplyElements(idx, conv, j.elems);
    } else if j.Object? {
      OneItem(idx.schema, conv, idx.Seen(), j.members);
      assert AllUnique([j.members]) ==> Unique([j.members][0]);
      var _ := ApplyStreamJsonObject(idx, conv, j.members);
    }
  }

  method ApplyElements(idx: KVIndex, conv: Conv, elems: seq<Json>)
    requires WellFormed(idx.schema) && AllUnique(Objects(elems))
    modifies idx
    ensures idx.Seen() == ApplyItems(idx.schema, conv, old(idx.Seen()), Objects(elems)).1
  {
    hide ApplyItems, ApplyObject, WellFormed, Objects, Unique;
    NoItems(idx.schema, conv, idx.Seen());
    NoObjects(elems);
    ghost var items := Objects(elems);
    var i := 0;
    while i < |elems|
      invariant 0 <= i <= |elems|
      invariant ApplyItems(idx.schema, conv, old(idx.Seen()), Objects(elems[..i])) == (false, idx.Seen())
    {
      ObjectsMore(elems, i);
      if !elems[i].Object? {
        assert Objects(elems[..i + 1]) == Objects(elems[..i]);
        i := i + 1;
        continue;
      }
      ghost var k := |Objects(elems[..i])|;
      ObjectsPrefix(elems, i + 1);
      assert items[k] == elems[i].members && items[..k] == Objects(elems[..i]);
      assert items[..k + 1] == Objects(elems[..i + 1]);
      OneMore(idx.schema, conv, old(idx.Seen()), items, k);
      var outcome := ApplyStreamJsonObject(idx, conv, elems[i].members);
      if outcome.Thrown? {
        ThrownStays(idx.schema, conv, old(idx.Seen()), items, k + 1);
        return;
      }
      i := i + 1;
    }
    assert elems[..|elems|] == elems;
  }

  lemma NoObjects(elems: seq<Json>)
    ensures Objects(elems[..0]) == []
  {
  }

  lemma ObjectsMore(elems: seq<Json>, i: nat)
    requires i < |elems|
    ensures Objects(elems[..i + 1]) == Objects(elems[..i]) + if elems[i].Object? then [elems[i].members] else []
  {
    assert elems[..i + 1][..i] == elems[..i];
  }

  lemma {:induction false} ObjectsPrefix(elems: seq<Json>, i: nat)
    requires i <= |elems|
    ensures Objects(elems[..i]) <= Objects(elems)
    decreases |elems| - i
  {
    hide Objects;
    if i == |elems| {
      assert elems[..i] == elems;
    } else {
      ObjectsMore(elems, i);
      ObjectsPrefix(elems, i + 1);
    }
  }

  lemma NoItems(schema: Schema, conv: Conv, store: Store)
    requires StoreFits(schema, store)
    ensures ApplyItems(schema, conv, store, []) == (false, store)
  {
  }

  predicate PollsUnique(polls: seq<Poll>) {
    forall i :: 0 <= i < |polls| && polls[i].Message? ==> AllUnique(polls[i].record.Items())
  }

  lemma NoPolls(schema: Schema, conv: Conv, store: Store, polls: seq<Poll>)
    requires StoreFits(schema, store)
    ensures Records(polls[..0]) == [] && ApplyAll(schema, conv, store, []) == store
    ensures forall d :: LastOffset([], d) == d
  {
  }

  /** What one poll more comes to. */
  lemma OneMorePoll(schema: Schema, conv: Conv, store: Store, polls: seq<Poll>, i: nat)
    requires StoreFits(schema, store) && i < |polls|
    ensures var before, after := Records(polls[..i]), Records(polls[..i + 1]);
            if polls[i].Message? then
              && after != [] && (forall d :: LastOffset(after, d) == polls[i].record.offset)
              && ApplyAll(schema, conv, store, after)
                 == ApplyItems(schema, conv, ApplyAll(schema, conv, store, before), polls[i].record.Items()).1
            else
              after == before
  {
    assert polls[..i + 1][..i] == polls[..i];
    var before, after := Records(polls[..i]), Records(polls[..i + 1]);
    if polls[i].Message? {
      assert after == before + [polls[i].record];
      assert after[..|after| - 1] == before;
    } else {
      assert after == before + [];
    }
  }

  class KafkaSource {
    const idx: KVIndex
    var offsetFile: Option<int>

    constructor (idx: KVIndex, offsetFile: Option<int>)
      ensures this.idx == idx && this.offsetFile == offsetFile
    {
      this.idx, this.offsetFile := idx, offsetFile;
    }

    /** One session, until `stop_` is seen: every message is applied, and then its offset saved. */
    method ConsumeLoop(conv: Conv, polls: seq<Poll>)
      requires WellFormed(idx.schema) && PollsUnique(polls)
      modifies this, idx
      ensures idx.Seen() == ApplyAll(idx.schema, conv, old(idx.Seen()), Records(polls))
      ensures offsetFile == if Records(polls) == [] then old(offsetFile) else Some(LastOffset(Records(polls), 0))
    {
      hide ApplyAll, Records, ApplyItems, LastOffset;
      NoPolls(idx.schema, conv, idx.Seen(), polls);
      var i := 0;
      while i < |polls|
        invariant 0 <= i <= |polls|
        invariant idx.Seen() == ApplyAll(idx.schema, conv, old(idx.Seen()), Records(polls[..i]))
        invariant offsetFile == if Records(polls[..i]) == [] then old(offsetFile) else Some(LastOffset(Records(polls[..i]), 0))
      {
        OneMorePoll(idx.schema, conv, old(idx.Seen()), polls, i);
        if polls[i].Message? {
          ApplyPayload(idx, conv, polls[i].record.payload);
          offsetFile := Some(polls[i].record.offset);
        }
        i := i + 1;
      }
      assert polls[..|polls|] == polls;
    }
  }

  /** The number of empty polls without an end of partition after which catch-up gives up. */
  const MAX_IDLE_POLLS: nat := 50_000

  /** Empty polls behind the end of the partition since the last message. */
  function Silence(polls: seq<Poll>): nat {
    if polls == [] then 0
    else
      var before, last := polls[..|polls| - 1], polls[|polls| - 1];
      if last.Message? then 0 else if last.Nothing? && Eof in before then Silence(before) + 1 else Silence(before)
  }

  /** Empty polls in a row before the end of the partition is known. */
  function Idle(polls: seq<Poll>): nat {
    if polls == [] then 0
    else
      var before, last := polls[..|polls| - 1], polls[|polls| - 1];
      if last.Message? || last.Eof? then 0 else if last.Nothing? && Eof !in before then Idle(before) + 1 else Idle(before)
  }

  predicate NoMessageAfter(polls: seq<Poll>, i: nat) {
    forall j :: i < j < |polls| ==> !polls[j].Message?
  }

  predicate IsSilent(polls: seq<Poll>, i: nat)
    requires i < |polls|
  {
    polls[i].Nothing? && Eof in polls[..i] && NoMessageAfter(polls, i)
  }

  predicate IsIdle(polls: seq<Poll>, i: nat)
    requires i < |polls|
  {
    polls[i].Nothing? && Eof !in polls && NoMessageAfter(polls, i)
  }

  /** The empty polls behind the end of the partition since the last message, one by one. */
  function SilentPolls(polls: seq<Poll>): set<nat> {
    set i | 0 <= i < |polls| && IsSilent(polls, i)
  }

  /** The empty polls since the last message, as long as the end of the partition has not been seen. */
  function IdlePolls(polls: seq<Poll>): set<nat> {
    set i | 0 <= i < |polls| && IsIdle(polls, i)
  }

  lemma OnePollLater(polls: seq<Poll>, i: nat)
    requires i < |polls| - 1
    ensures var before, last := polls[..|polls| - 1], polls[|polls| - 1];
            && (IsSilent(polls, i) <==> IsSilent(before, i) && !last.Message?)
            && (IsIdle(polls, i) <==> IsIdle(before, i) && !last.Message? && !last.Eof?)
  {
    var before, n := polls[..|polls| - 1], |polls| - 1;
    assert before[..i] == polls[..i] && polls == before + [polls[n]];
    assert forall j :: i < j < n ==> before[j] == polls[j];
  }

  lemma SilentLater(polls: seq<Poll>)
    requires polls != []
    ensures var before, n := polls[..|polls| - 1], |polls| - 1;
            && n !in SilentPolls(before)
            && SilentPolls(polls) == (if polls[n].Message? then {} else SilentPolls(before))
                                     + if polls[n].Nothing? && Eof in before then {n} else {}
  {
    var before, n := polls[..|polls| - 1], |polls| - 1;
    assert IsSilent(polls, n) <==> polls[n].Nothing? && Eof in before;
    forall i: nat | i < n
      ensures IsSilent(polls, i) <==> IsSilent(before, i) && !polls[n].Message?
    {
      OnePollLater(polls, i);
    }
  }

  lemma {:induction false} SilenceCounts(polls: seq<Poll>)
    ensures Silence(polls) == |SilentPolls(polls)|
  {
    hide SilentPolls;
    if polls == [] {
      NoneSilent();
    } else {
      SilenceCounts(polls[..|polls| - 1]);
      SilentLater(polls);
    }
  }

  lemma NoneSilent()
    ensures SilentPolls([]) == {}
  {
  }

  lemma {:induction false} IdleCounts(polls: seq<Poll>)
    ensures Idle(polls) == |IdlePolls(polls)|
  {
    if polls != [] {
      var before, n := polls[..|polls| - 1], |polls| - 1;
      IdleCounts(before);
      forall i: nat | i < n
        ensures IsIdle(polls, i) <==> IsIdle(before, i) && !polls[n].Message? && !polls[n].Eof?
      {
        OnePollLater(polls, i);
      }
      assert IsIdle(polls, n) <==> polls[n].Nothing? && Eof !in before by { assert polls == before + [polls[n]]; }
      hide IsIdle;
      if polls[n].Message? || polls[n].Eof? {
        assert IdlePolls(polls) == {};
      } else if polls[n].Nothing? && Eof !in before {
        assert IdlePolls(polls) == IdlePolls(before) + {n};
      } else {
        assert IdlePolls(polls) == IdlePolls(before);
      }
    }
  }

  function MaxSilence(maxSilenceLoops: int): (n: nat)
    ensures n > 0
  {
    if maxSilenceLoops > 0 then maxSilenceLoops else 3
  }

  /** Nothing so far ends catch-up. */
  ghost predicate GoesOn(polls: seq<Poll>, maxSilenceLoops: int) {
    Failed !in polls && |SilentPolls(polls)| < MaxSilence(maxSilenceLoops) && |IdlePolls(polls)| <= MAX_IDLE_POLLS
  }

  lemma LastPoll(polls: seq<Poll>, i: nat)
    requires i < |polls|
    ensures polls[..i + 1][..i] == polls[..i] && polls[..i + 1][i] == polls[i]
    ensures Silence(polls[..0]) == 0 && Idle(polls[..0]) == 0
  {
    assert polls[..0] == [];
  }

  /** Catch-up from the offset the time query gave.  It ends well after some empty polls behind the end of
      the partition, or when its time is up, here when `polls` is; only then is the offset to save. */
  method RunCatchup(idx: KVIndex, conv: Conv, queried: int, polls: seq<Poll>, maxSilenceLoops: int)
    returns (saved: Option<int>, used: nat)
    requires WellFormed(idx.schema) && PollsUnique(polls)
    modifies idx
    ensures used <= |polls|
    ensures idx.Seen() == ApplyAll(idx.schema, conv, old(idx.Seen()), Records(polls[..used]))
    ensures saved.Some? ==> saved.value == LastOffset(Records(polls[..used]), CatchupStart(queried) - 1)
    ensures forall k :: 0 <= k < used ==> GoesOn(polls[..k], maxSilenceLoops)
    ensures saved.Some? ==> (GoesOn(polls[..used], maxSilenceLoops) && used == |polls|)
                            || (Failed !in polls[..used] && |SilentPolls(polls[..used])| == if maxSilenceLoops > 0 then maxSilenceLoops else 3)
    ensures saved.None? ==> used > 0 && (polls[used - 1].Failed? || |IdlePolls(polls[..used])| > 50_000)
  {
    hide ApplyAll, Records, ApplyItems, LastOffset, GoesOn;
    NoPolls(idx.schema, conv, idx.Seen(), polls);
    var last := CatchupStart(queried) - 1;
    var silence, sawEof, idlePolls := 0, false, 0;
    var maxLoops := MaxSilence(maxSilenceLoops);
    used := 0;
    StartsQuiet(polls, maxSilenceLoops);
    while used < |polls|
      invariant 0 <= used <= |polls|
      invariant idx.Seen() == ApplyAll(idx.schema, conv, old(idx.Seen()), Records(polls[..used]))
      invariant last == LastOffset(Records(polls[..used]), CatchupStart(queried) - 1)
      invariant Failed !in polls[..used] && (sawEof <==> Eof in polls[..used])
      invariant silence == Silence(polls[..used]) < maxLoops && idlePolls == Idle(polls[..used]) <= MAX_IDLE_POLLS
      invariant forall k :: 0 <= k <= used ==> GoesOn(polls[..k], maxSilenceLoops)
    {
      LastPoll(polls, used);
      QuietSoFar(polls, used + 1, maxSilenceLoops);
      OneMorePoll(idx.schema, conv, old(idx.Seen()), polls, used);
      assert polls[..used + 1] == polls[..used] + [polls[used]];
      var poll := polls[used];
      used := used + 1;
      match poll
      case Nothing =>
        if sawEof {
          silence := silence + 1;
          if silence >= maxLoops { break; }
        } else {
          idlePolls := idlePolls + 1;
          if idlePolls > MAX_IDLE_POLLS { return None, used; }
        }
      case Eof =>
        idlePolls := 0;
        sawEof := true;
      case Failed =>
        return None, used;
      case Message(record) =>
        idlePolls := 0;
        silence := 0;
        ApplyPayload(idx, conv, record.payload);
        last := record.offset;
    }
    saved := Some(last);
  }

  lemma StartsQuiet(polls: seq<Poll>, maxSilenceLoops: int)
    ensures GoesOn(polls[..0], maxSilenceLoops) && Silence(polls[..0]) == 0 && Idle(polls[..0]) == 0
  {
    assert polls[..0] == [];
    assert SilentPolls([]) == {} && IdlePolls([]) == {};
  }

  lemma QuietSoFar(polls: seq<Poll>, k: nat, maxSilenceLoops: int)
    requires k <= |polls|
    ensures GoesOn(polls[..k], maxSilenceLoops)
       <==> Failed !in polls[..k] && Silence(polls[..k]) < MaxSilence(maxSilenceLoops) && Idle(polls[..k]) <= MAX_IDLE_POLLS
    ensures Silence(polls[..k]) == |SilentPolls(polls[..k])| && Idle(polls[..k]) == |IdlePolls(polls[..k])|
  {
    SilenceCounts(polls[..k]);
    IdleCounts(polls[..k]);
  }

  /** No message at or after the watermark is reported as a negative offset, and read as the beginning. */
  function CatchupStart(queried: int): int {
    if queried < 0 then BEGINNING else queried
  }

  // ---- Where a consumer resumes ----

  predicate Ordered(log: seq<Record>) {
    forall i, j :: 0 <= i < j < |log| ==> log[i].offset < log[j].offset
  }

  /** The first message a consumer started at `start` gets; offsets may have gaps. */
  function Seek(log: seq<Record>, start: int): (i: nat)
    requires start >= 0 || start == BEGINNING
    ensures i <= |log|
    ensures forall j :: 0 <= j < i ==> log[j].offset < start
    ensures i < |log| ==> log[i].offset >= start
  {
    if log == [] then 0
    else if log[0].offset >= start then 0
    else 1 + Seek(log[1..], start)
  }

  lemma SeekIs(log: seq<Record>, start: int, i: nat)
    requires start >= 0 || start == BEGINNING
    requires Ordered(log) && i <= |log|
    requires (i > 0 ==> log[i - 1].offset < start) && (i < |log| ==> log[i].offset >= start)
    ensures Seek(log, start) == i
  {
  }

  /** The offset saved after message `i` makes the next consumer start with message `i + 1`. */
  lemma ResumesAfter(log: seq<Record>, i: nat)
    requires Ordered(log) && i < |log|
    ensures Seek(log, LoadOffset(Some(log[i].offset))) == i + 1
  {
    SeekIs(log, LoadOffset(Some(log[i].offset)), i + 1);
  }

  lemma LastOf(log: seq<Record>, first: nat, n: nat, otherwise: int)
    requires first + n <= |log|
    ensures LastOffset(log[first..first + n], otherwise) == if n > 0 then log[first + n - 1].offset else otherwise
  {
  }

  lemma HandsOverNothing(log: seq<Record>, start: int, first: nat)
    requires Ordered(log) && (start >= 0 || start == BEGINNING) && Seek(log, start) == first
    ensures Seek(log, LoadOffset(Some(start - 1))) == first
  {
    hide Seek;
    SeekIs(log, LoadOffset(Some(start - 1)), first);
  }

  /** Catch-up hands over to the consumer without a gap and without a repeat, even if it saw no message. */
  lemma CatchupHandsOver(log: seq<Record>, queried: int, n: nat)
    requires Ordered(log)
    requires var first := Seek(log, CatchupStart(queried)); first + n <= |log|
    ensures var first := Seek(log, CatchupStart(queried));
            var saved := LastOffset(log[first..first + n], CatchupStart(queried) - 1);
            Seek(log, LoadOffset(Some(saved))) == first + n
  {
    hide Seek, LastOffset, LoadOffset, Ordered;
    var first := Seek(log, CatchupStart(queried));
    LastOf(log, first, n, CatchupStart(queried) - 1);
    if n > 0 {
      ResumesAfter(log, first + n - 1);
    } else {
      HandsOverNothing(log, CatchupStart(queried), first);
    }
  }

  /** What a query by time answers: the offset of the first message not older than the watermark, here
      message `since`, or a negative number if all messages are older. */
  predicate IsAnswer(log: seq<Record>, since: nat, queried: int) {
    since <= |log| && if since < |log| then queried == log[since].offset else queried < 0
  }

  /** Catch-up starts at the first message not older than the watermark if and only if there is one, or there
      are no messages at all; with nothing new since the watermark it starts over at the very first message. */
  lemma CatchupStartsRight(log: seq<Record>, since: nat, queried: int)
    requires Ordered(log) && IsAnswer(log, since, queried)
    ensures Seek(log, CatchupStart(queried)) == since <==> since < |log| || log == []
    ensures since == |log| ==> Seek(log, CatchupStart(queried)) == 0
  {
    if since < |log| { SeekIs(log, queried, since); }
  }
}
