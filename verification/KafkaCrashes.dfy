/** Catch-up runs and consumer sessions in any order, with stops, errors, offset writes that fail and crashes,
    one session at a time and with offset writes that happen whole or not at all: which messages are taken
    up, how often, and where. */
module KafkaCrashes {
  import opened Wrappers
  import opened Ingest
  import opened IngestOps
  import opened Replay
  import opened Kafka

  /** A consumer saves its offset after every message, but goes on if it cannot; catch-up saves at its end. */
  datatype Kind = Consumer | Catchup

  /** `Waiting` for a message, having applied the first `done` objects of one, or about to save its offset. */
  datatype Place = Waiting | Applying(done: nat) | Saving

  /** `start` is the first message taken up and not saved, `pos` the one to be taken up, or in hand; `from`
      the offset a catch-up run was started at. */
  datatype Session = Down | Up(kind: Kind, start: nat, pos: nat, place: Place, from: int)

  /** Below `session` everything is only recorded: all messages taken up, in order; those whose work was
      `lost` because the session ended without saving it; the message the saved offset counts from; those
      saved `earlier`, before a catch-up run saved an offset of its own; the message the store was ready for
      at first; the one the last session ended at; and whether every session started at or before the one
      the session before it had ended at, and not before the base. */
  datatype State = State(
    log: seq<Record>,
    store: Store,
    file: Option<int>,
    session: Session,
    begun: seq<nat>,
    lost: multiset<nat>,
    origin: nat,
    earlier: multiset<nat>,
    base: nat,
    at: nat,
    inLine: bool)

  datatype Event =
    | StartConsumer
    | StartCatchup(queried: int)
    | Take
    | ApplyOne
    | AllApplied
    | Save
    | SaveFails
    | Finish
    | Stop
    | Crash

  /** Where the next consumer starts. */
  function Pending(s: State): (i: nat)
    ensures i <= |s.log|
  {
    Seek(s.log, LoadOffset(s.file))
  }

  function Range(from: nat, to: nat): (r: seq<nat>)
    requires from <= to
    ensures |r| == to - from && forall i :: 0 <= i < |r| ==> r[i] == from + i
  {
    seq(to - from, i => from + i)
  }

  /** The messages a session has taken up and not saved. */
  function Unsaved(session: Session): multiset<nat> {
    if session.Down? || session.pos < session.start then multiset{}
    else multiset(Range(session.start, session.pos)) + if session.place.Waiting? then multiset{} else multiset{session.pos}
  }

  /** Where a session gets to before it ends: the message it has not wholly applied. */
  function EndsAt(session: Session): nat
    requires session.Up?
  {
    session.pos + if session.place.Saving? then 1 else 0
  }

  function Begin(s: State, session: Session): State
    requires session.Up?
  {
    s.(session := session, inLine := s.inLine && s.base <= session.start <= s.at)
  }

  /** The session ends without saving what it has in hand: by a crash, with an error, or because it could not. */
  function EndSession(s: State): State
    requires s.session.Up?
  {
    s.(session := Down, lost := s.lost + Unsaved(s.session), at := EndsAt(s.session))
  }

  ghost function Next(schema: Schema, conv: Conv, s: State, e: Event): (z: Option<State>)
    requires StoreFits(schema, s.store)
    ensures z.Some? ==> StoreFits(schema, z.value.store)
  {
    var session := s.session;
    match e
    case StartConsumer =>
      if session.Up? then None
      else Some(Begin(s, Up(Consumer, Pending(s), Pending(s), Waiting, 0)))
    case StartCatchup(queried) =>
      if session.Up? then None
      else
        var first := Seek(s.log, CatchupStart(queried));
        Some(Begin(s, Up(Catchup, first, first, Waiting, CatchupStart(queried))))
    case Take =>
      if session.Up? && session.place.Waiting? && session.pos < |s.log| then
        Some(s.(session := session.(place := Applying(0)), begun := s.begun + [session.pos]))
      else None
    case ApplyOne =>
      if session.Up? && session.place.Applying? && session.pos < |s.log| && session.place.done < |s.log[session.pos].Items()| then
        var items := s.log[session.pos].Items();
        var (thrown, after) := ApplyItems(schema, conv, s.store, [items[session.place.done]]);
        Some(s.(store := after, session := session.(place := Applying(if thrown then |items| else session.place.done + 1))))
      else None
    case AllApplied =>
      if session.Up? && session.place.Applying? && session.pos < |s.log| && session.place.done == |s.log[session.pos].Items()| then
        Some(s.(session := if session.kind.Consumer? then session.(place := Saving)
                           else session.(pos := session.pos + 1, place := Waiting)))
      else None
    case Save =>
      if session.Up? && session.kind.Consumer? && session.place.Saving? && session.pos < |s.log| then
        Some(s.(file := Some(s.log[session.pos].offset),
                session := session.(start := session.pos + 1, pos := session.pos + 1, place := Waiting)))
      else None
    case SaveFails =>
      if session.Up? && session.kind.Consumer? && session.place.Saving? && session.pos < |s.log| then
        Some(s.(session := session.(pos := session.pos + 1, place := Waiting)))
      else None
    case Finish =>
      if session.Up? && session.kind.Catchup? && session.place.Waiting? && session.start <= session.pos <= |s.log|
         && s.origin <= Pending(s) then
        Some(s.(file := Some(LastOffset(s.log[session.start..session.pos], session.from - 1)),
                session := Down,
                at := session.pos,
                earlier := s.earlier + multiset(Range(s.origin, Pending(s))),
                origin := session.start))
      else None
    case Stop =>
      if session.Up? && session.kind.Consumer? && session.place.Waiting? then Some(EndSession(s))
      else None
    case Crash =>
      if session.Up? then Some(EndSession(s)) else None
  }

  ghost function Run(schema: Schema, conv: Conv, s: State, events: seq<Event>): Option<State>
    requires StoreFits(schema, s.store)
    decreases |events|
  {
    if events == [] then Some(s)
    else
      var z := Next(schema, conv, s, events[0]);
      if z.None? then None else Run(schema, conv, z.value, events[1..])
  }

  /** The store is ready for the messages from the base on. */
  function Fresh(log: seq<Record>, store: Store, file: Option<int>, base: nat): State {
    State(log, store, file, Down, [], multiset{}, Seek(log, LoadOffset(file)), multiset{}, base, base, true)
  }

  // ---- Every message taken up is accounted for ----

  predicate SessionOk(s: State) {
    s.session.Up? ==>
      && s.session.start <= s.session.pos <= |s.log|
      && (!s.session.place.Waiting? ==> s.session.pos < |s.log|)
      && (s.session.place.Applying? && s.session.pos < |s.log| ==> s.session.place.done <= |s.log[s.session.pos].Items()|)
      && (s.session.kind.Consumer? ==> s.session.start == Pending(s))
      && (s.session.kind.Catchup? ==>
            && !s.session.place.Saving? && (s.session.from >= 0 || s.session.from == BEGINNING)
            && s.session.start == Seek(s.log, s.session.from))
  }

  /** The messages from the origin up to the saved offset, each once, those saved before, those whose work
      was lost, and those in hand: that is all that was ever taken up. */
  ghost predicate Accounted(s: State) {
    && Ordered(s.log) && s.origin <= Pending(s) && SessionOk(s)
    && multiset(s.begun) == multiset(Range(s.origin, Pending(s))) + s.earlier + s.lost + Unsaved(s.session)
  }

  lemma RangeOneMore(from: nat, to: nat)
    requires from <= to
    ensures Range(from, to + 1) == Range(from, to) + [to] && Range(to, to) == []
  {
  }

  lemma Pushed(begun: seq<nat>, i: nat)
    ensures multiset(begun + [i]) == multiset(begun) + multiset{i}
  {
  }

  lemma Joined(p: seq<nat>, q: seq<nat>)
    ensures multiset(p + q) == multiset(p) + multiset(q)
  {
  }

  lemma SaveMoves(s: State, file: Option<int>, i: nat)
    requires Ordered(s.log) && i < |s.log| && file == Some(s.log[i].offset)
    ensures Pending(s.(file := file)) == i + 1
  {
    hide Seek;
    ResumesAfter(s.log, i);
  }

  lemma FinishMoves(s: State, queried: int, n: nat)
    requires Ordered(s.log) && (queried >= 0 || queried == BEGINNING) && Seek(s.log, queried) + n <= |s.log|
    ensures var first := Seek(s.log, queried);
            Pending(s.(file := Some(LastOffset(s.log[first..first + n], queried - 1)))) == first + n
  {
    hide Seek, LoadOffset, LastOffset;
    CatchupHandsOver(s.log, queried, n);
  }

  lemma StartsAccounted(schema: Schema, conv: Conv, s: State, e: Event)
    requires StoreFits(schema, s.store) && Accounted(s) && (e.StartConsumer? || e.StartCatchup?) && Next(schema, conv, s, e).Some?
    ensures Accounted(Next(schema, conv, s, e).value)
  {
    hide Seek, LoadOffset, ApplyItems, LastOffset;
    var z := Next(schema, conv, s, e).value;
    assert Pending(z) == Pending(s);
    RangeOneMore(z.session.start, z.session.start);
    assert Unsaved(z.session) == multiset{};
  }

  lemma TakeAccounted(schema: Schema, conv: Conv, s: State)
    requires StoreFits(schema, s.store) && Accounted(s) && Next(schema, conv, s, Take).Some?
    ensures Accounted(Next(schema, conv, s, Take).value)
  {
    hide Seek, LoadOffset, ApplyItems, LastOffset, Range;
    assert Pending(Next(schema, conv, s, Take).value) == Pending(s);
    Pushed(s.begun, s.session.pos);
  }

  lemma ApplyAccounted(schema: Schema, conv: Conv, s: State)
    requires StoreFits(schema, s.store) && Accounted(s) && Next(schema, conv, s, ApplyOne).Some?
    ensures Accounted(Next(schema, conv, s, ApplyOne).value)
  {
    hide Seek, LoadOffset, ApplyItems, LastOffset, Range;
    var z := Next(schema, conv, s, ApplyOne).value;
    assert Pending(z) == Pending(s) && Unsaved(z.session) == Unsaved(s.session);
  }

  lemma UnsavedStays(session: Session)
    requires session.Up? && !session.place.Waiting? && session.start <= session.pos
    ensures Unsaved(session.(place := Saving)) == Unsaved(session)
    ensures Unsaved(session.(pos := session.pos + 1, place := Waiting)) == Unsaved(session)
  {
    hide Range;
    RangeOneMore(session.start, session.pos);
    Pushed(Range(session.start, session.pos), session.pos);
  }

  lemma FailsAccounted(schema: Schema, conv: Conv, s: State)
    requires StoreFits(schema, s.store) && Accounted(s) && Next(schema, conv, s, SaveFails).Some?
    ensures Accounted(Next(schema, conv, s, SaveFails).value)
  {
    hide Seek, LoadOffset, ApplyItems, LastOffset, Range, Unsaved, StoreFits, Ordered;
    assert Pending(Next(schema, conv, s, SaveFails).value) == Pending(s);
    UnsavedStays(s.session);
  }

  lemma AppliedAccounted(schema: Schema, conv: Conv, s: State)
    requires StoreFits(schema, s.store) && Accounted(s) && Next(schema, conv, s, AllApplied).Some?
    ensures Accounted(Next(schema, conv, s, AllApplied).value)
  {
    hide Seek, LoadOffset, ApplyItems, LastOffset, Range, Unsaved;
    assert Pending(Next(schema, conv, s, AllApplied).value) == Pending(s);
    UnsavedStays(s.session);
  }

  lemma RangeJoin(from: nat, mid: nat, upTo: nat)
    requires from <= mid <= upTo
    ensures Range(from, upTo) == Range(from, mid) + Range(mid, upTo)
  {
  }

  lemma SavedSum(origin: nat, start: nat, pos: nat)
    requires origin <= start <= pos
    ensures multiset(Range(origin, start)) + (multiset(Range(start, pos)) + multiset{pos}) == multiset(Range(origin, pos + 1))
  {
    hide Range;
    RangeJoin(origin, start, pos);
    Joined(Range(origin, start), Range(start, pos));
    RangeOneMore(origin, pos);
    Pushed(Range(origin, pos), pos);
  }

  lemma SavedUnsaved(session: Session)
    requires session.Up? && session.place.Saving? && session.start <= session.pos
    ensures Unsaved(session) == multiset(Range(session.start, session.pos)) + multiset{session.pos}
    ensures Unsaved(session.(start := session.pos + 1, pos := session.pos + 1, place := Waiting)) == multiset{}
  {
    RangeOneMore(session.pos + 1, session.pos + 1);
  }

  lemma FinishFrees(s: State)
    requires s.session.Up? && s.session.place.Waiting? && s.session.start <= s.session.pos
    ensures Unsaved(s.session) == multiset(Range(s.session.start, s.session.pos)) && Unsaved(Down) == multiset{}
  {
  }

  lemma SavesAccounted(schema: Schema, conv: Conv, s: State)
    requires StoreFits(schema, s.store) && Accounted(s) && Next(schema, conv, s, Save).Some?
    ensures Accounted(Next(schema, conv, s, Save).value)
  {
    hide Seek, LoadOffset, ApplyItems, LastOffset, Range, Unsaved, StoreFits, Ordered;
    var z := Next(schema, conv, s, Save).value;
    SaveMoves(s, z.file, s.session.pos);
    assert Pending(z) == s.session.pos + 1;
    SavedUnsaved(s.session);
    SavedSum(s.origin, s.session.start, s.session.pos);
    var all := multiset(Range(s.origin, s.session.start)) + Unsaved(s.session);
    assert multiset(s.begun) == all + s.earlier + s.lost;
    assert all == multiset(Range(z.origin, Pending(z)));
  }

  lemma FinishesAccounted(schema: Schema, conv: Conv, s: State)
    requires StoreFits(schema, s.store) && Accounted(s) && Next(schema, conv, s, Finish).Some?
    ensures Accounted(Next(schema, conv, s, Finish).value)
  {
    hide Seek, LoadOffset, ApplyItems, LastOffset, Range, Unsaved, StoreFits, Ordered;
    var z := Next(schema, conv, s, Finish).value;
    FinishFrees(s);
    FinishMoves(s, s.session.from, s.session.pos - s.session.start);
    assert s.session.start + (s.session.pos - s.session.start) == s.session.pos;
    assert Pending(z) == s.session.pos;
  }

  lemma DownUnsaved()
    ensures Unsaved(Down) == multiset{}
  {
  }

  lemma EndsAccounted(schema: Schema, conv: Conv, s: State, e: Event)
    requires StoreFits(schema, s.store) && Accounted(s) && (e.Stop? || e.Crash?) && Next(schema, conv, s, e).Some?
    ensures Accounted(Next(schema, conv, s, e).value)
  {
    hide Seek, LoadOffset, ApplyItems, LastOffset, Range, Unsaved, StoreFits;
    var z := Next(schema, conv, s, e).value;
    assert Pending(z) == Pending(s);
    DownUnsaved();
  }

  lemma StepAccounted(schema: Schema, conv: Conv, s: State, e: Event)
    requires StoreFits(schema, s.store) && Accounted(s) && Next(schema, conv, s, e).Some?
    ensures Accounted(Next(schema, conv, s, e).value)
  {
    hide Next, Accounted;
    match e
    case StartConsumer | StartCatchup(_) => StartsAccounted(schema, conv, s, e);
    case Take => TakeAccounted(schema, conv, s);
    case ApplyOne => ApplyAccounted(schema, conv, s);
    case AllApplied => AppliedAccounted(schema, conv, s);
    case Save => SavesAccounted(schema, conv, s);
    case SaveFails => FailsAccounted(schema, conv, s);
    case Finish => FinishesAccounted(schema, conv, s);
    case Stop | Crash => EndsAccounted(schema, conv, s, e);
  }

  lemma {:induction false} RunAccounted(schema: Schema, conv: Conv, s: State, events: seq<Event>)
    requires StoreFits(schema, s.store) && Accounted(s) && Run(schema, conv, s, events).Some?
    ensures Accounted(Run(schema, conv, s, events).value)
    decreases |events|
  {
    hide Next, Accounted;
    if events != [] {
      StepAccounted(schema, conv, s, events[0]);
      RunAccounted(schema, conv, Next(schema, conv, s, events[0]).value, events[1..]);
    }
  }

  lemma FreshAccounted(log: seq<Record>, store: Store, file: Option<int>, base: nat)
    requires Ordered(log)
    ensures Accounted(Fresh(log, store, file, base))
  {
    hide Seek, LoadOffset;
    RangeOneMore(Fresh(log, store, file, base).origin, Fresh(log, store, file, base).origin);
  }

  function CountIn(from: nat, to: nat, i: nat): nat {
    if from <= i < to then 1 else 0
  }

  lemma {:induction false} RangeCounts(from: nat, upTo: nat, i: nat)
    requires from <= upTo
    ensures multiset(Range(from, upTo))[i] == CountIn(from, upTo, i)
    decreases upTo - from
  {
    if from < upTo {
      RangeCounts(from, upTo - 1, i);
      RangeOneMore(from, upTo - 1);
    } else {
      assert Range(from, upTo) == [];
    }
  }

  /** Offset protocol, over all runs of catch-up and consumers in any order: how often each message has been
      taken up.  Once if it lies between the origin and the saved offset, so that none there is passed over;
      once for each time the work on it was lost, for each time it was saved earlier, and once if in hand. */
  lemma TimesTaken(schema: Schema, conv: Conv, log: seq<Record>, store0: Store, file: Option<int>, base: nat, events: seq<Event>, i: nat)
    requires StoreFits(schema, store0) && Ordered(log)
    requires Run(schema, conv, Fresh(log, store0, file, base), events).Some?
    ensures var z := Run(schema, conv, Fresh(log, store0, file, base), events).value;
            && z.origin <= Pending(z) && (z.session.Up? && z.session.kind.Consumer? ==> z.session.start == Pending(z))
            && multiset(z.begun)[i] == CountIn(z.origin, Pending(z), i) + z.earlier[i] + z.lost[i] + Unsaved(z.session)[i]
  {
    hide Run, Pending;
    var s := Fresh(log, store0, file, base);
    FreshAccounted(log, store0, file, base);
    RunAccounted(schema, conv, s, events);
    var z := Run(schema, conv, s, events).value;
    RangeCounts(z.origin, Pending(z), i);
  }

  /** What is lost: nothing until a session ends without saving, and then what it has taken up since its
      start or since its last successful save, that is, of a consumer whose saves succeed at most the one
      message it is working on, and of a catch-up run everything. */
  lemma WhatIsLost(schema: Schema, conv: Conv, s: State, e: Event, i: nat)
    requires StoreFits(schema, s.store) && Accounted(s) && Next(schema, conv, s, e).Some?
    ensures var z := Next(schema, conv, s, e).value;
            && z.lost == s.lost + (if e.Crash? || e.Stop? then Unsaved(s.session) else multiset{})
            && (s.session.Up? ==> Unsaved(s.session)[i] == CountIn(s.session.start, Taken(s.session), i))
  {
    hide Seek, LoadOffset, ApplyItems, LastOffset, Unsaved, Range, StoreFits, CountIn;
    if s.session.Up? { InHandIs(s.session, i); }
  }

  /** The first message not taken up by the session. */
  function Taken(session: Session): nat
    requires session.Up?
  {
    session.pos + if session.place.Waiting? then 0 else 1
  }

  lemma InHandIs(session: Session, i: nat)
    requires session.Up? && session.start <= session.pos
    ensures Unsaved(session)[i] == CountIn(session.start, Taken(session), i)
  {
    hide Range;
    RangeCounts(session.start, session.pos, i);
  }

  /** What was saved earlier: nothing, until a catch-up run saves an offset; then all that was saved before. */
  lemma WhatIsEarlier(schema: Schema, conv: Conv, s: State, e: Event)
    requires StoreFits(schema, s.store) && Accounted(s) && Next(schema, conv, s, e).Some?
    ensures var z := Next(schema, conv, s, e).value;
            if e.Finish? then
              && z.origin == s.session.start && Pending(z) == s.session.pos
              && z.earlier == s.earlier + multiset(Range(s.origin, Pending(s)))
            else
              z.origin == s.origin && z.earlier == s.earlier
  {
    hide Seek, LoadOffset, ApplyItems, LastOffset, Range, Unsaved, StoreFits, Ordered;
    if e.Finish? {
      FinishMoves(s, s.session.from, s.session.pos - s.session.start);
      assert s.session.start + (s.session.pos - s.session.start) == s.session.pos;
    }
  }

  /** How far a session got when it ended: never short of the saved offset, so that a consumer goes on in
      line, unless it was a catch-up run that died before it was back there. */
  lemma EndsInLine(schema: Schema, conv: Conv, s: State, e: Event)
    requires StoreFits(schema, s.store) && Accounted(s) && Next(schema, conv, s, e).Some?
    requires s.session.Up? && Next(schema, conv, s, e).value.session.Down?
    ensures var z := Next(schema, conv, s, e).value;
            && z.at == EndsAt(s.session)
            && (Pending(z) <= z.at <==> !(e.Crash? && s.session.kind.Catchup? && s.session.pos < Pending(s)))
  {
    hide Seek, LoadOffset, ApplyItems, LastOffset, Range, Unsaved, StoreFits, Ordered;
    if e.Finish? {
      FinishMoves(s, s.session.from, s.session.pos - s.session.start);
      assert s.session.start + (s.session.pos - s.session.start) == s.session.pos;
    } else {
      assert Pending(Next(schema, conv, s, e).value) == Pending(s);
    }
  }

  predicate NoCatchup(events: seq<Event>) {
    forall e :: e in events ==> !e.StartCatchup?
  }

  predicate SavesSucceed(events: seq<Event>) {
    forall e :: e in events ==> !e.SaveFails?
  }

  /** Consumers that can save never go back: messages are taken up in order, and only the one in flight when
      a session ends again. */
  ghost predicate Forward(s: State) {
    && InOrder(s.begun, Pending(s))
    && (s.session.Up? ==> s.session.kind.Consumer? && s.session.start == s.session.pos)
  }

  lemma StepForward(schema: Schema, conv: Conv, s: State, e: Event)
    requires StoreFits(schema, s.store) && Accounted(s) && Forward(s) && !e.StartCatchup? && !e.SaveFails?
    requires Next(schema, conv, s, e).Some?
    ensures Forward(Next(schema, conv, s, e).value)
  {
    hide Seek, LoadOffset, ApplyItems, LastOffset, Range, Unsaved, StoreFits, InOrder;
    var z := Next(schema, conv, s, e).value;
    if e.Save? {
      SaveMoves(s, z.file, s.session.pos);
      assert Pending(z) == s.session.pos + 1;
      OrderMore(s.begun, s.session.pos);
    } else {
      assert Pending(z) == Pending(s);
      if e.Take? { OrderMore(s.begun, s.session.pos); }
    }
  }

  predicate InOrder(begun: seq<nat>, limit: nat) {
    && (forall i, j :: 0 <= i < j < |begun| ==> begun[i] <= begun[j])
    && (begun != [] ==> begun[|begun| - 1] <= limit)
  }

  lemma OrderMore(begun: seq<nat>, i: nat)
    requires InOrder(begun, i)
    ensures InOrder(begun + [i], i) && InOrder(begun, i + 1)
  {
  }

  lemma {:induction false} RunForward(schema: Schema, conv: Conv, s: State, events: seq<Event>)
    requires StoreFits(schema, s.store) && Accounted(s) && Forward(s) && NoCatchup(events) && SavesSucceed(events)
    requires Run(schema, conv, s, events).Some?
    ensures Forward(Run(schema, conv, s, events).value)
    decreases |events|
  {
    hide Next, Accounted, Forward;
    if events != [] {
      StepAccounted(schema, conv, s, events[0]);
      StepForward(schema, conv, s, events[0]);
      RunForward(schema, conv, Next(schema, conv, s, events[0]).value, events[1..]);
    }
  }

  /** Nothing but consumers so far. */
  predicate Plain(s: State) {
    s.earlier == multiset{} && (s.session.Up? ==> s.session.kind.Consumer?)
  }

  lemma {:induction false} RunPlain(schema: Schema, conv: Conv, s: State, events: seq<Event>)
    requires StoreFits(schema, s.store) && Plain(s) && NoCatchup(events) && Run(schema, conv, s, events).Some?
    ensures Plain(Run(schema, conv, s, events).value) && Run(schema, conv, s, events).value.origin == s.origin
    decreases |events|
  {
    if events != [] {
      hide Seek, LoadOffset, ApplyItems, LastOffset, Range, Unsaved, StoreFits;
      RunPlain(schema, conv, Next(schema, conv, s, events[0]).value, events[1..]);
    }
  }

  /** Over all runs of consumer sessions: a message is taken up once if it is finished, once for each time it
      was lost in flight, and once if it is in flight now; and, as long as offsets can be written, never after
      a later one. */
  lemma NoGaps(schema: Schema, conv: Conv, log: seq<Record>, store0: Store, file: Option<int>, base: nat, events: seq<Event>, i: nat)
    requires StoreFits(schema, store0) && Ordered(log) && NoCatchup(events)
    requires Run(schema, conv, Fresh(log, store0, file, base), events).Some?
    ensures var s := Fresh(log, store0, file, base);
            var z := Run(schema, conv, s, events).value;
            && multiset(z.begun)[i]
               == CountIn(Pending(s), Pending(z), i) + z.lost[i]
                  + (if z.session.Up? then CountIn(Pending(z), Taken(z.session), i) else 0)
            && (SavesSucceed(events) ==>
                  && (z.session.Up? ==> z.session.pos == Pending(z))
                  && forall j, k :: 0 <= j < k < |z.begun| ==> z.begun[j] <= z.begun[k])
  {
    hide Run, Pending, Range, StoreFits, Ordered, NoCatchup, SavesSucceed, Unsaved;
    var s := Fresh(log, store0, file, base);
    FreshAccounted(log, store0, file, base);
    TimesTaken(schema, conv, log, store0, file, base, events, i);
    RunPlain(schema, conv, s, events);
    RunAccounted(schema, conv, s, events);
    var z := Run(schema, conv, s, events).value;
    if SavesSucceed(events) { RunForward(schema, conv, s, events); }
    if z.session.Up? { InHandIs(z.session, i); } else { DownUnsaved(); }
  }
}
