/** What catch-up runs and consumer sessions leave in the store, over stops, errors and crashes: the same as
    one uninterrupted session, as long as each starts where the one before it ended, or further back. */
module KafkaStores {
  import opened Wrappers
  import opened Ingest
  import opened IngestOps
  import opened Replay
  import opened ReplayLimits
  import opened Kafka
  import opened KafkaCrashes

  predicate LogSafe(schema: Schema, conv: Conv, log: seq<Record>) {
    forall i :: 0 <= i < |log| ==> AllSafe(schema, conv, log[i].Items())
  }

  /** The messages of the log are among all those the store has to be ready for. */
  predicate LogIn(log: seq<Record>, all: seq<Members>) {
    forall i :: 0 <= i < |log| ==> AllIn(log[i].Items(), all)
  }

  function AllItems(log: seq<Record>): seq<Members> {
    if log == [] then [] else AllItems(log[..|log| - 1]) + log[|log| - 1].Items()
  }

  lemma {:induction false} ItemsOfLog(log: seq<Record>)
    ensures LogIn(log, AllItems(log))
  {
    if log != [] {
      var init := log[..|log| - 1];
      ItemsOfLog(init);
      forall i | 0 <= i < |log|
        ensures AllIn(log[i].Items(), AllItems(log))
      {
        if i < |init| { assert log[i] == init[i] && AllIn(init[i].Items(), AllItems(init)); }
      }
    }
  }

  /** The objects of a message up to the first one that throws. */
  function CalmPart(schema: Schema, conv: Conv, held: set<string>, items: seq<Members>): (calm: seq<Members>)
    ensures calm <= items
  {
    items[..FirstThrow(schema, conv, held, items)]
  }

  /** All objects that make a difference, one message after the other. */
  function Stream(schema: Schema, conv: Conv, held: set<string>, log: seq<Record>): seq<Members> {
    if log == [] then []
    else Stream(schema, conv, held, log[..|log| - 1]) + CalmPart(schema, conv, held, log[|log| - 1].Items())
  }

  lemma {:induction false} StreamAppend(schema: Schema, conv: Conv, held: set<string>, p: seq<Record>, q: seq<Record>)
    ensures Stream(schema, conv, held, p + q) == Stream(schema, conv, held, p) + Stream(schema, conv, held, q)
    decreases |q|
  {
    hide CalmPart;
    if q == [] {
      assert p + q == p;
    } else {
      assert (p + q)[..|p + q| - 1] == p + q[..|q| - 1];
      StreamAppend(schema, conv, held, p, q[..|q| - 1]);
    }
  }

  lemma StreamOne(schema: Schema, conv: Conv, held: set<string>, record: Record)
    ensures Stream(schema, conv, held, [record]) == CalmPart(schema, conv, held, record.Items())
    ensures Stream(schema, conv, held, []) == []
  {
    hide CalmPart;
    assert [record][..0] == [];
  }

  /** One message more in front. */
  lemma StreamFrom(schema: Schema, conv: Conv, held: set<string>, log: seq<Record>, i: nat, m: nat)
    requires i < m <= |log|
    ensures Stream(schema, conv, held, log[i..m]) == CalmPart(schema, conv, held, log[i].Items()) + Stream(schema, conv, held, log[i + 1..m])
  {
    hide CalmPart, Stream;
    StreamOne(schema, conv, held, log[i]);
    StreamAppend(schema, conv, held, [log[i]], log[i + 1..m]);
    assert [log[i]] + log[i + 1..m] == log[i..m];
  }

  lemma {:induction false} StreamCalm(schema: Schema, conv: Conv, held: set<string>, all: seq<Members>, log: seq<Record>)
    requires LogSafe(schema, conv, log) && LogIn(log, all)
    ensures Calm(schema, conv, held, Stream(schema, conv, held, log)) && AllIn(Stream(schema, conv, held, log), all)
    decreases |log|
  {
    hide FirstThrow, AllSafe, Safe, Throws;
    if log != [] {
      var init, last := log[..|log| - 1], log[|log| - 1];
      assert forall i :: 0 <= i < |init| ==> init[i] == log[i];
      assert AllSafe(schema, conv, last.Items()) && AllIn(last.Items(), all);
      StreamCalm(schema, conv, held, all, init);
      FirstThrowIs(schema, conv, held, last.Items());
    }
  }

  lemma PartSafe(schema: Schema, conv: Conv, held: set<string>, all: seq<Members>, log: seq<Record>, i: nat, m: nat)
    requires LogSafe(schema, conv, log) && LogIn(log, all) && i <= m <= |log|
    ensures LogSafe(schema, conv, log[i..m]) && LogIn(log[i..m], all)
    ensures Calm(schema, conv, held, Stream(schema, conv, held, log[i..m])) && AllIn(Stream(schema, conv, held, log[i..m]), all)
  {
    hide AllSafe, Stream, Calm, AllIn;
    assert forall j :: 0 <= j < m - i ==> log[i..m][j] == log[i + j];
    StreamCalm(schema, conv, held, all, log[i..m]);
  }

  /** Applying messages is applying that stream. */
  lemma {:induction false} AllIsStream(schema: Schema, conv: Conv, held: set<string>, all: seq<Members>, store: Store, log: seq<Record>)
    requires Ready(schema, conv, held, all, store) && StoreFits(schema, store) && LogSafe(schema, conv, log) && LogIn(log, all)
    ensures ApplyAll(schema, conv, store, log) == ApplyItems(schema, conv, store, Stream(schema, conv, held, log)).1
    decreases |log|
  {
    hide ApplyItems, FirstThrow, AllSafe, Calm, IsFirstThrow, Ready, StoreFits;
    if log == [] {
      NoItems(schema, conv, store);
    } else {
      var init, last := log[..|log| - 1], log[|log| - 1].Items();
      assert forall i :: 0 <= i < |init| ==> init[i] == log[i];
      assert AllSafe(schema, conv, last) && AllIn(last, all);
      AllIsStream(schema, conv, held, all, store, init);
      FirstThrowIs(schema, conv, held, last);
      StreamCalm(schema, conv, held, all, init);
      CalmOf(schema, conv, held, last, all);
      ItemsAt(schema, conv, held, all, store, Stream(schema, conv, held, init), "");
      StopsThere(schema, conv, held, all, ApplyAll(schema, conv, store, init), last, FirstThrow(schema, conv, held, last));
      ItemsAppend(schema, conv, held, all, store, Stream(schema, conv, held, init), CalmPart(schema, conv, held, last));
    }
  }

  lemma CalmOf(schema: Schema, conv: Conv, held: set<string>, items: seq<Members>, all: seq<Members>)
    requires AllSafe(schema, conv, items) && AllIn(items, all)
    ensures Calm(schema, conv, held, CalmPart(schema, conv, held, items)) && AllIn(CalmPart(schema, conv, held, items), all)
    ensures var n := |CalmPart(schema, conv, held, items)|; n < |items| ==> Throws(schema, conv, held, items[n])
  {
    hide FirstThrow, AllSafe, Safe, Throws;
    FirstThrowIs(schema, conv, held, items);
  }

  // ---- Where the store is ----

  /** The store after the messages from the base up to `m`, without any crash. */
  ghost function Exact(schema: Schema, conv: Conv, store0: Store, s: State, m: nat): (e: Store)
    requires StoreFits(schema, store0) && s.base <= m <= |s.log|
    ensures StoreFits(schema, e)
  {
    ApplyAll(schema, conv, store0, s.log[s.base..m])
  }

  /** Everything taken up so far is before `m`. */
  predicate Ahead(s: State, m: nat) {
    s.base <= m <= |s.log| && forall i :: i in s.begun ==> i < m
  }

  /** The next message after the one in hand. */
  function Here(s: State): nat {
    if s.session.Down? then s.at else s.session.pos + if s.session.place.Waiting? then 0 else 1
  }

  /** The message the next session is to start at, at the latest, should this one end now. */
  function Back(s: State): nat {
    if s.session.Down? then s.at else s.session.pos
  }

  /** What is left to do of the message in hand. */
  function Rest(schema: Schema, conv: Conv, held: set<string>, s: State): seq<Members> {
    if s.session.Up? && s.session.place.Applying? && s.session.pos < |s.log| then
      var calm := CalmPart(schema, conv, held, s.log[s.session.pos].Items());
      if s.session.place.done <= |calm| then calm[s.session.place.done..] else []
    else []
  }

  /** The messages from `i` up to `m` bring the store to the exact one. */
  ghost predicate Makes(schema: Schema, conv: Conv, held: set<string>, s: State, exact: Store, i: nat, m: nat)
    requires StoreFits(schema, s.store)
  {
    i <= m <= |s.log| && ApplyItems(schema, conv, s.store, Stream(schema, conv, held, s.log[i..m])).1 == exact
  }

  /** So does going on from here, and so does going back to any message that was begun, and on from there. */
  ghost predicate OnCourse(schema: Schema, conv: Conv, held: set<string>, s: State, exact: Store, m: nat)
    requires StoreFits(schema, s.store)
  {
    && s.base <= Back(s) <= Here(s) <= m <= |s.log|
    && (s.session.Up? && s.session.place.Applying? && s.session.pos < |s.log| ==>
          var items := s.log[s.session.pos].Items();
          s.session.place.done <= |CalmPart(schema, conv, held, items)| || s.session.place.done == |items|)
    && ApplyItems(schema, conv, s.store, Rest(schema, conv, held, s) + Stream(schema, conv, held, s.log[Here(s)..m])).1 == exact
    && (forall i :: s.base <= i <= Back(s) ==> Makes(schema, conv, held, s, exact, i, m))
  }

  ghost predicate Sane(schema: Schema, conv: Conv, held: set<string>, all: seq<Members>, s: State) {
    && Ready(schema, conv, held, all, s.store) && StoreFits(schema, s.store)
    && LogSafe(schema, conv, s.log) && LogIn(s.log, all) && SessionOk(s)
  }

  lemma CourseStarts(schema: Schema, conv: Conv, held: set<string>, all: seq<Members>, s: State, e: Event, exact: Store, m: nat)
    requires Sane(schema, conv, held, all, s) && OnCourse(schema, conv, held, s, exact, m) && (e.StartConsumer? || e.StartCatchup?)
    requires Next(schema, conv, s, e).Some? && Next(schema, conv, s, e).value.inLine
    ensures OnCourse(schema, conv, held, Next(schema, conv, s, e).value, exact, m)
  {
    hide Seek, LoadOffset, ApplyItems, Stream, CalmPart, Ready, StoreFits, LogSafe, LogIn, Makes;
    var z := Next(schema, conv, s, e).value;
    assert Rest(schema, conv, held, z) == [] && Here(z) == Back(z) == z.session.start;
    forall i | s.base <= i <= Back(z)
      ensures Makes(schema, conv, held, z, exact, i, m)
    {
      MakesToo(schema, conv, held, s, z, exact, i, m);
    }
    MakesIs(schema, conv, held, z, exact, Here(z), m);
  }

  lemma MakesToo(schema: Schema, conv: Conv, held: set<string>, s: State, z: State, exact: Store, i: nat, m: nat)
    requires StoreFits(schema, s.store) && z.store == s.store && z.log == s.log && Makes(schema, conv, held, s, exact, i, m)
    ensures Makes(schema, conv, held, z, exact, i, m)
  {
  }

  lemma MakesIs(schema: Schema, conv: Conv, held: set<string>, s: State, exact: Store, i: nat, m: nat)
    requires StoreFits(schema, s.store) && i <= m <= |s.log|
    ensures Makes(schema, conv, held, s, exact, i, m)
       <==> ApplyItems(schema, conv, s.store, [] + Stream(schema, conv, held, s.log[i..m])).1 == exact
  {
    hide ApplyItems, Stream;
    assert [] + Stream(schema, conv, held, s.log[i..m]) == Stream(schema, conv, held, s.log[i..m]);
  }

  lemma CourseTake(schema: Schema, conv: Conv, held: set<string>, all: seq<Members>, s: State, exact: Store, m: nat)
    requires Sane(schema, conv, held, all, s) && OnCourse(schema, conv, held, s, exact, m) && Next(schema, conv, s, Take).Some?
    requires Ahead(Next(schema, conv, s, Take).value, m)
    ensures OnCourse(schema, conv, held, Next(schema, conv, s, Take).value, exact, m)
  {
    hide ApplyItems, Stream, CalmPart, Ready, StoreFits, LogSafe, LogIn, Makes;
    var z := Next(schema, conv, s, Take).value;
    var p := s.session.pos;
    assert p in z.begun;
    StreamFrom(schema, conv, held, s.log, p, m);
    assert Rest(schema, conv, held, z) == CalmPart(schema, conv, held, s.log[p].Items());
    assert Rest(schema, conv, held, s) == [] && Here(s) == p;
    assert [] + Stream(schema, conv, held, s.log[p..m]) == Stream(schema, conv, held, s.log[p..m]);
    forall i | s.base <= i <= Back(z)
      ensures Makes(schema, conv, held, z, exact, i, m)
    {
      MakesToo(schema, conv, held, s, z, exact, i, m);
    }
  }

  /** Applying what is left of the message in hand, or having thrown. */
  lemma OneObject(schema: Schema, conv: Conv, held: set<string>, all: seq<Members>, s: State)
    requires Sane(schema, conv, held, all, s) && Next(schema, conv, s, ApplyOne).Some?
    requires s.session.place.done <= |CalmPart(schema, conv, held, s.log[s.session.pos].Items())|
    ensures var z := Next(schema, conv, s, ApplyOne).value;
            var items := s.log[s.session.pos].Items();
            var calm := CalmPart(schema, conv, held, items);
            if s.session.place.done < |calm| then
              && z.session.place == Applying(s.session.place.done + 1)
              && z.store == ApplyItems(schema, conv, s.store, [calm[s.session.place.done]]).1
            else
              z.session.place == Applying(|items|) && z.store == s.store
  {
    hide ApplyItems, FirstThrow, Ready, StoreFits, Safe, Throws, IsFirstThrow, ApplyObject;
    var items := s.log[s.session.pos].Items();
    var calm := CalmPart(schema, conv, held, items);
    var done := s.session.place.done;
    assert AllSafe(schema, conv, items) && AllIn(items, all);
    CalmOf(schema, conv, held, items, all);
    assert Safe(schema, conv, items[done]) && items[done] in all;
    if done < |calm| { assert calm[done] == items[done]; }
    OneItem(schema, conv, s.store, items[done]);
    SafeStep(schema, conv, held, all, s.store, items[done], "");
    OnlyItsKey(schema, conv, s.store, items[done], "");
  }

  /** The stream from an earlier message on, cut at the object in hand. */
  lemma CutHere(schema: Schema, conv: Conv, held: set<string>, all: seq<Members>, s: State, i: nat, m: nat) returns (u: seq<Members>)
    requires Sane(schema, conv, held, all, s) && s.session.Up? && s.session.place.Applying? && i <= s.session.pos < m <= |s.log|
    requires s.session.place.done < |CalmPart(schema, conv, held, s.log[s.session.pos].Items())|
    ensures var x := CalmPart(schema, conv, held, s.log[s.session.pos].Items())[s.session.place.done];
            var rest := CalmPart(schema, conv, held, s.log[s.session.pos].Items())[s.session.place.done + 1..];
            && Stream(schema, conv, held, s.log[i..m]) == u + [x] + (rest + Stream(schema, conv, held, s.log[s.session.pos + 1..m]))
            && Calm(schema, conv, held, Stream(schema, conv, held, s.log[i..m])) && AllIn(Stream(schema, conv, held, s.log[i..m]), all)
  {
    hide CalmPart, Stream, Ready, StoreFits, LogSafe, LogIn, Calm, AllIn;
    var p := s.session.pos;
    var calm := CalmPart(schema, conv, held, s.log[p].Items());
    u := Stream(schema, conv, held, s.log[i..p]) + calm[..s.session.place.done];
    assert s.log[i..m] == s.log[i..p] + s.log[p..m];
    StreamAppend(schema, conv, held, s.log[i..p], s.log[p..m]);
    StreamFrom(schema, conv, held, s.log, p, m);
    PartSafe(schema, conv, held, all, s.log, i, m);
    assert calm == calm[..s.session.place.done] + [calm[s.session.place.done]] + calm[s.session.place.done + 1..];
  }

  lemma MakesStill(schema: Schema, conv: Conv, held: set<string>, all: seq<Members>, s: State, exact: Store, i: nat, m: nat, x: Members, rest: seq<Members>)
    requires Sane(schema, conv, held, all, s) && s.session.Up? && s.session.place.Applying? && i <= s.session.pos < m <= |s.log|
    requires s.session.place.done < |CalmPart(schema, conv, held, s.log[s.session.pos].Items())|
    requires x == CalmPart(schema, conv, held, s.log[s.session.pos].Items())[s.session.place.done]
    requires rest == CalmPart(schema, conv, held, s.log[s.session.pos].Items())[s.session.place.done + 1..]
    requires Makes(schema, conv, held, s, exact, i, m)
    requires ApplyItems(schema, conv, s.store, [x] + (rest + Stream(schema, conv, held, s.log[s.session.pos + 1..m]))).1 == exact
    ensures ApplyItems(schema, conv, ApplyItems(schema, conv, s.store, [x]).1, Stream(schema, conv, held, s.log[i..m])).1 == exact
    ensures ApplyItems(schema, conv, ApplyItems(schema, conv, s.store, [x]).1,
                       rest + Stream(schema, conv, held, s.log[s.session.pos + 1..m])).1 == exact
  {
    hide CalmPart, Stream, Ready, StoreFits, LogSafe, LogIn, Calm, ApplyItems, AllIn;
    var u := CutHere(schema, conv, held, all, s, i, m);
    var v := rest + Stream(schema, conv, held, s.log[s.session.pos + 1..m]);
    CalmParts(schema, conv, held, u, x, v, all);
    Absorbs(schema, conv, held, all, s.store, u, x, v);
    ItemsAppend(schema, conv, held, all, s.store, [x], v);
  }

  lemma CourseApply(schema: Schema, conv: Conv, held: set<string>, all: seq<Members>, s: State, exact: Store, m: nat)
    requires Sane(schema, conv, held, all, s) && OnCourse(schema, conv, held, s, exact, m) && Next(schema, conv, s, ApplyOne).Some?
    ensures OnCourse(schema, conv, held, Next(schema, conv, s, ApplyOne).value, exact, m)
  {
    hide ApplyItems, Stream, CalmPart, Ready, StoreFits, LogSafe, LogIn, Makes;
    var z := Next(schema, conv, s, ApplyOne).value;
    var p, done := s.session.pos, s.session.place.done;
    var calm := CalmPart(schema, conv, held, s.log[p].Items());
    OneObject(schema, conv, held, all, s);
    if done < |calm| {
      var x, rest := calm[done], calm[done + 1..];
      var tail := Stream(schema, conv, held, s.log[p + 1..m]);
      assert Rest(schema, conv, held, s) == [x] + rest && Rest(schema, conv, held, z) == rest;
      assert [x] + rest + tail == [x] + (rest + tail);
      forall i | s.base <= i <= p
        ensures Makes(schema, conv, held, z, exact, i, m)
      {
        MakesStill(schema, conv, held, all, s, exact, i, m, x, rest);
        MakesAt(schema, conv, held, z, exact, i, m);
      }
      MakesStill(schema, conv, held, all, s, exact, p, m, x, rest);
    } else {
      assert Rest(schema, conv, held, s) == [] && Rest(schema, conv, held, z) == [];
      forall i | s.base <= i <= p
        ensures Makes(schema, conv, held, z, exact, i, m)
      {
        MakesToo(schema, conv, held, s, z, exact, i, m);
      }
    }
  }

  lemma MakesAt(schema: Schema, conv: Conv, held: set<string>, s: State, exact: Store, i: nat, m: nat)
    requires StoreFits(schema, s.store) && i <= m <= |s.log|
    requires ApplyItems(schema, conv, s.store, Stream(schema, conv, held, s.log[i..m])).1 == exact
    ensures Makes(schema, conv, held, s, exact, i, m)
  {
  }

  lemma CourseMoves(schema: Schema, conv: Conv, held: set<string>, all: seq<Members>, s: State, e: Event, exact: Store, m: nat)
    requires Sane(schema, conv, held, all, s) && OnCourse(schema, conv, held, s, exact, m) && (e.AllApplied? || e.Save? || e.SaveFails?)
    requires Next(schema, conv, s, e).Some?
    ensures OnCourse(schema, conv, held, Next(schema, conv, s, e).value, exact, m)
  {
    hide ApplyItems, Stream, CalmPart, Ready, StoreFits, LogSafe, LogIn, Makes;
    var z := Next(schema, conv, s, e).value;
    var calm := CalmPart(schema, conv, held, s.log[s.session.pos].Items());
    assert Rest(schema, conv, held, s) == [] && Rest(schema, conv, held, z) == [] && Here(z) == Here(s);
    MakesIs(schema, conv, held, z, exact, Here(z), m);
    forall i | s.base <= i <= Back(z)
      ensures Makes(schema, conv, held, z, exact, i, m)
    {
      if i <= Back(s) { MakesToo(schema, conv, held, s, z, exact, i, m); }
    }
  }

  lemma CourseEnds(schema: Schema, conv: Conv, held: set<string>, all: seq<Members>, s: State, e: Event, exact: Store, m: nat)
    requires Sane(schema, conv, held, all, s) && OnCourse(schema, conv, held, s, exact, m) && (e.Finish? || e.Stop? || e.Crash?)
    requires Next(schema, conv, s, e).Some?
    ensures OnCourse(schema, conv, held, Next(schema, conv, s, e).value, exact, m)
  {
    hide ApplyItems, Stream, CalmPart, Ready, StoreFits, LogSafe, LogIn, Makes, Seek, LoadOffset, LastOffset;
    var z := Next(schema, conv, s, e).value;
    assert Rest(schema, conv, held, z) == [];
    forall i | s.base <= i <= Back(z)
      ensures Makes(schema, conv, held, z, exact, i, m)
    {
      if i <= Back(s) {
        MakesToo(schema, conv, held, s, z, exact, i, m);
      } else {
        assert Rest(schema, conv, held, s) == [] && Here(s) == i;
        MakesIs(schema, conv, held, z, exact, i, m);
      }
    }
    MakesIs(schema, conv, held, z, exact, Here(z), m);
  }

  lemma CourseStep(schema: Schema, conv: Conv, held: set<string>, all: seq<Members>, s: State, e: Event, exact: Store, m: nat)
    requires Sane(schema, conv, held, all, s) && OnCourse(schema, conv, held, s, exact, m) && Next(schema, conv, s, e).Some?
    requires Next(schema, conv, s, e).value.inLine && Ahead(Next(schema, conv, s, e).value, m)
    ensures OnCourse(schema, conv, held, Next(schema, conv, s, e).value, exact, m)
  {
    hide OnCourse, Next, Sane;
    match e
    case StartConsumer | StartCatchup(_) => CourseStarts(schema, conv, held, all, s, e, exact, m);
    case Take => CourseTake(schema, conv, held, all, s, exact, m);
    case ApplyOne => CourseApply(schema, conv, held, all, s, exact, m);
    case AllApplied | Save | SaveFails => CourseMoves(schema, conv, held, all, s, e, exact, m);
    case Finish | Stop | Crash => CourseEnds(schema, conv, held, all, s, e, exact, m);
  }

  // ---- Over runs ----

  /** The store stays as it has to be. */
  lemma StaysReady(schema: Schema, conv: Conv, held: set<string>, all: seq<Members>, s: State, e: Event)
    requires Sane(schema, conv, held, all, s) && Next(schema, conv, s, e).Some?
    ensures Ready(schema, conv, held, all, Next(schema, conv, s, e).value.store)
  {
    hide ApplyItems, Ready, StoreFits, Safe, ApplyObject, Seek, LoadOffset, LastOffset, Range, Unsaved;
    if e.ApplyOne? {
      var items := s.log[s.session.pos].Items();
      var done := s.session.place.done;
      assert AllSafe(schema, conv, items) && AllIn(items, all);
      assert Safe(schema, conv, items[done]) && items[done] in all;
      OneItem(schema, conv, s.store, items[done]);
      StepReady(schema, conv, held, all, s.store, items[done]);
    }
  }

  /** What a step leaves alone, and that it only adds to what was taken up and never mends the line. */
  lemma StepRecords(schema: Schema, conv: Conv, s: State, e: Event)
    requires StoreFits(schema, s.store) && Next(schema, conv, s, e).Some?
    ensures var z := Next(schema, conv, s, e).value;
            z.log == s.log && z.base == s.base && s.begun <= z.begun && (z.inLine ==> s.inLine)
  {
    hide Seek, ApplyItems, LoadOffset, LastOffset, Range;
  }

  lemma {:induction false} RunRecords(schema: Schema, conv: Conv, s: State, events: seq<Event>)
    requires StoreFits(schema, s.store) && Run(schema, conv, s, events).Some?
    ensures var z := Run(schema, conv, s, events).value;
            z.log == s.log && z.base == s.base && s.begun <= z.begun && (z.inLine ==> s.inLine)
    decreases |events|
  {
    hide Next;
    if events != [] {
      StepRecords(schema, conv, s, events[0]);
      RunRecords(schema, conv, Next(schema, conv, s, events[0]).value, events[1..]);
    }
  }

  lemma {:induction false} RunOnCourse(schema: Schema, conv: Conv, held: set<string>, all: seq<Members>, s: State, events: seq<Event>, exact: Store, m: nat)
    requires Sane(schema, conv, held, all, s) && Accounted(s) && OnCourse(schema, conv, held, s, exact, m)
    requires Run(schema, conv, s, events).Some?
    requires Run(schema, conv, s, events).value.inLine && Ahead(Run(schema, conv, s, events).value, m)
    ensures Sane(schema, conv, held, all, Run(schema, conv, s, events).value) && Accounted(Run(schema, conv, s, events).value)
    ensures OnCourse(schema, conv, held, Run(schema, conv, s, events).value, exact, m)
    decreases |events|
  {
    hide Next, OnCourse, Accounted, LogSafe, LogIn, Ready, StoreFits, SessionOk;
    if events != [] {
      var e := events[0];
      var z := Next(schema, conv, s, e).value;
      StepRecords(schema, conv, s, e);
      StepAccounted(schema, conv, s, e);
      AccountedSession(z);
      RunRecords(schema, conv, z, events[1..]);
      AheadBefore(z, Run(schema, conv, z, events[1..]).value, m);
      CourseStep(schema, conv, held, all, s, e, exact, m);
      StaysReady(schema, conv, held, all, s, e);
      RunOnCourse(schema, conv, held, all, z, events[1..], exact, m);
    }
  }

  lemma AheadBefore(s: State, z: State, m: nat)
    requires z.log == s.log && z.base == s.base && s.begun <= z.begun && Ahead(z, m)
    ensures Ahead(s, m)
  {
    forall i | i in s.begun ensures i < m {
      var j :| 0 <= j < |s.begun| && s.begun[j] == i;
      assert z.begun[j] == i && i in z.begun;
    }
  }

  lemma AccountedSession(s: State)
    requires Accounted(s)
    ensures SessionOk(s) && Ordered(s.log) && s.origin <= Pending(s)
  {
  }

  lemma FreshOnCourse(schema: Schema, conv: Conv, held: set<string>, all: seq<Members>, log: seq<Record>, store0: Store,
                      file: Option<int>, base: nat, m: nat)
    requires Ready(schema, conv, held, all, store0) && StoreFits(schema, store0)
    requires LogSafe(schema, conv, log) && LogIn(log, all) && base <= m <= |log|
    ensures var s := Fresh(log, store0, file, base);
            Sane(schema, conv, held, all, s) && OnCourse(schema, conv, held, s, Exact(schema, conv, store0, s, m), m)
  {
    hide Seek, LoadOffset, ApplyItems, ApplyAll, Stream, Ready, StoreFits, LogSafe, LogIn, Makes;
    var s := Fresh(log, store0, file, base);
    PartSafe(schema, conv, held, all, log, base, m);
    AllIsStream(schema, conv, held, all, store0, log[base..m]);
    MakesAt(schema, conv, held, s, Exact(schema, conv, store0, s, m), base, m);
    MakesIs(schema, conv, held, s, Exact(schema, conv, store0, s, m), base, m);
  }

  /** Between two messages, before `i`. */
  predicate Idle(s: State, i: nat) {
    (s.session.Down? && s.at == i) || (s.session.Up? && s.session.place.Waiting? && s.session.pos == i)
  }

  /** Crashes and rewinds do not show: over all runs of catch-up and consumers in which every session starts
      at or before the message the one before it ended at, the store is, once everything taken up so far is
      behind, what one uninterrupted session would have made of it. */
  lemma RewindsDoNotShow(schema: Schema, conv: Conv, log: seq<Record>, store0: Store, file: Option<int>, base: nat,
                         events: seq<Event>, i: nat)
    requires WellFormed(schema) && StoreFits(schema, store0) && Replayable(schema, conv, store0, AllItems(log))
    requires Ordered(log) && LogSafe(schema, conv, log)
    requires Run(schema, conv, Fresh(log, store0, file, base), events).Some?
    requires var z := Run(schema, conv, Fresh(log, store0, file, base), events).value;
             z.inLine && Idle(z, i) && Ahead(z, i)
    ensures base <= i <= |log|
    ensures Run(schema, conv, Fresh(log, store0, file, base), events).value.store
            == ApplyAll(schema, conv, store0, log[base..i])
  {
    hide Run, ApplyItems, LogSafe, LogIn, WellFormed, ApplyAll, Accounted, OnCourse, Stream, StoreFits, Replayable, Ready;
    var held, all := store0.Keys, AllItems(log);
    ReplayableReady(schema, conv, store0, all);
    ItemsOfLog(log);
    var s := Fresh(log, store0, file, base);
    var z := Run(schema, conv, s, events).value;
    RunRecords(schema, conv, s, events);
    FreshAccounted(log, store0, file, base);
    FreshOnCourse(schema, conv, held, all, log, store0, file, base, i);
    RunOnCourse(schema, conv, held, all, s, events, Exact(schema, conv, store0, s, i), i);
    NothingLeft(schema, conv, held, z, Exact(schema, conv, store0, s, i), i);
  }

  lemma NothingLeft(schema: Schema, conv: Conv, held: set<string>, s: State, exact: Store, i: nat)
    requires StoreFits(schema, s.store) && OnCourse(schema, conv, held, s, exact, i) && Idle(s, i)
    ensures s.store == exact
  {
    hide ApplyItems, Makes, CalmPart;
    assert s.log[i..i] == [];
    NoItems(schema, conv, s.store);
    assert Rest(schema, conv, held, s) + Stream(schema, conv, held, s.log[i..i]) == [];
  }

  // ---- Consumers alone ----

  /** Consumers go on where they were or further back, having at most saved less than they applied. */
  ghost predicate KeepsLine(s: State) {
    && s.inLine && s.base <= Pending(s) && (forall i :: i in s.begun ==> i < |s.log|)
    && (s.session.Up? ==> s.session.kind.Consumer?)
    && (s.session.Down? ==> Pending(s) <= s.at <= |s.log|)
  }

  lemma StepKeepsLine(schema: Schema, conv: Conv, s: State, e: Event)
    requires StoreFits(schema, s.store) && Accounted(s) && KeepsLine(s) && !e.StartCatchup? && Next(schema, conv, s, e).Some?
    ensures KeepsLine(Next(schema, conv, s, e).value)
  {
    hide Seek, LoadOffset, ApplyItems, LastOffset, Range, Unsaved;
    var z := Next(schema, conv, s, e).value;
    if e.Save? {
      SaveMoves(s, z.file, s.session.pos);
      assert Pending(z) == s.session.pos + 1;
    } else {
      assert Pending(z) == Pending(s);
    }
  }

  lemma {:induction false} RunKeepsLine(schema: Schema, conv: Conv, s: State, events: seq<Event>)
    requires StoreFits(schema, s.store) && Accounted(s) && KeepsLine(s) && NoCatchup(events) && Run(schema, conv, s, events).Some?
    ensures Accounted(Run(schema, conv, s, events).value) && KeepsLine(Run(schema, conv, s, events).value)
    decreases |events|
  {
    hide Next, Accounted, KeepsLine;
    if events != [] {
      StepAccounted(schema, conv, s, events[0]);
      StepKeepsLine(schema, conv, s, events[0]);
      RunKeepsLine(schema, conv, Next(schema, conv, s, events[0]).value, events[1..]);
    }
  }

  /** Crashes do not show: once consumers have finished every message, the store is what one uninterrupted
      session would have made of it, however often they crashed on the way. */
  lemma CrashesDoNotShow(schema: Schema, conv: Conv, log: seq<Record>, store0: Store, file: Option<int>, events: seq<Event>)
    requires WellFormed(schema) && StoreFits(schema, store0) && Replayable(schema, conv, store0, AllItems(log))
    requires Ordered(log) && LogSafe(schema, conv, log) && NoCatchup(events)
    requires var s := Fresh(log, store0, file, Seek(log, LoadOffset(file)));
             Run(schema, conv, s, events).Some? && Pending(Run(schema, conv, s, events).value) == |log|
    ensures var first := Seek(log, LoadOffset(file));
            Run(schema, conv, Fresh(log, store0, file, first), events).value.store
            == ApplyAll(schema, conv, store0, log[first..])
  {
    hide Run, ApplyItems, LogSafe, WellFormed, ApplyAll, StoreFits, Seek, LoadOffset, NoCatchup, Replayable, Accounted, KeepsLine,
         Pending, Idle, Ahead, Ordered, AllItems;
    var first := Seek(log, LoadOffset(file));
    var s := Fresh(log, store0, file, first);
    FreshAccounted(log, store0, file, first);
    FreshKeepsLine(log, store0, file);
    RunKeepsLine(schema, conv, s, events);
    RunRecords(schema, conv, s, events);
    AllBehind(Run(schema, conv, s, events).value);
    RewindsDoNotShow(schema, conv, log, store0, file, first, events, |log|);
    assert log[first..|log|] == log[first..];
  }

  lemma FreshKeepsLine(log: seq<Record>, store: Store, file: Option<int>)
    ensures KeepsLine(Fresh(log, store, file, Seek(log, LoadOffset(file))))
  {
    hide Seek, LoadOffset;
  }

  /** With all messages finished the session is between two messages, behind the last one. */
  lemma AllBehind(s: State)
    requires Accounted(s) && KeepsLine(s) && Pending(s) == |s.log|
    ensures s.inLine && Idle(s, |s.log|) && Ahead(s, |s.log|)
  {
    hide Seek, LoadOffset, Range, Unsaved;
  }

  // ---- Out of line ----

  /** Nothing but a deletion of a key, right in front of `at`, and an upsert of it. */
  function Twofold(schema: Schema, members: Members, at: nat, n: nat): (log: seq<Record>)
    ensures |log| == n
  {
    seq(n, i requires 0 <= i < n =>
      Record(i, if i == at then Some(Object(KeyOnly(schema, members)))
                else if i + 1 == at then Some(Object(Deletion(schema, members))) else None))
  }

  lemma TwofoldSafe(schema: Schema, conv: Conv, members: Members, at: nat, n: nat)
    requires WellFormed(schema) && !IsControl(schema.pk) && ExtractPk(schema, conv, members).0.Applied?
    ensures Ordered(Twofold(schema, members, at, n)) && LogSafe(schema, conv, Twofold(schema, members, at, n))
  {
    hide Lookup, Safe, KeyOnly, Deletion;
    BothSafe(schema, conv, members);
    var log := Twofold(schema, members, at, n);
    forall i | 0 <= i < n
      ensures AllSafe(schema, conv, log[i].Items())
    {
    }
  }

  predicate NoInserts(items: seq<Members>) {
    forall x :: x in items ==> Operation(x) != "insert"
  }

  lemma {:induction false} NoneInserted(log: seq<Record>)
    requires forall i :: 0 <= i < |log| ==> NoInserts(log[i].Items())
    ensures NoInserts(AllItems(log))
  {
    if log != [] {
      var init := log[..|log| - 1];
      assert forall i :: 0 <= i < |init| ==> init[i] == log[i];
      NoneInserted(init);
      assert NoInserts(log[|log| - 1].Items());
    }
  }

  lemma TwofoldReplayable(schema: Schema, conv: Conv, members: Members, store: Store, at: nat, n: nat)
    requires WellFormed(schema) && !IsControl(schema.pk) && ExtractPk(schema, conv, members).0.Applied?
    ensures Replayable(schema, conv, store, AllItems(Twofold(schema, members, at, n)))
  {
    hide Lookup, Operation, KeyOnly, Deletion, ExtractPk;
    SameKeyNamed(schema, conv, members);
    var log := Twofold(schema, members, at, n);
    forall i | 0 <= i < n
      ensures NoInserts(log[i].Items())
    {
    }
    NoneInserted(log);
  }

  lemma {:induction false} AllAppend(schema: Schema, conv: Conv, store: Store, p: seq<Record>, q: seq<Record>)
    requires StoreFits(schema, store)
    ensures ApplyAll(schema, conv, store, p + q) == ApplyAll(schema, conv, ApplyAll(schema, conv, store, p), q)
    decreases |q|
  {
    hide ApplyItems;
    if q == [] {
      assert p + q == p;
    } else {
      assert (p + q)[..|p + q| - 1] == p + q[..|q| - 1];
      AllAppend(schema, conv, store, p, q[..|q| - 1]);
    }
  }

  lemma {:induction false} Quiet(schema: Schema, conv: Conv, store: Store, log: seq<Record>)
    requires StoreFits(schema, store) && forall i :: 0 <= i < |log| ==> log[i].payload.None?
    ensures ApplyAll(schema, conv, store, log) == store
    decreases |log|
  {
    hide ApplyItems;
    if log != [] {
      Quiet(schema, conv, store, log[..|log| - 1]);
      NoItems(schema, conv, store);
    }
  }

  lemma OneRecord(schema: Schema, conv: Conv, store: Store, offset: nat, members: Members)
    requires StoreFits(schema, store)
    ensures ApplyAll(schema, conv, store, [Record(offset, Some(Object(members)))]) == ApplyObject(schema, conv, store, members).1
  {
    hide ApplyItems, ApplyObject;
    var log := [Record(offset, Some(Object(members)))];
    assert log[..0] == [];
    OneItem(schema, conv, store, members);
  }

  /** Whatever comes before, the key is there after the upsert, and gone after the deletion. */
  lemma TwofoldMakes(schema: Schema, conv: Conv, members: Members, store: Store, at: nat, n: nat, c: nat)
    requires WellFormed(schema) && !IsControl(schema.pk) && ExtractPk(schema, conv, members).0.Applied?
    requires StoreFits(schema, store) && c <= at < n
    ensures var log := Twofold(schema, members, at, n);
            && (ExtractPk(schema, conv, members).1 in ApplyAll(schema, conv, store, log[c..]))
            && (c < at ==> ExtractPk(schema, conv, members).1 !in ApplyAll(schema, conv, store, log[c..at]))
  {
    hide ApplyAll, ApplyItems, ApplyObject, KeyOnly, Deletion, WellFormed, ExtractPk;
    var log := Twofold(schema, members, at, n);
    var before := ApplyAll(schema, conv, store, log[c..at]);
    var put := ApplyAll(schema, conv, before, [log[at]]);
    OneRecord(schema, conv, before, at, KeyOnly(schema, members));
    KeyOnlyPuts(schema, conv, members, before);
    Quiet(schema, conv, put, log[at + 1..]);
    AllAppend(schema, conv, before, [log[at]], log[at + 1..]);
    AllAppend(schema, conv, store, log[c..at], [log[at]] + log[at + 1..]);
    assert log[c..] == log[c..at] + ([log[at]] + log[at + 1..]);
    if c < at {
      var deep := ApplyAll(schema, conv, store, log[c..at - 1]);
      AllAppend(schema, conv, store, log[c..at - 1], [log[at - 1]]);
      assert log[c..at] == log[c..at - 1] + [log[at - 1]];
      OneRecord(schema, conv, deep, at - 1, Deletion(schema, members));
      DeletionApplies(schema, conv, members, deep);
    }
  }

  /** Starting in line is needed: whatever the message `at` the last session ended at, and whatever later one
      the next starts at, there are messages for which going on there is wrong; whether those in between were
      never taken up, or the last session had gone back to work on older ones again. */
  lemma OutOfLineShows(schema: Schema, conv: Conv, members: Members, at: nat, start: nat)
    requires WellFormed(schema) && !IsControl(schema.pk) && ExtractPk(schema, conv, members).0.Applied?
    requires at < start
    ensures var log := Twofold(schema, members, at, start);
            var exact := ApplyAll(schema, conv, map[], log);
            && Ordered(log) && LogSafe(schema, conv, log) && Replayable(schema, conv, map[], AllItems(log))
            && ApplyAll(schema, conv, map[], log[..at]) != exact
            && forall c :: 0 <= c < at ==> ApplyAll(schema, conv, exact, log[c..at]) != exact
  {
    hide ApplyAll, KeyOnly, Deletion, WellFormed, ExtractPk, LogSafe, Replayable, AllItems;
    var log := Twofold(schema, members, at, start);
    var empty: Store := map[];
    var exact := ApplyAll(schema, conv, empty, log);
    TwofoldSafe(schema, conv, members, at, start);
    TwofoldReplayable(schema, conv, members, empty, at, start);
    assert log[0..] == log && log[0..at] == log[..at];
    TwofoldMakes(schema, conv, members, empty, at, start, 0);
    if at == 0 {
      assert log[..at] == [];
      Quiet(schema, conv, empty, []);
    }
    forall c | 0 <= c < at
      ensures ApplyAll(schema, conv, exact, log[c..at]) != exact
    {
      TwofoldMakes(schema, conv, members, exact, at, start, c);
    }
  }

  /** A catch-up run over both messages, and a second one that dies after the first of them. */
  const DEAD_CATCHUP: seq<Event> := [
    StartCatchup(0), Take, ApplyOne, AllApplied, Take, ApplyOne, AllApplied, Finish,
    StartCatchup(0), Take, ApplyOne, Crash, StartConsumer]

  lemma {:induction false} Chain(schema: Schema, conv: Conv, states: seq<State>, events: seq<Event>)
    requires |states| == |events| + 1 && forall i :: 0 <= i < |states| ==> StoreFits(schema, states[i].store)
    requires forall i :: 0 <= i < |events| ==> Next(schema, conv, states[i], events[i]) == Some(states[i + 1])
    ensures Run(schema, conv, states[0], events) == Some(states[|events|])
    decreases |events|
  {
    hide Next;
    if events != [] {
      assert forall i :: 0 <= i < |events| - 1 ==> states[1..][i] == states[i + 1] && events[1..][i] == events[i + 1];
      Chain(schema, conv, states[1..], events[1..]);
    }
  }

  /** In a catch-up run from offset 0. */
  function AtWork(s: State, pos: nat, place: Place, store: Store): State {
    s.(session := Up(Catchup, 0, pos, place, 0), store := store)
  }

  lemma OneByOne(schema: Schema, conv: Conv, s: State, pos: nat, store: Store, members: Members)
    requires StoreFits(schema, store) && pos < |s.log| && s.log[pos].payload == Some(Object(members))
    requires !ApplyObject(schema, conv, store, members).0.Thrown?
    ensures var after := ApplyObject(schema, conv, store, members).1;
            var t := s.(begun := s.begun + [pos]);
            && StoreFits(schema, after)
            && Next(schema, conv, AtWork(s, pos, Waiting, store), Take) == Some(AtWork(t, pos, Applying(0), store))
            && Next(schema, conv, AtWork(t, pos, Applying(0), store), ApplyOne) == Some(AtWork(t, pos, Applying(1), after))
            && Next(schema, conv, AtWork(t, pos, Applying(1), after), AllApplied) == Some(AtWork(t, pos + 1, Waiting, after))
  {
    hide ApplyItems, ApplyObject, StoreFits, Seek, LoadOffset;
    OneItem(schema, conv, store, members);
  }

  lemma TwoSeeks(log: seq<Record>)
    requires |log| == 2 && log[0].offset == 0 && log[1].offset == 1
    ensures Seek(log, 0) == 0 && Seek(log, LoadOffset(None)) == 0 && Seek(log, LoadOffset(Some(1))) == 2
    ensures LastOffset(log[0..2], -1) == 1
  {
    SeekIs(log, 0, 0);
    SeekIs(log, LoadOffset(None), 0);
    SeekIs(log, LoadOffset(Some(1)), 2);
  }

  lemma FirstEnds(schema: Schema, conv: Conv, t: State, one: Store)
    requires StoreFits(schema, t.store) && StoreFits(schema, one) && Ordered(t.log) && |t.log| == 2
    requires t.log[0].offset == 0 && t.log[1].offset == 1 && t.file.None? && t.session.Down?
    requires t.origin == t.base == t.at == 0 && t.inLine
    ensures Next(schema, conv, t.(begun := []), StartCatchup(0)) == Some(AtWork(t.(begun := []), 0, Waiting, t.store))
    ensures Next(schema, conv, AtWork(t, 2, Waiting, one), Finish) == Some(t.(store := one, file := Some(1), at := 2))
  {
    hide ApplyItems, StoreFits, Seek, LoadOffset, LastOffset;
    TwoSeeks(t.log);
    RangeOneMore(0, 0);
    assert t.earlier + multiset(Range(0, 0)) == t.earlier;
  }

  /** The first run, which saves offset 1. */
  lemma FirstRun(schema: Schema, conv: Conv, s: State, one: Store, gone: Members, only: Members) returns (states: seq<State>)
    requires StoreFits(schema, s.store) && StoreFits(schema, one) && Ordered(s.log) && |s.log| == 2
    requires s.log == [Record(0, Some(Object(gone))), Record(1, Some(Object(only)))] && s == Fresh(s.log, s.store, None, 0)
    requires ApplyObject(schema, conv, s.store, gone) == (Applied, s.store)
    requires ApplyObject(schema, conv, s.store, only) == (Applied, one)
    ensures |states| == 9 && states[0] == s && forall i :: 0 <= i < 9 ==> StoreFits(schema, states[i].store)
    ensures forall i :: 0 <= i < 8 ==> Next(schema, conv, states[i], DEAD_CATCHUP[i]) == Some(states[i + 1])
    ensures var z := states[8];
            z.session.Down? && z.store == one && z.file == Some(1) && z.log == s.log && z.at == 2 && z.base == 0 && z.inLine
  {
    hide ApplyItems, ApplyObject, StoreFits, Next;
    var t1, t2 := s.(begun := [0]), s.(begun := [0, 1]);
    OneByOne(schema, conv, s, 0, s.store, gone);
    OneByOne(schema, conv, t1, 1, s.store, only);
    assert s.begun + [0] == [0] && t1.begun + [1] == [0, 1];
    assert t2.(begun := []) == s && s.(begun := s.begun + [0]) == t1 && t1.(begun := t1.begun + [1]) == t2;
    var last := t2.(store := one, file := Some(1), at := 2);
    FirstEnds(schema, conv, t2, one);
    states := [s, AtWork(s, 0, Waiting, s.store),
               AtWork(t1, 0, Applying(0), s.store), AtWork(t1, 0, Applying(1), s.store), AtWork(t1, 1, Waiting, s.store),
               AtWork(t2, 1, Applying(0), s.store), AtWork(t2, 1, Applying(1), one), AtWork(t2, 2, Waiting, one), last];
  }

  /** The second run, and the consumer after it. */
  lemma SecondRun(schema: Schema, conv: Conv, s: State, two: Store, gone: Members, only: Members) returns (states: seq<State>)
    requires StoreFits(schema, s.store) && StoreFits(schema, two) && Ordered(s.log) && |s.log| == 2
    requires s.log == [Record(0, Some(Object(gone))), Record(1, Some(Object(only)))]
    requires s.session.Down? && s.file == Some(1) && s.at == 2 && s.base == 0 && s.inLine
    requires ApplyObject(schema, conv, s.store, gone) == (Applied, two)
    ensures |states| == 6 && states[0] == s && forall i :: 0 <= i < 6 ==> StoreFits(schema, states[i].store)
    ensures forall i :: 0 <= i < 5 ==> Next(schema, conv, states[i], DEAD_CATCHUP[8 + i]) == Some(states[i + 1])
    ensures states[5].session == Up(Consumer, 2, 2, Waiting, 0) && !states[5].inLine && states[5].store == two
  {
    hide ApplyItems, ApplyObject, StoreFits, Seek, LoadOffset, LastOffset;
    TwoSeeks(s.log);
    OneByOne(schema, conv, s, 0, s.store, gone);
    var t := s.(begun := s.begun + [0]);
    var worked := AtWork(t, 0, Applying(1), two);
    var dead := EndSession(worked);
    var last := Begin(dead, Up(Consumer, 2, 2, Waiting, 0));
    states := [s, AtWork(s, 0, Waiting, s.store), AtWork(t, 0, Applying(0), s.store), worked, dead, last];
    assert Next(schema, conv, dead, StartConsumer) == Some(last);
  }

  /** So a rewind that dies before it is back where the saved offset is does show: a consumer started after
      it finds nothing left to do, and the document of the second message is missing. */
  lemma DeadCatchupShows(schema: Schema, conv: Conv, members: Members)
    requires WellFormed(schema) && !IsControl(schema.pk) && ExtractPk(schema, conv, members).0.Applied?
    ensures var log := Twofold(schema, members, 1, 2);
            var z := Run(schema, conv, Fresh(log, map[], None, 0), DEAD_CATCHUP);
            && z.Some? && z.value.session == Up(Consumer, 2, 2, Waiting, 0) && !z.value.inLine
            && ExtractPk(schema, conv, members).1 in ApplyAll(schema, conv, map[], log)
            && ExtractPk(schema, conv, members).1 !in z.value.store
  {
    hide ApplyItems, ApplyObject, WellFormed, ExtractPk, Run, Next, ApplyAll, KeyOnly, Deletion, Seek, LoadOffset;
    var log := Twofold(schema, members, 1, 2);
    var empty: Store := map[];
    var gone, only := Deletion(schema, members), KeyOnly(schema, members);
    DeletionApplies(schema, conv, members, empty);
    KeyOnlyPuts(schema, conv, members, empty);
    var one := ApplyObject(schema, conv, empty, only).1;
    ApplyFits(schema, conv, empty, only);
    DeletionApplies(schema, conv, members, one);
    var two := ApplyObject(schema, conv, one, gone).1;
    assert empty - {ExtractPk(schema, conv, members).1} == empty;
    var a := FirstRun(schema, conv, Fresh(log, empty, None, 0), one, gone, only);
    var b := SecondRun(schema, conv, a[8], two, gone, only);
    Chain(schema, conv, a[..8] + b, DEAD_CATCHUP);
    TwofoldMakes(schema, conv, members, empty, 1, 2, 0);
    assert log[0..] == log;
  }
}
