/** An import that ends without an error has written every input row exactly once, so that its two counters
    add up to the number of input rows. */
module ImportRows {
  import opened Wrappers
  import opened Import
  import opened ImportInv
  import opened ImportRuns
  import opened ImportEnds
  import KvWrite

  type Row = KvWrite.Row
  type Content = Item -> KvWrite.Batch

  /** The batches the writer pops, in order. */
  function Popped(items: seq<Item>, content: Content): (batches: seq<KvWrite.Batch>)
    ensures |batches| == |items| && forall i :: 0 <= i < |items| ==> batches[i] == content(items[i])
  {
    seq(|items|, i requires 0 <= i < |items| => content(items[i]))
  }

  function RowsIn(items: seq<Item>, content: Content): multiset<Row> {
    if items == [] then multiset{}
    else RowsIn(items[..|items| - 1], content) + multiset(content(items[|items| - 1]).rows)
  }

  /** All rows of all batches of the first `n` files. */
  function InputRows(files: seq<nat>, n: nat, content: Content): multiset<Row>
    requires n <= |files|
  {
    if n == 0 then multiset{} else InputRows(files, n - 1, content) + RowsIn(Batches(n - 1, files[n - 1]), content)
  }

  /** The items of the files before the `n`-th, in order. */
  function Before(items: seq<Item>, n: nat): seq<Item> {
    if items == [] then []
    else Before(items[..|items| - 1], n) + if items[|items| - 1].file < n then [items[|items| - 1]] else []
  }

  lemma {:induction false} BeforeNone(items: seq<Item>, content: Content)
    ensures Before(items, 0) == [] && RowsIn(Before(items, 0), content) == multiset{}
  {
    if items != [] { BeforeNone(items[..|items| - 1], content); }
  }

  lemma RowsPush(items: seq<Item>, item: Item, content: Content)
    ensures RowsIn(items + [item], content) == RowsIn(items, content) + multiset(content(item).rows)
    ensures RowsIn(items + [], content) == RowsIn(items, content)
  {
    assert (items + [item])[..|items|] == items;
    assert items + [] == items;
  }

  /** One file more is one lane more. */
  lemma {:induction false} BeforeNext(items: seq<Item>, n: nat, content: Content)
    ensures RowsIn(Before(items, n + 1), content) == RowsIn(Before(items, n), content) + RowsIn(Lane(items, n), content)
  {
    if items != [] {
      var init, last := items[..|items| - 1], items[|items| - 1];
      BeforeNext(init, n, content);
      RowsPush(Before(init, n), last, content);
      RowsPush(Before(init, n + 1), last, content);
      RowsPush(Lane(init, n), last, content);
    }
  }

  lemma {:induction false} BeforeRows(items: seq<Item>, files: seq<nat>, n: nat, content: Content)
    requires n <= |files| && forall f :: 0 <= f < n ==> Lane(items, f) == Batches(f, files[f])
    ensures RowsIn(Before(items, n), content) == InputRows(files, n, content)
  {
    hide Lane, Batches, RowsIn, Before;
    if n == 0 {
      BeforeNone(items, content);
    } else {
      BeforeRows(items, files, n - 1, content);
      BeforeNext(items, n - 1, content);
    }
  }

  lemma {:induction false} InItsLane(items: seq<Item>, i: nat)
    requires i < |items|
    ensures Lane(items, items[i].file) != []
  {
    if i < |items| - 1 { InItsLane(items[..|items| - 1], i); }
  }

  lemma {:induction false} BeforeAll(items: seq<Item>, n: nat)
    requires forall i :: 0 <= i < |items| ==> items[i].file < n
    ensures Before(items, n) == items
  {
    if items != [] {
      BeforeAll(items[..|items| - 1], n);
      assert items == items[..|items| - 1] + [items[|items| - 1]];
    }
  }

  lemma {:induction false} AllRowsAre(items: seq<Item>, content: Content)
    ensures multiset(KvWrite.AllRows(Popped(items, content))) == RowsIn(items, content)
  {
    if items != [] {
      var init := items[..|items| - 1];
      AllRowsAre(init, content);
      assert Popped(items, content)[..|items| - 1] == Popped(init, content);
    }
  }

  lemma LanesCover(written: seq<Item>, files: seq<nat>, content: Content)
    requires forall f: nat :: Lane(written, f) == if f < |files| then Batches(f, files[f]) else []
    ensures multiset(KvWrite.AllRows(Popped(written, content))) == InputRows(files, |files|, content)
  {
    hide Lane, Batches;
    forall i | 0 <= i < |written|
      ensures written[i].file < |files|
    {
      InItsLane(written, i);
    }
    BeforeAll(written, |files|);
    BeforeRows(written, files, |files|, content);
    AllRowsAre(written, content);
  }

  // ---- The writer's outcomes are those of its batches ----

  /** A run together with what it makes of the index and the counters. */
  datatype World = World(s: State, books: KvWrite.Books)

  /** As `Import.Apply`, except that a write fails if and only if the batch in hand cannot be written. */
  function Step(w: World, e: Event, content: Content, pk: KvWrite.PkDef): Option<World> {
    var t :- Apply(w.s, e);
    if e.Writing? && w.s.writer.at.Write? then
      if |w.s.writer.hand| != 1 || e.ok != KvWrite.Fine(content(w.s.writer.hand[0]), pk) then None
      else Some(World(t, KvWrite.Entered(w.books, content(w.s.writer.hand[0]), pk)))
    else Some(World(t, w.books))
  }

  function Steps(w: World, events: seq<Event>, content: Content, pk: KvWrite.PkDef): Option<World>
    decreases |events|
  {
    if events == [] then Some(w)
    else
      var t :- Step(w, events[0], content, pk);
      Steps(t, events[1..], content, pk)
  }

  /** The writer is never stuck between two outcomes it cannot have. */
  lemma OneOutcome(w: World, content: Content, pk: KvWrite.PkDef, message: string)
    requires Inv(w.s) && w.s.writer.at.Write?
    ensures |w.s.writer.hand| == 1
    ensures forall ok :: Step(w, Writing(ok, message), content, pk).Some? <==> ok == KvWrite.Fine(content(w.s.writer.hand[0]), pk)
  {
    hide Inv;
    QueueFact(w.s);
  }

  lemma {:induction false} StepsRun(w: World, events: seq<Event>, content: Content, pk: KvWrite.PkDef)
    requires Steps(w, events, content, pk).Some?
    ensures Run(w.s, events) == Some(Steps(w, events, content, pk).value.s)
    decreases |events|
  {
    hide Apply, KvWrite.Entered, KvWrite.Fine;
    if events != [] { StepsRun(Step(w, events[0], content, pk).value, events[1..], content, pk); }
  }

  /** The books hold the rows of the batches written, all of them good. */
  predicate Balanced(w: World, books0: KvWrite.Books, content: Content, pk: KvWrite.PkDef) {
    var rows := KvWrite.AllRows(Popped(w.s.written, content));
    && KvWrite.AllGood(rows, pk)
    && w.books == KvWrite.Books(KvWrite.PutAll(books0.store, KvWrite.Kept(rows)),
                                books0.rowsImported + |KvWrite.Kept(rows)|, books0.skippedPkNull + KvWrite.Skipped(rows))
  }

  predicate BooksOk(w: World, books0: KvWrite.Books, content: Content, pk: KvWrite.PkDef) {
    w.s.Failed() || w.s.writer.at.WriteFailed? || Balanced(w, books0, content, pk)
  }

  lemma EventSame(s: State, e: Event)
    requires Apply(s, e).Some? && !e.Writing?
    ensures WriterAlone(s, Apply(s, e).value)
  {
    hide Produce, WriterAlone;
    match e
    case Work(p, ok, message) => WorkSame(s, p, ok, message);
    case Going => GoingSame(s);
    case SpuriousPush(p) => MoveSame(s, Apply(s, e).value);
    case SpuriousPop => PopSame(s);
  }

  lemma GoingSame(s: State)
    requires MainStep(s).Some?
    ensures WriterAlone(s, MainStep(s).value)
  {
  }

  lemma PopSame(s: State)
    requires Apply(s, SpuriousPop).Some?
    ensures WriterAlone(s, Apply(s, SpuriousPop).value)
  {
  }

  lemma PoppedMore(written: seq<Item>, item: Item, content: Content)
    ensures KvWrite.AllRows(Popped(written + [item], content)) == KvWrite.AllRows(Popped(written, content)) + content(item).rows
  {
    assert Popped(written + [item], content)[..|written|] == Popped(written, content);
  }

  lemma WriteBalances(w: World, message: string, books0: KvWrite.Books, content: Content, pk: KvWrite.PkDef)
    requires Balanced(w, books0, content, pk) && w.s.writer.at.Write? && Step(w, Writing(true, message), content, pk).Some?
    ensures Balanced(Step(w, Writing(true, message), content, pk).value, books0, content, pk)
  {
    hide KvWrite.Kept, KvWrite.Skipped, KvWrite.PutAll, KvWrite.AllRows, Popped, KvWrite.FirstBad;
    var item := w.s.writer.hand[0];
    var before, rows := KvWrite.AllRows(Popped(w.s.written, content)), content(item).rows;
    assert w.s.writer.hand == [item];
    PoppedMore(w.s.written, item, content);
    KvWrite.NoRows(rows, books0.store);
    KvWrite.KeptAppend(before, rows);
    KvWrite.PutAllAppend(books0.store, KvWrite.Kept(before), KvWrite.Kept(rows));
  }

  lemma StepBalances(w: World, e: Event, books0: KvWrite.Books, content: Content, pk: KvWrite.PkDef)
    requires BooksOk(w, books0, content, pk) && Step(w, e, content, pk).Some?
    ensures BooksOk(Step(w, e, content, pk).value, books0, content, pk)
  {
    hide KvWrite.Entered, KvWrite.Fine, KvWrite.AllRows, Popped;
    if !e.Writing? {
      hide Apply;
      EventSame(w.s, e);
    } else {
      WritingSame(w.s, e.ok, e.message);
      if w.s.writer.at.Write? && e.ok && Balanced(w, books0, content, pk) {
        WriteBalances(w, e.message, books0, content, pk);
      }
    }
  }

  lemma {:induction false} StepsBalance(w: World, events: seq<Event>, books0: KvWrite.Books, content: Content, pk: KvWrite.PkDef)
    requires BooksOk(w, books0, content, pk) && Steps(w, events, content, pk).Some?
    ensures BooksOk(Steps(w, events, content, pk).value, books0, content, pk)
    decreases |events|
  {
    hide Step, BooksOk;
    if events != [] {
      StepBalances(w, events[0], books0, content, pk);
      StepsBalance(Step(w, events[0], content, pk).value, events[1..], books0, content, pk);
    }
  }

  lemma OpenBooks(files: seq<nat>, capacity: nat, workers: nat, books0: KvWrite.Books, content: Content, pk: KvWrite.PkDef)
    ensures BooksOk(World(Init(files, capacity, workers), books0), books0, content, pk)
  {
    assert Popped([], content) == [];
    KvWrite.NoRows([], books0.store);
  }

  /** Whatever the interleaving, an import that ends without an error has written the batches of every file in
      their order, and has loaded their rows: the index holds what it held before, and for every non-empty key
      of an input row whose key cell is not null the document of the last such row written.  One counter has
      gone up by the number of rows with a null or empty key, the other one by that of all others. */
  lemma EveryRowOnce(files: seq<nat>, capacity: nat, workers: nat, events: seq<Event>, books0: KvWrite.Books,
                     content: Content, pk: KvWrite.PkDef)
    returns (items: seq<Item>, rows: seq<Row>)
    requires var w := Steps(World(Init(files, capacity, workers), books0), events, content, pk);
             w.Some? && w.value.s.main.Finished? && !w.value.s.Failed()
    ensures forall f: nat :: Lane(items, f) == if f < |files| then Batches(f, files[f]) else []
    ensures rows == KvWrite.AllRows(Popped(items, content))
    ensures multiset(rows) == InputRows(files, |files|, content) && KvWrite.AllGood(rows, pk)
    ensures var books := Steps(World(Init(files, capacity, workers), books0), events, content, pk).value.books;
            && KvWrite.IsLoaded(books0.store, rows, books.store)
            && (forall k :: k in books.store <==>
                  k in books0.store || (k != "" && exists row :: row in InputRows(files, |files|, content) && KvWrite.HasKey(row, k)))
            && books.skippedPkNull == books0.skippedPkNull + |KvWrite.Keyless(rows)|
            && books.rowsImported == books0.rowsImported + |InputRows(files, |files|, content)| - |KvWrite.Keyless(rows)|
            && books.store == KvWrite.PutAll(books0.store, KvWrite.Kept(rows))
  {
    hide Run, Steps, Lane, Batches, RowsIn, InputRows, KvWrite.AllRows, KvWrite.AllGood, KvWrite.Kept, KvWrite.Skipped, KvWrite.PutAll;
    hide KvWrite.IsLoaded, KvWrite.Keyless, KvWrite.HasKey;
    var w0 := World(Init(files, capacity, workers), books0);
    var w := Steps(w0, events, content, pk).value;
    StepsRun(w0, events, content, pk);
    OpenBooks(files, capacity, workers, books0, content, pk);
    StepsBalance(w0, events, books0, content, pk);
    InitOk(files, capacity, workers);
    RunKeeps(w0.s, events);
    NotHalfway(w.s);
    items := w.s.written;
    rows := KvWrite.AllRows(Popped(items, content));
    forall f: nat
      ensures Lane(items, f) == if f < |files| then Batches(f, files[f]) else []
    {
      ExactlyOnce(files, capacity, workers, events, f);
    }
    LanesCover(items, files, content);
    assert |multiset(rows)| == |rows|;
    KvWrite.RowsAccounted(rows, pk);
    KvWrite.SkippedAreKeyless(rows);
    KvWrite.Loaded(books0.store, rows);
    forall k
      ensures k in w.books.store <==>
                k in books0.store || (k != "" && exists row :: row in InputRows(files, |files|, content) && KvWrite.HasKey(row, k))
    {
      KeyOfInput(books0.store, rows, w.books.store, k);
    }
  }

  lemma KeyOfInput(before: KvWrite.Store, rows: seq<Row>, after: KvWrite.Store, k: string)
    requires KvWrite.IsLoaded(before, rows, after)
    ensures k in after <==> k in before || (k != "" && exists row :: row in multiset(rows) && KvWrite.HasKey(row, k))
  {
    hide KvWrite.HasKey;
    assert KvWrite.KeyLoaded(before, rows, k, after);
    if r :| 0 <= r < |rows| && KvWrite.HasKey(rows[r], k) { assert rows[r] in multiset(rows); }
  }

  lemma NotHalfway(s: State)
    requires Inv(s) && s.main.Finished?
    ensures !s.writer.at.WriteFailed?
  {
    hide Inv;
    QueueFact(s);
  }
}
