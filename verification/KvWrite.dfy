/** The single writer of an import: chunked batch puts with skip counting. */
module KvWrite {
  import opened Wrappers

  /** What the index keeps of a row: its primary key as text, and the rest. */
  datatype Doc = Doc(pk: string, fields: map<nat, int>)

  /** A row of a record batch: whether its primary key cell is null, and the document its cells convert
      to; `None` if a cell does not fit its field. */
  datatype Row = Row(pkNull: bool, doc: Option<Doc>)

  /** A record batch: whether it has every column of the schema, and its rows. */
  datatype Batch = Batch(hasColumns: bool, rows: seq<Row>)

  /** What the schema says about the primary key: declared at all, and of a type an import supports. */
  datatype PkDef = PkDef(declared: bool, supported: bool)

  type Store = map<string, Doc>

  /** kImportChunkRows */
  const CHUNK_ROWS: nat := 16 * 1024

  // ---- Specification ----

  function Put(store: Store, doc: Doc): Store {
    store[doc.pk := doc]
  }

  /** Single puts, in order. */
  function PutAll(store: Store, docs: seq<Doc>): Store {
    if docs == [] then store else Put(PutAll(store, docs[..|docs| - 1]), docs[|docs| - 1])
  }

  /** The row is passed over: no primary key, or an empty one. */
  predicate IsSkipped(row: Row) {
    row.pkNull || (row.doc.Some? && row.doc.value.pk == "")
  }

  /** The row makes the whole import fail. */
  predicate IsBad(row: Row, pk: PkDef) {
    !row.pkNull && (row.doc.None? || !pk.supported)
  }

  /** The documents of the rows not skipped. */
  function Kept(rows: seq<Row>): seq<Doc> {
    if rows == [] then []
    else
      var last := rows[|rows| - 1];
      Kept(rows[..|rows| - 1]) + if !IsSkipped(last) && last.doc.Some? then [last.doc.value] else []
  }

  function Skipped(rows: seq<Row>): nat {
    if rows == [] then 0 else Skipped(rows[..|rows| - 1]) + if IsSkipped(rows[|rows| - 1]) then 1 else 0
  }

  predicate AllGood(rows: seq<Row>, pk: PkDef) {
    forall i :: 0 <= i < |rows| ==> !IsBad(rows[i], pk)
  }

  /** The position of the first row that makes the import fail. */
  predicate IsFirstBad(rows: seq<Row>, pk: PkDef, b: nat) {
    b < |rows| && IsBad(rows[b], pk) && forall i :: 0 <= i < b ==> !IsBad(rows[i], pk)
  }

  /** The start of the chunk a row lies in. */
  function ChunkStart(r: nat): nat {
    r / CHUNK_ROWS * CHUNK_ROWS
  }

  lemma {:induction false} PutAllAppend(store: Store, a: seq<Doc>, b: seq<Doc>)
    ensures PutAll(store, a + b) == PutAll(PutAll(store, a), b)
    decreases |b|
  {
    if b == [] {
      assert a + b == a;
    } else {
      assert (a + b)[..|a + b| - 1] == a + b[..|b| - 1];
      PutAllAppend(store, a, b[..|b| - 1]);
    }
  }

  lemma {:induction false} KeptAppend(a: seq<Row>, b: seq<Row>)
    ensures Kept(a + b) == Kept(a) + Kept(b) && Skipped(a + b) == Skipped(a) + Skipped(b)
    decreases |b|
  {
    if b == [] {
      assert a + b == a;
    } else {
      assert (a + b)[..|a + b| - 1] == a + b[..|b| - 1];
      KeptAppend(a, b[..|b| - 1]);
    }
  }

  /** Every good row is imported or skipped, never both and never neither. */
  lemma {:induction false} RowsAccounted(rows: seq<Row>, pk: PkDef)
    requires AllGood(rows, pk)
    ensures |Kept(rows)| + Skipped(rows) == |rows|
  {
    if rows != [] {
      var init := rows[..|rows| - 1];
      assert forall i :: 0 <= i < |init| ==> init[i] == rows[i];
      RowsAccounted(init, pk);
      assert !IsBad(rows[|rows| - 1], pk);
    }
  }

  // ---- What is imported, said of the rows themselves ----

  predicate HasKey(row: Row, k: string) {
    !row.pkNull && row.doc.Some? && row.doc.value.pk == k
  }

  /** Key `k` is in the store if it was before or is the non-empty key of a row whose key cell is not null, and
      its document is that of the last such row. */
  ghost predicate KeyLoaded(before: Store, rows: seq<Row>, k: string, after: Store) {
    && (k in after <==> k in before || (k != "" && exists r :: 0 <= r < |rows| && HasKey(rows[r], k)))
    && ((k == "" || forall r :: 0 <= r < |rows| ==> !HasKey(rows[r], k)) && k in before ==> after[k] == before[k])
    && (forall r :: k != "" && 0 <= r < |rows| && HasKey(rows[r], k) && (forall q :: r < q < |rows| ==> !HasKey(rows[q], k))
          ==> after[k] == rows[r].doc.value)
  }

  ghost predicate IsLoaded(before: Store, rows: seq<Row>, after: Store) {
    forall k :: KeyLoaded(before, rows, k, after)
  }

  /** The rows with a null or an empty key. */
  function Keyless(rows: seq<Row>): set<nat> {
    set r | 0 <= r < |rows| && (rows[r].pkNull || (rows[r].doc.Some? && rows[r].doc.value.pk == ""))
  }

  /** One more row with this key. */
  lemma KeyPut(before: Store, rows: seq<Row>, k: string, after: Store)
    requires rows != [] && k != "" && HasKey(rows[|rows| - 1], k)
    ensures KeyLoaded(before, rows, k, after[k := rows[|rows| - 1].doc.value])
  {
  }

  /** One more row without it. */
  lemma KeyLeft(before: Store, rows: seq<Row>, k: string, after: Store, z: Store)
    requires rows != [] && (k == "" || !HasKey(rows[|rows| - 1], k)) && KeyLoaded(before, rows[..|rows| - 1], k, after)
    requires (k in z <==> k in after) && (k in z ==> z[k] == after[k])
    ensures KeyLoaded(before, rows, k, z)
  {
    hide HasKey;
    assert forall r :: 0 <= r < |rows| - 1 ==> rows[..|rows| - 1][r] == rows[r];
    if k in after && k !in before {
      var r :| 0 <= r < |rows| - 1 && HasKey(rows[..|rows| - 1][r], k);
      assert HasKey(rows[r], k);
    }
  }

  lemma OneMorePut(before: Store, rows: seq<Row>)
    requires rows != []
    ensures var last, after := rows[|rows| - 1], PutAll(before, Kept(rows[..|rows| - 1]));
            PutAll(before, Kept(rows)) == if !IsSkipped(last) && last.doc.Some? then Put(after, last.doc.value) else after
  {
    var init, last := rows[..|rows| - 1], rows[|rows| - 1];
    if !IsSkipped(last) && last.doc.Some? {
      assert Kept(rows)[..|Kept(init)|] == Kept(init);
    } else {
      assert Kept(rows) == Kept(init);
    }
  }

  lemma {:induction false} LoadedKey(before: Store, rows: seq<Row>, k: string)
    ensures KeyLoaded(before, rows, k, PutAll(before, Kept(rows)))
  {
    if rows != [] {
      var init, last := rows[..|rows| - 1], rows[|rows| - 1];
      var after := PutAll(before, Kept(init));
      LoadedKey(before, init, k);
      OneMorePut(before, rows);
      hide KeyLoaded, PutAll, Kept;
      if k != "" && HasKey(last, k) {
        KeyPut(before, rows, k, after);
      } else {
        KeyLeft(before, rows, k, after, PutAll(before, Kept(rows)));
      }
    }
  }

  lemma Loaded(before: Store, rows: seq<Row>)
    ensures IsLoaded(before, rows, PutAll(before, Kept(rows)))
  {
    hide PutAll, Kept, KeyLoaded;
    forall k
      ensures KeyLoaded(before, rows, k, PutAll(before, Kept(rows)))
    {
      LoadedKey(before, rows, k);
    }
  }

  lemma {:induction false} SkippedAreKeyless(rows: seq<Row>)
    ensures Skipped(rows) == |Keyless(rows)|
  {
    if rows != [] {
      var init, n := rows[..|rows| - 1], |rows| - 1;
      SkippedAreKeyless(init);
      assert forall r :: 0 <= r < |init| ==> init[r] == rows[r];
      if n in Keyless(rows) {
        assert Keyless(rows) == Keyless(init) + {n};
      } else {
        assert Keyless(rows) == Keyless(init);
      }
    }
  }

  lemma KeptOne(rows: seq<Row>, r: nat)
    requires r < |rows|
    ensures Kept(rows[..r + 1]) == Kept(rows[..r]) + if !IsSkipped(rows[r]) && rows[r].doc.Some? then [rows[r].doc.value] else []
    ensures Skipped(rows[..r + 1]) == Skipped(rows[..r]) + if IsSkipped(rows[r]) then 1 else 0
  {
    assert rows[..r + 1][..r] == rows[..r];
  }

  lemma NoRows(rows: seq<Row>, store: Store)
    ensures rows[..0] == [] && Kept([]) == [] && Skipped([]) == 0 && PutAll(store, []) == store && rows[..|rows|] == rows
  {
  }

  lemma NothingKept(rows: seq<Row>, store: Store)
    ensures Kept(rows[..0]) == [] && Skipped(rows[..0]) == 0 && PutAll(store, []) == store
  {
    assert rows[..0] == [];
  }

  /** The position of the first such row, or the end. */
  function FirstBad(rows: seq<Row>, pk: PkDef): (b: nat)
    ensures b <= |rows| && (b < |rows| ==> IsFirstBad(rows, pk, b)) && (b == |rows| <==> AllGood(rows, pk))
  {
    if rows == [] then 0
    else
      var init := rows[..|rows| - 1];
      assert forall i :: 0 <= i < |init| ==> init[i] == rows[i];
      var b := FirstBad(init, pk);
      if b < |init| then b else if IsBad(rows[|rows| - 1], pk) then b else |rows|
  }

  /** The index and the two counters. */
  datatype Books = Books(store: Store, rowsImported: nat, skippedPkNull: nat)

  predicate Fine(batch: Batch, pk: PkDef) {
    batch.hasColumns && pk.declared && AllGood(batch.rows, pk)
  }

  /** What a batch makes of them: a fine one brings in all its rows; of another one, the whole chunks before
      its first bad row, although skipped rows are counted right up to that row. */
  function Entered(books: Books, batch: Batch, pk: PkDef): Books {
    if !batch.hasColumns || !pk.declared then books
    else
      var b := FirstBad(batch.rows, pk);
      ChunkBefore(b);
      var put := if b == |batch.rows| then batch.rows else batch.rows[..ChunkStart(b)];
      Books(PutAll(books.store, Kept(put)), books.rowsImported + |Kept(put)|, books.skippedPkNull + Skipped(batch.rows[..b]))
  }

  lemma ChunkBefore(r: nat)
    ensures ChunkStart(r) <= r
  {
  }

  /** There is one first bad row. */
  lemma FirstBadIs(rows: seq<Row>, pk: PkDef, b: nat)
    requires IsFirstBad(rows, pk, b)
    ensures FirstBad(rows, pk) == b
  {
  }

  // ---- The writer ----

  class KVIndex {
    var store: Store

    /** `BatchPut`: the documents, one after the other. */
    method BatchPut(docs: seq<Doc>)
      modifies this
      ensures store == PutAll(old(store), docs)
    {
      assert docs[..|docs|] == docs;
      for i := 0 to |docs|
        invariant store == PutAll(old(store), docs[..i])
      {
        assert docs[..i + 1][..i] == docs[..i];
        store := Put(store, docs[i]);
      }
    }
  }

  class Counters {
    var rowsImported: nat
    var skippedPkNull: nat

    ghost function Seen(idx: KVIndex): Books
      reads this, idx
    {
      Books(idx.store, rowsImported, skippedPkNull)
    }
  }

  /** One chunk: its documents are put together, after the last row of it has been converted. */
  method ProcessChunk(idx: KVIndex, pk: PkDef, rows: seq<Row>, chunkStart: nat, chunkEnd: nat, counters: Counters)
    returns (ok: bool, ghost bad: nat)
    requires chunkStart <= chunkEnd <= |rows|
    modifies idx, counters
    ensures ok ==> AllGood(rows[chunkStart..chunkEnd], pk)
    ensures ok ==> idx.store == PutAll(old(idx.store), Kept(rows[chunkStart..chunkEnd]))
    ensures ok ==> counters.rowsImported == old(counters.rowsImported) + |Kept(rows[chunkStart..chunkEnd])|
    ensures ok ==> counters.skippedPkNull == old(counters.skippedPkNull) + Skipped(rows[chunkStart..chunkEnd])
    ensures !ok ==> chunkStart <= bad < chunkEnd && IsBad(rows[bad], pk)
                    && (forall i :: chunkStart <= i < bad ==> !IsBad(rows[i], pk))
    ensures !ok ==> idx.store == old(idx.store) && counters.rowsImported == old(counters.rowsImported)
    ensures !ok ==> counters.skippedPkNull == old(counters.skippedPkNull) + Skipped(rows[chunkStart..bad])
  {
    hide Kept, Skipped, PutAll;
    var docs: seq<Doc> := [];
    NothingKept(rows[chunkStart..chunkEnd], idx.store);
    var r := chunkStart;
    ghost var chunk := rows[chunkStart..chunkEnd];
    while r < chunkEnd
      invariant chunkStart <= r <= chunkEnd
      invariant docs == Kept(chunk[..r - chunkStart])
      invariant counters.skippedPkNull == old(counters.skippedPkNull) + Skipped(chunk[..r - chunkStart])
      invariant idx.store == old(idx.store) && counters.rowsImported == old(counters.rowsImported)
      invariant forall i :: chunkStart <= i < r ==> !IsBad(rows[i], pk)
    {
      KeptOne(chunk, r - chunkStart);
      var row := rows[r];
      if row.pkNull {
        counters.skippedPkNull := counters.skippedPkNull + 1;
        r := r + 1;
        continue;
      }
      if row.doc.None? || !pk.supported {
        assert chunk[..r - chunkStart] == rows[chunkStart..r];
        return false, r;
      }
      if row.doc.value.pk == "" {
        counters.skippedPkNull := counters.skippedPkNull + 1;
        r := r + 1;
        continue;
      }
      docs := docs + [row.doc.value];
      r := r + 1;
    }
    assert chunk[..chunkEnd - chunkStart] == chunk;
    if docs != [] {
      idx.BatchPut(docs);
      counters.rowsImported := counters.rowsImported + |docs|;
    }
    ok := true;
    bad := 0;
  }

  /** A batch: either all its rows are put, in order and each counted once, or the whole chunks before the
      first bad row are, and nothing after them. */
  method ProcessBatch(idx: KVIndex, pk: PkDef, batch: Batch, counters: Counters) returns (ok: bool, ghost bad: nat)
    modifies idx, counters
    ensures ok <==>
              && batch.hasColumns && pk.declared
              && forall r :: 0 <= r < |batch.rows| && !batch.rows[r].pkNull ==> batch.rows[r].doc.Some? && pk.supported
    ensures ok ==> AllGood(batch.rows, pk) && IsLoaded(old(idx.store), batch.rows, idx.store)
    ensures ok ==> counters.rowsImported == old(counters.rowsImported) + |batch.rows| - |Keyless(batch.rows)|
    ensures ok ==> counters.skippedPkNull == old(counters.skippedPkNull) + |Keyless(batch.rows)|
    ensures ok ==> idx.store == PutAll(old(idx.store), Kept(batch.rows))
    ensures ok ==> counters.rowsImported == old(counters.rowsImported) + |Kept(batch.rows)|
    ensures ok ==> counters.skippedPkNull == old(counters.skippedPkNull) + Skipped(batch.rows)
    ensures !ok && batch.hasColumns && pk.declared ==>
              && IsFirstBad(batch.rows, pk, bad)
              && IsLoaded(old(idx.store), batch.rows[..bad / 16384 * 16384], idx.store)
              && counters.skippedPkNull == old(counters.skippedPkNull) + |Keyless(batch.rows[..bad])|
              && idx.store == PutAll(old(idx.store), Kept(batch.rows[..ChunkStart(bad)]))
              && counters.rowsImported == old(counters.rowsImported) + |Kept(batch.rows[..ChunkStart(bad)])|
              && counters.skippedPkNull == old(counters.skippedPkNull) + Skipped(batch.rows[..bad])
    ensures !(batch.hasColumns && pk.declared) ==>
              && idx.store == old(idx.store)
              && counters.rowsImported == old(counters.rowsImported) && counters.skippedPkNull == old(counters.skippedPkNull)
    ensures ok == Fine(batch, pk)
    ensures counters.Seen(idx) == Entered(old(counters.Seen(idx)), batch, pk)
  {
    hide Kept, Skipped, PutAll, FirstBad, ChunkStart;
    bad := 0;
    NoRows(batch.rows, idx.store);
    if !batch.hasColumns || !pk.declared { return false, 0; }
    var rows := batch.rows;
    var n := |rows|;
    var chunkStart := 0;
    while chunkStart < n
      invariant 0 <= chunkStart && (chunkStart <= n ==> chunkStart % CHUNK_ROWS == 0)
      invariant var done := if chunkStart < n then chunkStart else n;
                && AllGood(rows[..done], pk)
                && idx.store == PutAll(old(idx.store), Kept(rows[..done]))
                && counters.rowsImported == old(counters.rowsImported) + |Kept(rows[..done])|
                && counters.skippedPkNull == old(counters.skippedPkNull) + Skipped(rows[..done])
    {
      var chunkEnd := if n < chunkStart + CHUNK_ROWS then n else chunkStart + CHUNK_ROWS;
      var fine;
      fine, bad := ProcessChunk(idx, pk, rows, chunkStart, chunkEnd, counters);
      if !fine {
        InChunk(chunkStart, bad);
        JoinRows(rows, chunkStart, bad);
        forall i | 0 <= i < bad ensures !IsBad(rows[i], pk) {
          if i < chunkStart { assert rows[..chunkStart][i] == rows[i]; }
        }
        FirstBadIs(rows, pk, bad);
        Loaded(old(idx.store), rows[..chunkStart]);
        SkippedAreKeyless(rows[..bad]);
        StartOfChunk(bad);
        return false, bad;
      }
      JoinRows(rows, chunkStart, chunkEnd);
      PutAllAppend(old(idx.store), Kept(rows[..chunkStart]), Kept(rows[chunkStart..chunkEnd]));
      GoodJoin(rows, pk, chunkStart, chunkEnd);
      NextChunk(chunkStart);
      chunkStart := chunkStart + CHUNK_ROWS;
    }
    assert rows[..n] == rows;
    Loaded(old(idx.store), rows);
    SkippedAreKeyless(rows);
    RowsAccounted(rows, pk);
    ok := true;
  }

  lemma StartOfChunk(r: nat)
    ensures ChunkStart(r) == r / 16384 * 16384
  {
  }

  lemma InChunk(chunkStart: nat, r: nat)
    requires chunkStart % CHUNK_ROWS == 0 && chunkStart <= r < chunkStart + CHUNK_ROWS
    ensures ChunkStart(r) == chunkStart
  {
  }

  lemma NextChunk(chunkStart: nat)
    requires chunkStart % CHUNK_ROWS == 0
    ensures (chunkStart + CHUNK_ROWS) % CHUNK_ROWS == 0
  {
  }

  lemma JoinRows(rows: seq<Row>, a: nat, b: nat)
    requires a <= b <= |rows|
    ensures Kept(rows[..b]) == Kept(rows[..a]) + Kept(rows[a..b])
    ensures Skipped(rows[..b]) == Skipped(rows[..a]) + Skipped(rows[a..b])
  {
    assert rows[..b] == rows[..a] + rows[a..b];
    KeptAppend(rows[..a], rows[a..b]);
  }

  lemma GoodJoin(rows: seq<Row>, pk: PkDef, a: nat, b: nat)
    requires a <= b <= |rows| && AllGood(rows[..a], pk) && AllGood(rows[a..b], pk)
    ensures AllGood(rows[..b], pk)
  {
    forall i | 0 <= i < b
      ensures !IsBad(rows[..b][i], pk)
    {
      if i < a { assert rows[..a][i] == rows[i]; } else { assert rows[a..b][i - a] == rows[i]; }
    }
  }

  // ---- The whole import ----

  /** All rows of the batches in the order they were handed to the writer. */
  function AllRows(batches: seq<Batch>): seq<Row> {
    if batches == [] then [] else AllRows(batches[..|batches| - 1]) + batches[|batches| - 1].rows
  }

  lemma NoBatches(store: Store, batches: seq<Batch>)
    ensures AllRows(batches[..0]) == [] && Kept([]) == [] && Skipped([]) == 0 && PutAll(store, []) == store
  {
    assert batches[..0] == [];
  }

  lemma OneMoreBatch(batches: seq<Batch>, i: nat)
    requires i < |batches|
    ensures AllRows(batches[..i + 1]) == AllRows(batches[..i]) + batches[i].rows
  {
    assert batches[..i + 1][..i] == batches[..i];
  }

  /** `RunKvWriteLoop` on the batches the queue hands out: if no batch fails, the store is the fold of all
      puts of all batches, and imported plus skipped rows are all the input rows. */
  method RunKvWriteLoop(idx: KVIndex, pk: PkDef, batches: seq<Batch>, counters: Counters) returns (ok: bool)
    modifies idx, counters
    ensures ok <==> forall b :: 0 <= b < |batches| ==> Fine(batches[b], pk)
    ensures ok ==> IsLoaded(old(idx.store), AllRows(batches), idx.store)
    ensures ok ==> counters.skippedPkNull == old(counters.skippedPkNull) + |Keyless(AllRows(batches))|
    ensures ok ==> idx.store == PutAll(old(idx.store), Kept(AllRows(batches)))
    ensures ok ==> counters.rowsImported == old(counters.rowsImported) + |Kept(AllRows(batches))|
    ensures ok ==> counters.rowsImported + counters.skippedPkNull
                   == old(counters.rowsImported) + old(counters.skippedPkNull) + |AllRows(batches)|
  {
    hide PutAll, Kept, Skipped, AllRows, Fine, AllGood, Entered;
    NoBatches(idx.store, batches);
    var i := 0;
    while i < |batches|
      invariant 0 <= i <= |batches|
      invariant forall b :: 0 <= b < i ==> Fine(batches[b], pk)
      invariant idx.store == PutAll(old(idx.store), Kept(AllRows(batches[..i])))
      invariant counters.rowsImported == old(counters.rowsImported) + |Kept(AllRows(batches[..i]))|
      invariant counters.skippedPkNull == old(counters.skippedPkNull) + Skipped(AllRows(batches[..i]))
      invariant counters.rowsImported + counters.skippedPkNull
             == old(counters.rowsImported) + old(counters.skippedPkNull) + |AllRows(batches[..i])|
    {
      OneMoreBatch(batches, i);
      var fine, _ := ProcessBatch(idx, pk, batches[i], counters);
      if !fine {
        assert !Fine(batches[i], pk);
        return false;
      }
      KeptAppend(AllRows(batches[..i]), batches[i].rows);
      PutAllAppend(old(idx.store), Kept(AllRows(batches[..i])), Kept(batches[i].rows));
      RowsAccounted(batches[i].rows, pk);
      i := i + 1;
    }
    assert i == |batches|;
    assert batches[..|batches|] == batches;
    Loaded(old(idx.store), AllRows(batches));
    SkippedAreKeyless(AllRows(batches));
    ok := true;
  }
}
