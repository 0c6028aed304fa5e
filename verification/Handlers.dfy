/** The RPC handlers over one table: rows to documents and back, puts, staged batches and gets. */
module Handlers {
  import opened Wrappers
  import opened Ingest
  import opened IngestOps

  datatype ValueType =
    | NONE | BOOL | I32 | I64 | F32 | F64 | STRING | BYTES | ARR_I32 | ARR_I64 | ARR_F32 | ARR_F64 | ARR_STRING

  /** One column of a row as sent: a scalar payload, or a vector, each of which may be missing. */
  datatype FieldValue = FieldValue(fieldId: nat, vtype: ValueType, scalar: Option<Value>, vector: Option<seq<Value>>)

  type Row = seq<FieldValue>

  /** `FieldValueMatchesSchema` */
  predicate Matches(def: FieldDef, vt: ValueType) {
    vt == Sent(def) && vt != NONE
  }

  /** The type tag a field is sent with; arrays of booleans or bytes have none. */
  function Sent(def: FieldDef): ValueType {
    match (def.isArray, def.ty)
    case (true, Int32) => ARR_I32
    case (true, Int64) => ARR_I64
    case (true, Float32) => ARR_F32
    case (true, Float64) => ARR_F64
    case (true, String) => ARR_STRING
    case (true, _) => NONE
    case (false, Bool) => BOOL
    case (false, Int32) => I32
    case (false, Int64) => I64
    case (false, Float32) => F32
    case (false, Float64) => F64
    case (false, String) => STRING
    case (false, Bytes) => BYTES
  }

  /** The field with an id. */
  function FindByIdFrom(fields: seq<FieldDef>, id: nat, i: nat): (r: Option<nat>)
    requires i <= |fields|
    ensures r.Some? ==> i <= r.value < |fields| && fields[r.value].fieldId == id
    ensures r.None? ==> forall k :: i <= k < |fields| ==> fields[k].fieldId != id
    decreases |fields| - i
  {
    if i == |fields| then None
    else if fields[i].fieldId == id then Some(i)
    else FindByIdFrom(fields, id, i + 1)
  }

  function FindById(schema: Schema, id: nat): (r: Option<nat>)
    ensures r.Some? ==> r.value < |schema.fields| && schema.fields[r.value].fieldId == id
  {
    FindByIdFrom(schema.fields, id, 0)
  }

  /** A boolean is kept as 0 or 1, whatever number was sent. */
  function AsBool(v: Value): Value {
    if v == Int(0) then Int(0) else Int(1)
  }

  /** What a scalar payload of a type tag reads as when it is missing. */
  function Missing(ty: Type): Value {
    Default(ty)
  }

  /** What a column sets its field to; a missing vector sets nothing. */
  function Received(def: FieldDef, fv: FieldValue, oldValue: Obs): Obs {
    if def.isArray then if fv.vector.Some? then Many(fv.vector.value) else oldValue
    else
      var v := if fv.scalar.Some? then fv.scalar.value else Missing(def.ty);
      One(if def.ty.Bool? then AsBool(v) else v)
  }

  /** The document after the columns of a row, or `None` if one of them is unknown or of a wrong type. */
  function RowApplied(schema: Schema, view: View, row: Row): (r: Option<View>)
    requires |view| == |schema.fields|
    ensures r.Some? ==> |r.value| == |view|
  {
    if row == [] then Some(view)
    else
      var before :- RowApplied(schema, view, row[..|row| - 1]);
      var fv := row[|row| - 1];
      var at := FindById(schema, fv.fieldId);
      if at.None? || !Matches(schema.fields[at.value], fv.vtype) then None
      else Some(before[at.value := Received(schema.fields[at.value], fv, before[at.value])])
  }

  lemma {:induction false} RefusalStays(schema: Schema, view: View, row: Row, k: nat)
    requires |view| == |schema.fields| && k <= |row| && RowApplied(schema, view, row[..k]).None?
    ensures RowApplied(schema, view, row).None?
    decreases |row| - k
  {
    if k == |row| {
      assert row[..k] == row;
    } else {
      assert row[..k + 1][..k] == row[..k];
      RefusalStays(schema, view, row, k + 1);
    }
  }

  method ApplyRowToDoc(schema: Schema, doc: Doc, row: Row) returns (ok: bool)
    requires WellFormed(schema)
    modifies doc
    ensures ok == RowApplied(schema, old(doc.Seen(schema)), row).Some?
    ensures ok ==> Some(doc.Seen(schema)) == RowApplied(schema, old(doc.Seen(schema)), row)
  {
    ghost var before := doc.Seen(schema);
    var k := 0;
    while k < |row|
      invariant 0 <= k <= |row|
      invariant RowApplied(schema, before, row[..k]) == Some(doc.Seen(schema))
    {
      assert row[..k + 1][..k] == row[..k];
      var fv := row[k];
      var at := FindById(schema, fv.fieldId);
      if at.None? || !Matches(schema.fields[at.value], fv.vtype) {
        RefusalStays(schema, before, row, k + 1);
        return false;
      }
      ghost var was := doc.Seen(schema);
      var def := schema.fields[at.value];
      if def.isArray {
        if fv.vector.Some? { doc.ArrayPut(def.fieldId, fv.vector.value); }
      } else {
        var v := if fv.scalar.Some? then fv.scalar.value else Missing(def.ty);
        doc.Put(def.fieldId, if def.ty.Bool? then AsBool(v) else v);
      }
      assert doc.Seen(schema) == was[at.value := Received(def, fv, was[at.value])];
      k := k + 1;
    }
    assert row[..|row|] == row;
    ok := true;
  }

  /** `BuildFieldValue`: an empty array is sent as a missing vector. */
  function Built(def: FieldDef, seen: Obs): FieldValue
    requires seen.Many? == def.isArray
  {
    if def.isArray then
      FieldValue(def.fieldId, Sent(def), None, if Sent(def) == NONE || seen.vs == [] then None else Some(seen.vs))
    else FieldValue(def.fieldId, Sent(def), Some(if def.ty.Bool? then AsBool(seen.v) else seen.v), None)
  }

  /** What a reader of a column gets. */
  function Reads(def: FieldDef, fv: FieldValue): Obs {
    if def.isArray then Many(if fv.vector.Some? then fv.vector.value else [])
    else One(if fv.scalar.Some? then fv.scalar.value else Missing(def.ty))
  }

  ghost predicate IsBuilt(schema: Schema, view: View, row: Row)
    requires Fits(schema, view)
  {
    |row| == |schema.fields| && forall i :: 0 <= i < |row| ==> row[i] == Built(schema.fields[i], view[i])
  }

  method BuildRow(schema: Schema, doc: Doc) returns (row: Row)
    ensures Fits(schema, doc.Seen(schema)) && IsBuilt(schema, doc.Seen(schema), row)
  {
    row := [];
    var i := 0;
    while i < |schema.fields|
      invariant 0 <= i <= |schema.fields| && |row| == i
      invariant forall k :: 0 <= k < i ==> row[k] == Built(schema.fields[k], doc.Observe(schema.fields[k]))
    {
      row := row + [Built(schema.fields[i], doc.Observe(schema.fields[i]))];
      i := i + 1;
    }
  }

  /** What was never put, or was put without a payload, reads as zero or as the empty string. */
  lemma MissingReads(schema: Schema, i: nat, fieldId: nat, vtype: ValueType)
    requires i < |schema.fields|
    ensures var def := schema.fields[i];
            var zero := if def.ty.String? || def.ty.Bytes? then Text("") else if def.ty.Float32? || def.ty.Float64? then Bits(0) else Int(0);
            && EmptyView(schema)[i] == (if def.isArray then Many([]) else One(zero))
            && Reads(def, FieldValue(fieldId, vtype, None, None)) == if def.isArray then Many([]) else One(zero)
  {
  }

  /** The tags a field is sent with and accepted with, type by type: each but two has one of its own. */
  lemma TypeTags(def: FieldDef, vt: ValueType)
    ensures def.ty.Bool? ==> Sent(def) == (if def.isArray then NONE else BOOL)
    ensures def.ty.Int32? ==> Sent(def) == (if def.isArray then ARR_I32 else I32)
    ensures def.ty.Int64? ==> Sent(def) == (if def.isArray then ARR_I64 else I64)
    ensures def.ty.Float32? ==> Sent(def) == (if def.isArray then ARR_F32 else F32)
    ensures def.ty.Float64? ==> Sent(def) == (if def.isArray then ARR_F64 else F64)
    ensures def.ty.String? ==> Sent(def) == (if def.isArray then ARR_STRING else STRING)
    ensures def.ty.Bytes? ==> Sent(def) == (if def.isArray then NONE else BYTES)
    ensures Matches(def, vt) <==> vt == Sent(def) && !(def.isArray && (def.ty.Bool? || def.ty.Bytes?))
  {
  }

  // ---- Rows round trip ----

  predicate DistinctIds(row: Row) {
    forall i, j :: 0 <= i < j < |row| ==> row[i].fieldId != row[j].fieldId
  }

  /** What a row says about a field: the column with its id, if any. */
  function Column(row: Row, id: nat): (r: Option<FieldValue>)
    ensures r.Some? ==> r.value in row && r.value.fieldId == id
  {
    if row == [] then None
    else if row[|row| - 1].fieldId == id then Some(row[|row| - 1])
    else Column(row[..|row| - 1], id)
  }

  lemma {:induction false} FindsItsField(schema: Schema, i: nat)
    requires WellFormed(schema) && i < |schema.fields|
    ensures FindById(schema, schema.fields[i].fieldId) == Some(i)
  {
    assert FindById(schema, schema.fields[i].fieldId).Some?;
  }

  lemma {:induction false} AppliedFieldwise(schema: Schema, view: View, row: Row, i: nat)
    requires WellFormed(schema) && |view| == |schema.fields| && DistinctIds(row) && i < |view|
    requires RowApplied(schema, view, row).Some?
    ensures var column := Column(row, schema.fields[i].fieldId);
            && (column.Some? ==> Matches(schema.fields[i], column.value.vtype))
            && RowApplied(schema, view, row).value[i]
               == if column.Some? then Received(schema.fields[i], column.value, view[i]) else view[i]
  {
    if row != [] {
      var init := row[..|row| - 1];
      assert forall j :: 0 <= j < |init| ==> init[j] == row[j];
      AppliedFieldwise(schema, view, init, i);
      FindsItsField(schema, i);
      if row[|row| - 1].fieldId == schema.fields[i].fieldId {
        NoColumn(init, schema.fields[i].fieldId);
      }
    }
  }

  lemma {:induction false} NoColumn(row: Row, id: nat)
    requires forall j :: 0 <= j < |row| ==> row[j].fieldId != id
    ensures Column(row, id).None?
  {
    if row != [] {
      assert forall j :: 0 <= j < |row| - 1 ==> row[..|row| - 1][j] == row[j];
      NoColumn(row[..|row| - 1], id);
    }
  }

  /** What is put for a field can be read back from the row that is built: the value written, booleans as 0
      or 1, or the default where nothing was written. */
  lemma RowRoundTrip(schema: Schema, row: Row, built: Row, i: nat)
    requires WellFormed(schema) && DistinctIds(row) && i < |schema.fields|
    requires RowApplied(schema, EmptyView(schema), row).Some?
    requires Fits(schema, RowApplied(schema, EmptyView(schema), row).value)
    requires IsBuilt(schema, RowApplied(schema, EmptyView(schema), row).value, built)
    ensures var def, column := schema.fields[i], Column(row, schema.fields[i].fieldId);
            && built[i].fieldId == def.fieldId && built[i].vtype == Sent(def)
            && Reads(def, built[i])
               == (if column.None? then if def.isArray then Many([]) else One(Default(def.ty))
                   else if def.ty.Bool? && !def.isArray then
                     One(if Reads(def, column.value) == One(Int(0)) then Int(0) else Int(1))
                   else Reads(def, column.value))
  {
    AppliedFieldwise(schema, EmptyView(schema), row, i);
  }

  predicate Sendable(schema: Schema) {
    forall i :: 0 <= i < |schema.fields| ==> Sent(schema.fields[i]) != NONE
  }

  /** Booleans are stored as 0 or 1. */
  predicate Normal(schema: Schema, view: View) {
    |view| == |schema.fields| &&
    forall i :: 0 <= i < |view| && schema.fields[i].ty.Bool? && view[i].One? ==> view[i].v == AsBool(view[i].v)
  }

  lemma PutBackField(schema: Schema, view: View, built: Row, i: nat)
    requires WellFormed(schema) && Fits(schema, view) && IsBuilt(schema, view, built) && i < |view|
    requires Normal(schema, view) && Sendable(schema) && RowApplied(schema, EmptyView(schema), built).Some?
    ensures RowApplied(schema, EmptyView(schema), built).value[i] == view[i]
  {
    BuiltDistinct(schema, view, built);
    AppliedFieldwise(schema, EmptyView(schema), built, i);
    HasColumn(built, i);
  }

  /** The row built from a document is accepted again exactly if every field can be sent at all. */
  lemma PutBackAccepted(schema: Schema, view: View, built: Row)
    requires WellFormed(schema) && Fits(schema, view) && IsBuilt(schema, view, built)
    ensures RowApplied(schema, EmptyView(schema), built).Some? <==> Sendable(schema)
  {
    if Sendable(schema) {
      Accepted(schema, EmptyView(schema), built, view, |built|);
      assert built[..|built|] == built;
    } else {
      var i :| 0 <= i < |schema.fields| && Sent(schema.fields[i]) == NONE;
      FindsItsField(schema, i);
      assert built[..i + 1][..i] == built[..i];
      RefusalStays(schema, EmptyView(schema), built, i + 1);
    }
  }

  /** And then it makes the same document. */
  lemma PutBack(schema: Schema, view: View, built: Row)
    requires WellFormed(schema) && Fits(schema, view) && IsBuilt(schema, view, built)
    requires Normal(schema, view) && Sendable(schema)
    ensures RowApplied(schema, EmptyView(schema), built) == Some(view)
  {
    hide WellFormed, Fits, IsBuilt, Normal, Sendable, RowApplied;
    PutBackAccepted(schema, view, built);
    SameLength(schema, view);
    forall i | 0 <= i < |view|
      ensures RowApplied(schema, EmptyView(schema), built).value[i] == view[i]
    {
      PutBackField(schema, view, built, i);
    }
    assert RowApplied(schema, EmptyView(schema), built).value == view;
  }

  lemma SameLength(schema: Schema, view: View)
    requires Normal(schema, view)
    ensures |view| == |schema.fields|
  {
  }

  lemma BuiltDistinct(schema: Schema, view: View, built: Row)
    requires WellFormed(schema) && Fits(schema, view) && IsBuilt(schema, view, built)
    ensures DistinctIds(built)
  {
  }

  lemma {:induction false} HasColumn(row: Row, i: nat)
    requires DistinctIds(row) && i < |row|
    ensures Column(row, row[i].fieldId) == Some(row[i])
  {
    if i < |row| - 1 {
      assert forall j :: 0 <= j < |row| - 1 ==> row[..|row| - 1][j] == row[j];
      HasColumn(row[..|row| - 1], i);
    }
  }

  lemma {:induction false} Accepted(schema: Schema, start: View, built: Row, view: View, k: nat)
    requires WellFormed(schema) && Fits(schema, view) && IsBuilt(schema, view, built) && Sendable(schema)
    requires |start| == |schema.fields| && k <= |built|
    ensures RowApplied(schema, start, built[..k]).Some?
  {
    if k > 0 {
      Accepted(schema, start, built, view, k - 1);
      assert built[..k][..k - 1] == built[..k - 1];
      FindsItsField(schema, k - 1);
    }
  }

  // ---- The handlers ----

  /** The handlers' own `ExtractPkString`, empty for key types they do not support. */
  function RpcKey(schema: Schema, view: View): string
    requires |view| == |schema.fields|
  {
    var at := FindField(schema, schema.pk);
    if at.None? then ""
    else
      var ty := schema.fields[at.value].ty;
      if ty.Bool? || ty.Int32? || ty.Int64? || ty.String? then KeyOf(schema, view) else ""
  }

  /** The document a row is staged as, or `None` if the request fails because of it. */
  function Staged(schema: Schema, row: Row): (r: Option<View>)
    ensures r.Some? ==> |r.value| == |schema.fields|
  {
    var view :- RowApplied(schema, EmptyView(schema), row);
    if RpcKey(schema, view) == "" then None else Some(view)
  }

  /** A single put. */
  function PutRow(schema: Schema, store: Store, row: Row): (bool, Store) {
    var view := Staged(schema, row);
    if view.None? then (false, store) else (true, store[KeyOf(schema, view.value) := view.value])
  }

  /** Single puts, in order, regardless of failures. */
  function PutRows(schema: Schema, store: Store, rows: seq<Row>): Store {
    if rows == [] then store else PutRow(schema, PutRows(schema, store, rows[..|rows| - 1]), rows[|rows| - 1]).1
  }

  predicate AllStaged(schema: Schema, rows: seq<Row>) {
    forall i :: 0 <= i < |rows| ==> Staged(schema, rows[i]).Some?
  }

  /** A new document with the columns of a row, if they and the key they give are acceptable. */
  method StageRow(idx: KVIndex, row: Row) returns (staged: Option<Doc>)
    requires WellFormed(idx.schema)
    ensures staged.Some? == Staged(idx.schema, row).Some?
    ensures staged.Some? ==> fresh(staged.value) && Staged(idx.schema, row) == Some(staged.value.Seen(idx.schema))
  {
    var doc := idx.NewDoc();
    assert doc.Seen(idx.schema) == EmptyView(idx.schema);
    var fine := ApplyRowToDoc(idx.schema, doc, row);
    if !fine { return None; }
    if RpcKey(idx.schema, doc.Contents().Seen(idx.schema)) == "" { return None; }
    staged := Some(doc);
  }

  method HandlePut(idx: KVIndex, row: Row) returns (ok: bool)
    requires WellFormed(idx.schema)
    modifies idx
    ensures (ok, idx.Seen()) == PutRow(idx.schema, old(idx.Seen()), row)
  {
    hide Staged, KeyOf, WellFormed;
    var staged := StageRow(idx, row);
    if staged.None? { return false; }
    idx.Put(staged.value);
    ghost var view := staged.value.Seen(idx.schema);
    assert idx.Seen() == old(idx.Seen())[KeyOf(idx.schema, view) := view];
    ok := true;
  }

  /** All or nothing: the batch fails if any row of it would, and leaves the store alone; otherwise it is
      the puts of its rows, one after the other. */
  method HandlePutBatch(idx: KVIndex, rows: seq<Row>) returns (ok: bool)
    requires WellFormed(idx.schema)
    modifies idx
    ensures ok <==> rows != [] && AllStaged(idx.schema, rows)
    ensures idx.Seen() == if ok then PutRows(idx.schema, old(idx.Seen()), rows) else old(idx.Seen())
  {
    hide Staged, PutRows, WellFormed;
    if |rows| == 0 { return false; }
    var staged: seq<Stored> := [];
    var i := 0;
    while i < |rows|
      invariant 0 <= i <= |rows| && |staged| == i && idx.docs == old(idx.docs)
      invariant forall k :: 0 <= k < i ==> Staged(idx.schema, rows[k]) == Some(staged[k].Seen(idx.schema))
    {
      var doc := StageRow(idx, rows[i]);
      if doc.None? { return false; }
      staged := staged + [doc.value.Contents()];
      i := i + 1;
    }
    BatchUpsert(idx, staged, rows);
    ok := true;
  }

  /** The staged documents, put one after the other. */
  method BatchUpsert(idx: KVIndex, staged: seq<Stored>, ghost rows: seq<Row>)
    requires |rows| == |staged|
    requires forall k :: 0 <= k < |rows| ==> Staged(idx.schema, rows[k]) == Some(staged[k].Seen(idx.schema))
    modifies idx
    ensures idx.Seen() == PutRows(idx.schema, old(idx.Seen()), rows)
  {
    hide Staged, KeyOf;
    var k := 0;
    while k < |staged|
      invariant 0 <= k <= |staged|
      invariant idx.Seen() == PutRows(idx.schema, old(idx.Seen()), rows[..k])
    {
      assert rows[..k + 1][..k] == rows[..k];
      ghost var before := idx.Seen();
      var doc := new Doc(staged[k]);
      idx.Put(doc);
      assert idx.Seen() == before[KeyOf(idx.schema, staged[k].Seen(idx.schema)) := staged[k].Seen(idx.schema)];
      k := k + 1;
    }
    assert rows[..|rows|] == rows;
  }

  method HandleGet(idx: KVIndex, pk: string) returns (row: Option<Row>)
    ensures row.Some? <==> pk in idx.Seen()
    ensures row.Some? ==> IsBuilt(idx.schema, idx.Seen()[pk], row.value)
  {
    var hit, doc := idx.Get(pk);
    if !hit { return None; }
    var built := BuildRow(idx.schema, doc);
    row := Some(built);
  }

  /** As many rows as keys, each what a single get returns, or an empty one for a miss. */
  method HandleBatchGet(idx: KVIndex, pks: seq<string>) returns (rows: seq<Row>)
    ensures |rows| == |pks|
    ensures forall i :: 0 <= i < |pks| ==>
              if pks[i] in idx.Seen() then IsBuilt(idx.schema, idx.Seen()[pks[i]], rows[i]) else rows[i] == []
  {
    rows := [];
    var i := 0;
    while i < |pks|
      invariant 0 <= i <= |pks| && |rows| == i
      invariant forall k :: 0 <= k < i ==>
                  if pks[k] in idx.Seen() then IsBuilt(idx.schema, idx.Seen()[pks[k]], rows[k]) else rows[k] == []
    {
      var row := HandleGet(idx, pks[i]);
      rows := rows + [if row.Some? then row.value else []];
      i := i + 1;
    }
  }

  /** A document put under a key is what the next get of that key builds its row from. */
  lemma PutThenGet(schema: Schema, store: Store, row: Row)
    requires PutRow(schema, store, row).0
    ensures var view := Staged(schema, row).value;
            var after := PutRow(schema, store, row).1;
            && RpcKey(schema, view) in after && after[RpcKey(schema, view)] == view
            && forall k :: k != RpcKey(schema, view) ==> (k in after <==> k in store) && (k in store ==> after[k] == store[k])
  {
  }

  /** The value a document has for its key. */
  function KeyOfDocument(schema: Schema, view: View): Option<Value>
    requires |view| == |schema.fields|
  {
    var at := FindField(schema, schema.pk);
    if at.Some? && view[at.value].One? then Some(view[at.value].v) else None
  }

  /** Documents put with different keys do not get in each other's way: both are there afterwards, each under
      its own key.  With the same key, the second one is in the place of the first. */
  lemma PutsApart(schema: Schema, store: Store, a: Row, b: Row)
    requires PutRow(schema, store, a).0 && PutRow(schema, PutRow(schema, store, a).1, b).0
    requires var x, y := KeyOfDocument(schema, Staged(schema, a).value), KeyOfDocument(schema, Staged(schema, b).value);
             x.Some? && y.Some? && SameKind(x.value, y.value)
    ensures var x, y := Staged(schema, a).value, Staged(schema, b).value;
            var after := PutRow(schema, PutRow(schema, store, a).1, b).1;
            && RpcKey(schema, y) in after && after[RpcKey(schema, y)] == y
            && RpcKey(schema, x) in after
            && (KeyOfDocument(schema, x) != KeyOfDocument(schema, y) ==> RpcKey(schema, x) != RpcKey(schema, y) && after[RpcKey(schema, x)] == x)
            && (KeyOfDocument(schema, x) == KeyOfDocument(schema, y) ==> RpcKey(schema, x) == RpcKey(schema, y))
  {
    hide RowApplied, KeyText;
    var x, y := Staged(schema, a).value, Staged(schema, b).value;
    KeyTextsApart(KeyOfDocument(schema, x).value, KeyOfDocument(schema, y).value);
  }

  /** A row of one column, for the field the key is in. */
  function KeyRow(schema: Schema, at: nat): Row
    requires at < |schema.fields|
  {
    var def := schema.fields[at];
    [FieldValue(def.fieldId, Sent(def), Some(if def.ty.String? then Text("a") else Int(0)), None)]
  }

  predicate RpcKeyed(schema: Schema) {
    var at := FindField(schema, schema.pk);
    at.Some? && (var ty := schema.fields[at.value].ty; ty.Bool? || ty.Int32? || ty.Int64? || ty.String?)
  }

  lemma KeyRowAccepted(schema: Schema, store: Store)
    requires WellFormed(schema) && RpcKeyed(schema)
    ensures PutRow(schema, store, KeyRow(schema, FindField(schema, schema.pk).value)).0
  {
    var at := FindField(schema, schema.pk).value;
    var row := KeyRow(schema, at);
    FindsItsField(schema, at);
    assert row[..0] == [];
    assert RowApplied(schema, EmptyView(schema), row[..0]) == Some(EmptyView(schema));
    assert KeyText(Int(0)) == "0" && KeyText(Text("a")) == "a";
  }

  /** Which tables RPC puts can fill at all: some put is accepted exactly if the key field is declared, and
      as a boolean, an integer or a string.  Tables keyed by bytes take messages, but no RPC puts. */
  lemma PutsByKeyType(schema: Schema, store: Store)
    requires WellFormed(schema)
    ensures (exists row: Row :: PutRow(schema, store, row).0) <==> RpcKeyed(schema)
  {
    if RpcKeyed(schema) {
      KeyRowAccepted(schema, store);
    } else {
      forall row: Row ensures !PutRow(schema, store, row).0 {}
    }
  }
}
