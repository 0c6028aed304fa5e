/** INSERT, UPSERT and DELETE over the index, and what they come to on a map from keys to documents. */
module IngestOps {
  import opened Wrappers
  import opened Ingest

  type Members = seq<(string, Json)>

  /** A JSON object's keys are unique. */
  predicate Unique(members: Members) {
    forall i, j :: 0 <= i < j < |members| ==> members[i].0 != members[j].0
  }

  function Lookup(members: Members, key: string): (r: Option<Json>)
    ensures r.Some? ==> exists i :: 0 <= i < |members| && members[i] == (key, r.value)
    ensures r.None? ==> forall i :: 0 <= i < |members| ==> members[i].0 != key
  {
    if members == [] then None
    else if members[|members| - 1].0 == key then
      assert members[|members| - 1] == (key, members[|members| - 1].1);
      Some(members[|members| - 1].1)
    else Lookup(members[..|members| - 1], key)
  }

  // ---- Keys ----

  function Digits(n: nat): string {
    if n < 10 then ["0123456789"[n]] else Digits(n / 10) + ["0123456789"[n % 10]]
  }

  /** `std::to_string` of an integer key, or the text of a string key. */
  function KeyText(v: Value): string {
    match v
    case Int(i) => if i < 0 then "-" + Digits(-i) else Digits(i)
    case Bits(b) => Digits(b)
    case Text(s) => s
  }

  // ---- No two keys have one text ----

  predicate IsDecimal(s: string) {
    s != "" && forall c :: c in s ==> '0' <= c <= '9'
  }

  function DigitValue(c: char): nat {
    if '0' <= c <= '9' then c as int - '0' as int else 0
  }

  /** The number a decimal text stands for. */
  function Number(s: string): nat {
    if s == "" then 0 else 10 * Number(s[..|s| - 1]) + DigitValue(s[|s| - 1])
  }

  /** The text of a number is a decimal that stands for it, without leading zeros. */
  lemma {:induction false} DigitsStandFor(n: nat)
    ensures IsDecimal(Digits(n)) && Number(Digits(n)) == n
    ensures Digits(n)[0] == '0' ==> n == 0
  {
    if n >= 10 {
      DigitsStandFor(n / 10);
      assert Digits(n)[..|Digits(n)| - 1] == Digits(n / 10);
    }
  }

  predicate SameKind(a: Value, b: Value) {
    (a.Int? && b.Int?) || (a.Bits? && b.Bits?) || (a.Text? && b.Text?)
  }

  /** The integer a key text stands for. */
  function Integer(s: string): int {
    if s != "" && s[0] == '-' then 0 - (Number(s[1..]) as int) else Number(s)
  }

  lemma IntegerText(i: int)
    ensures var s := KeyText(Int(i));
            (if i < 0 then s != "" && s[0] == '-' && IsDecimal(s[1..]) else IsDecimal(s)) && Integer(s) == i
  {
    DigitsStandFor(if i < 0 then -i else i);
    var s := KeyText(Int(i));
    if i < 0 {
      assert s[1..] == Digits(-i);
    } else {
      assert s[0] in s;
    }
  }

  /** Values of one type have the same text only if they are the same. */
  lemma KeyTextsApart(a: Value, b: Value)
    requires SameKind(a, b)
    ensures KeyText(a) == KeyText(b) <==> a == b
  {
    match a
    case Int(i) =>
      IntegerText(i);
      IntegerText(b.i);
    case Bits(n) =>
      DigitsStandFor(n);
      DigitsStandFor(b.b);
    case Text(_) =>
  }

  predicate IsKeyType(ty: Type) {
    ty.Int32? || ty.Int64? || ty.String? || ty.Bytes?
  }

  /** `ExtractPkString` */
  function ExtractPk(schema: Schema, conv: Conv, members: Members): (Outcome, string) {
    var at := FindField(schema, schema.pk);
    if at.None? then (Rejected, "")
    else
      var pv := Lookup(members, schema.pk);
      if pv.None? || pv.value.Null? then (Rejected, "")
      else if !IsKeyType(schema.fields[at.value].ty) then (Rejected, "")
      else
        var v := conv(schema.fields[at.value].ty, pv.value);
        if v.None? then (Thrown, "") else (Applied, KeyText(v.value))
  }

  /** A message names a key if its table has one, of integers, strings or bytes, and it gives it a value that
      can be converted; with any other key it is rejected, and what cannot be converted throws. */
  lemma KeyNamed(schema: Schema, conv: Conv, members: Members)
    requires Unique(members)
    ensures var at := FindField(schema, schema.pk);
            var outcome := ExtractPk(schema, conv, members).0;
            && (outcome.Rejected? <==>
                  || at.None? || (var ty := schema.fields[at.value].ty; ty.Bool? || ty.Float32? || ty.Float64?)
                  || forall m :: m in members && m.0 == schema.pk ==> m.1.Null?)
            && (outcome.Thrown? ==> exists m :: m in members && m.0 == schema.pk && conv(schema.fields[at.value].ty, m.1).None?)
            && (outcome.Applied? ==>
                  exists m :: m in members && m.0 == schema.pk && conv(schema.fields[at.value].ty, m.1).Some?
                              && ExtractPk(schema, conv, members).1 == KeyText(conv(schema.fields[at.value].ty, m.1).value))
  {
    var pv := Lookup(members, schema.pk);
    if pv.Some? { assert (schema.pk, pv.value) in members; }
  }

  /** The key under which the index files a document. */
  function KeyOf(schema: Schema, view: View): string
    requires |view| == |schema.fields|
  {
    var at := FindField(schema, schema.pk);
    if at.Some? && view[at.value].One? then KeyText(view[at.value].v) else ""
  }

  lemma {:induction false} MergedPk(schema: Schema, conv: Conv, view: View, members: Members, at: nat)
    requires WellFormed(schema) && Fits(schema, view) && FindField(schema, schema.pk) == Some(at)
    requires Unique(members) && Merged(schema, conv, view, members).0.Applied?
    ensures var pv := Lookup(members, schema.pk);
            var out := Merged(schema, conv, view, members).1[at];
            if pv.None? || pv.value.Null? || IsControl(schema.pk) then out == view[at]
            else conv(schema.fields[at].ty, pv.value).Some? && out == One(conv(schema.fields[at].ty, pv.value).value)
  {
    if members != [] {
      var init := members[..|members| - 1];
      assert forall i :: 0 <= i < |init| ==> init[i] == members[i];
      MergedPk(schema, conv, view, init, at);
    }
  }

  /** The key of a merged document: the one the message names, but if the field has the name of a control key
      the message cannot set it, and the document keeps the key it had. */
  lemma MergedKey(schema: Schema, conv: Conv, view: View, members: Members)
    requires WellFormed(schema) && Fits(schema, view) && Unique(members)
    requires ExtractPk(schema, conv, members).0.Applied? && Merged(schema, conv, view, members).0.Applied?
    ensures KeyOf(schema, Merged(schema, conv, view, members).1)
         == if IsControl(schema.pk) then KeyOf(schema, view) else ExtractPk(schema, conv, members).1
  {
    MergedPk(schema, conv, view, members, FindField(schema, schema.pk).value);
  }

  /** A document merged from a message is filed under the key the message names, if and only if the key field
      does not have the name of a control key or the document had this key before. */
  lemma FiledUnderPk(schema: Schema, conv: Conv, view: View, members: Members)
    requires WellFormed(schema) && Fits(schema, view) && Unique(members)
    requires ExtractPk(schema, conv, members).0.Applied? && Merged(schema, conv, view, members).0.Applied?
    ensures KeyOf(schema, Merged(schema, conv, view, members).1) == ExtractPk(schema, conv, members).1
       <==> !IsControl(schema.pk) || KeyOf(schema, view) == ExtractPk(schema, conv, members).1
  {
    MergedKey(schema, conv, view, members);
  }

  /** The key of a document to which nothing was put. */
  function DefaultKey(ty: Type): string {
    KeyText(Default(ty))
  }

  lemma EmptyKey(schema: Schema)
    requires WellFormed(schema) && FindField(schema, schema.pk).Some?
    ensures KeyOf(schema, EmptyView(schema)) == DefaultKey(schema.fields[FindField(schema, schema.pk).value].ty)
  {
  }

  /** So a new document is filed under the key its message names if and only if the key field is an ordinary
      one or the key named is the default. */
  lemma NewFiledUnderPk(schema: Schema, conv: Conv, members: Members)
    requires WellFormed(schema) && Unique(members) && ExtractPk(schema, conv, members).0.Applied?
    requires Fits(schema, EmptyView(schema)) && Merged(schema, conv, EmptyView(schema), members).0.Applied?
    ensures KeyOf(schema, Merged(schema, conv, EmptyView(schema), members).1) == ExtractPk(schema, conv, members).1
       <==> !IsControl(schema.pk)
            || ExtractPk(schema, conv, members).1 == DefaultKey(schema.fields[FindField(schema, schema.pk).value].ty)
  {
    FiledUnderPk(schema, conv, EmptyView(schema), members);
    EmptyKey(schema);
  }

  const OP_AS_KEY := Schema([FieldDef(1, "_op", false, String)], "_op")

  function Texts(ty: Type, j: Json): Option<Value> {
    if ty.String? && j.Str? then Some(Text(j.s)) else None
  }

  /** A table keyed by its field `_op`: the message names the key "upsert", and the document gets the key "". */
  lemma ControlKeyMisfiles()
    ensures var message: Members := [("_op", Str("upsert"))];
            && WellFormed(OP_AS_KEY) && Unique(message) && Fits(OP_AS_KEY, EmptyView(OP_AS_KEY))
            && ExtractPk(OP_AS_KEY, Texts, message) == (Applied, "upsert")
            && Merged(OP_AS_KEY, Texts, EmptyView(OP_AS_KEY), message).0.Applied?
            && KeyOf(OP_AS_KEY, Merged(OP_AS_KEY, Texts, EmptyView(OP_AS_KEY), message).1) == ""
  {
    var message: Members := [("_op", Str("upsert"))];
    assert FindField(OP_AS_KEY, "_op") == Some(0);
    assert Lookup(message, "_op") == Some(Str("upsert"));
    assert message[..0] == [];
    assert Merged(OP_AS_KEY, Texts, EmptyView(OP_AS_KEY), message) == (Applied, EmptyView(OP_AS_KEY));
  }

  // ---- The operations on a map ----

  type Store = map<string, View>

  ghost predicate StoreFits(schema: Schema, store: Store) {
    forall k :: k in store ==> Fits(schema, store[k])
  }

  lemma EmptyFits(schema: Schema)
    ensures Fits(schema, EmptyView(schema))
  {
  }

  lemma CopiedFits(schema: Schema, view: View)
    requires Fits(schema, view)
    ensures Fits(schema, Copied(schema, view))
  {
  }

  function Insert(schema: Schema, conv: Conv, store: Store, members: Members): (Outcome, Store)
  {
    var (found, pk) := ExtractPk(schema, conv, members);
    if !found.Applied? then (found, store)
    else if pk in store then (Rejected, store)
    else
      EmptyFits(schema);
      var (outcome, view) := Merged(schema, conv, EmptyView(schema), members);
      if outcome.Applied? then (Applied, store[KeyOf(schema, view) := view]) else (outcome, store)
  }

  /** The document an upsert starts from. */
  function Base(schema: Schema, store: Store, pk: string): (v: View)
    requires StoreFits(schema, store)
    ensures Fits(schema, v)
  {
    if pk in store then CopiedFits(schema, store[pk]); Copied(schema, store[pk]) else EmptyFits(schema); EmptyView(schema)
  }

  function Upsert(schema: Schema, conv: Conv, store: Store, members: Members): (Outcome, Store)
    requires StoreFits(schema, store)
  {
    var (found, pk) := ExtractPk(schema, conv, members);
    if !found.Applied? then (found, store)
    else
      var (outcome, view) := Merged(schema, conv, Base(schema, store, pk), members);
      if outcome.Applied? then (Applied, store[KeyOf(schema, view) := view]) else (outcome, store)
  }

  function Delete(schema: Schema, conv: Conv, store: Store, members: Members): (Outcome, Store) {
    var (found, pk) := ExtractPk(schema, conv, members);
    if found.Applied? then (Applied, store - {pk}) else (found, store)
  }

  function LowerChar(c: char): char {
    if 'A' <= c <= 'Z' then ((c as int) + 32) as char else c
  }

  function Lower(s: string): string {
    seq(|s|, i requires 0 <= i < |s| => LowerChar(s[i]))
  }

  /** The operation a message asks for; without a string `_op` it is an upsert. */
  function Operation(members: Members): string {
    var op := Lookup(members, "_op");
    if op.Some? && op.value.Str? then Lower(op.value.s) else ""
  }

  /** The same letter, capital or not. */
  predicate SameLetter(c: char, d: char) {
    c == d || ('A' <= c <= 'Z' && d as int == c as int + 32) || ('A' <= d <= 'Z' && c as int == d as int + 32)
  }

  predicate SameLetters(a: string, b: string) {
    |a| == |b| && forall i :: 0 <= i < |a| ==> SameLetter(a[i], b[i])
  }

  lemma LowerIs(a: string, b: string)
    ensures Lower(a) == Lower(b) <==> SameLetters(a, b)
  {
    if Lower(a) == Lower(b) {
      assert |a| == |Lower(a)| == |Lower(b)| == |b|;
      forall i | 0 <= i < |a|
        ensures SameLetter(a[i], b[i])
      {
        assert LowerChar(a[i]) == Lower(a)[i] == Lower(b)[i] == LowerChar(b[i]);
      }
    }
  }

  /** A message asks for one of the three operations exactly if its `_op` is the name of it, in whatever case. */
  lemma OperationIs(members: Members, name: string)
    requires name == "delete" || name == "insert" || name == "upsert"
    ensures Operation(members) == name
       <==> Lookup(members, "_op").Some? && Lookup(members, "_op").value.Str? && SameLetters(Lookup(members, "_op").value.s, name)
  {
    hide Lookup;
    assert Lower(name) == name;
    if Lookup(members, "_op").Some? && Lookup(members, "_op").value.Str? { LowerIs(Lookup(members, "_op").value.s, name); }
  }

  /** `ApplyStreamJsonObject` */
  function ApplyObject(schema: Schema, conv: Conv, store: Store, members: Members): (Outcome, Store)
    requires StoreFits(schema, store)
  {
    var op := Operation(members);
    if op == "delete" then Delete(schema, conv, store, members)
    else if op == "insert" then Insert(schema, conv, store, members)
    else if op == "upsert" || op == "" then Upsert(schema, conv, store, members)
    else (Rejected, store)
  }

  /** What each operation does, of the key a message names: a deletion removes it and nothing else; an insertion
      is rejected if it is there, and otherwise starts from an empty document; any other operation but an
      upsert is rejected. */
  lemma OperationsMean(schema: Schema, conv: Conv, store: Store, members: Members)
    requires WellFormed(schema) && StoreFits(schema, store) && Unique(members)
    ensures var (found, pk) := ExtractPk(schema, conv, members);
            var (outcome, after) := ApplyObject(schema, conv, store, members);
            && (Operation(members) !in {"delete", "insert", "upsert", ""} ==> outcome.Rejected? && after == store)
            && (Operation(members) in {"delete", "insert", "upsert", ""} && !found.Applied? ==> outcome == found && after == store)
            && (Operation(members) == "delete" && found.Applied? ==> outcome.Applied? && after == store - {pk})
            && (Operation(members) == "insert" && found.Applied? && pk in store ==> outcome.Rejected? && after == store)
            && (Operation(members) == "insert" && outcome.Applied? && !IsControl(schema.pk) ==>
                  pk !in store && pk in after
                  && Fits(schema, EmptyView(schema)) && (Applied, after[pk]) == Merged(schema, conv, EmptyView(schema), members))
  {
    hide Merged, Lookup, KeyOf, FindField;
    EmptyFits(schema);
    if Operation(members) == "insert" && ApplyObject(schema, conv, store, members).0.Applied? {
      MergedKey(schema, conv, EmptyView(schema), members);
    }
  }

  lemma ApplyFits(schema: Schema, conv: Conv, store: Store, members: Members)
    requires StoreFits(schema, store)
    ensures StoreFits(schema, ApplyObject(schema, conv, store, members).1)
  {
  }

  /** The key an applied message touches: the one a deletion names, or the one of the document put. */
  function Touches(schema: Schema, conv: Conv, store: Store, members: Members): string
    requires StoreFits(schema, store)
  {
    var pk := ExtractPk(schema, conv, members).1;
    if Operation(members) == "delete" then pk
    else if Operation(members) == "insert" then EmptyFits(schema); KeyOf(schema, Merged(schema, conv, EmptyView(schema), members).1)
    else KeyOf(schema, Merged(schema, conv, Base(schema, store, pk), members).1)
  }

  /** It is the key the message names, unless the key field has the name of a control key. */
  lemma TouchesPk(schema: Schema, conv: Conv, store: Store, members: Members)
    requires WellFormed(schema) && StoreFits(schema, store) && Unique(members) && !IsControl(schema.pk)
    requires ApplyObject(schema, conv, store, members).0.Applied?
    ensures Touches(schema, conv, store, members) == ExtractPk(schema, conv, members).1
  {
    hide Merged, Lookup, KeyOf;
    EmptyFits(schema);
    var pk := ExtractPk(schema, conv, members).1;
    if Operation(members) == "delete" {
    } else if Operation(members) == "insert" {
      MergedKey(schema, conv, EmptyView(schema), members);
    } else {
      MergedKey(schema, conv, Base(schema, store, pk), members);
    }
  }

  /** The value a message gives for its key. */
  function KeyValue(schema: Schema, conv: Conv, members: Members): Value
    requires ExtractPk(schema, conv, members).0.Applied?
  {
    conv(schema.fields[FindField(schema, schema.pk).value].ty, Lookup(members, schema.pk).value).value
  }

  /** Messages with different keys touch different documents, and messages with the same key the same one,
      whatever is in the store by then. */
  lemma KeysApart(schema: Schema, conv: Conv, store: Store, other: Store, a: Members, b: Members)
    requires WellFormed(schema) && !IsControl(schema.pk)
    requires StoreFits(schema, store) && Unique(a) && ApplyObject(schema, conv, store, a).0.Applied?
    requires StoreFits(schema, other) && Unique(b) && ApplyObject(schema, conv, other, b).0.Applied?
    requires SameKind(KeyValue(schema, conv, a), KeyValue(schema, conv, b))
    ensures Touches(schema, conv, store, a) == Touches(schema, conv, other, b)
       <==> KeyValue(schema, conv, a) == KeyValue(schema, conv, b)
  {
    hide Touches, Lookup;
    TouchesPk(schema, conv, store, a);
    TouchesPk(schema, conv, other, b);
    KeyTextsApart(KeyValue(schema, conv, a), KeyValue(schema, conv, b));
  }

  /** What a message that was not applied leaves behind, and what one that was leaves alone. */
  lemma OnlyItsKey(schema: Schema, conv: Conv, store: Store, members: Members, k: string)
    requires StoreFits(schema, store)
    ensures var (outcome, after) := ApplyObject(schema, conv, store, members);
            && (!outcome.Applied? ==> after == store)
            && (outcome.Applied? && k != Touches(schema, conv, store, members) ==>
                  (k in after <==> k in store) && (k in store ==> after[k] == store[k]))
  {
    hide Merged, Lookup, KeyOf;
    EmptyFits(schema);
  }

  // ---- What an upsert means, field by field ----

  /** The member that sets field `i`, if any: present, not null, not a control key. */
  function MemberFor(schema: Schema, members: Members, i: nat): Option<Json>
    requires i < |schema.fields|
  {
    var name := schema.fields[i].name;
    var val := Lookup(members, name);
    if IsControl(name) || val.None? || val.value.Null? then None else val
  }

  predicate FieldUpserted(conv: Conv, def: FieldDef, before: Obs, val: Option<Json>, after: Obs)
    requires before.Many? == def.isArray
  {
    if val.None? then after == before
    else MergedField(conv, def, before, val.value) == (Applied, after)
  }

  lemma FindIsUnique(schema: Schema, i: nat)
    requires WellFormed(schema) && i < |schema.fields|
    ensures FindField(schema, schema.fields[i].name) == Some(i)
  {
    var at := FindField(schema, schema.fields[i].name);
    assert at.Some?;
  }

  lemma {:induction false} MergedFieldwise(schema: Schema, conv: Conv, view: View, members: Members, i: nat)
    requires WellFormed(schema) && Fits(schema, view) && Unique(members) && i < |schema.fields|
    requires Merged(schema, conv, view, members).0.Applied?
    ensures FieldUpserted(conv, schema.fields[i], view[i], MemberFor(schema, members, i), Merged(schema, conv, view, members).1[i])
  {
    if members != [] {
      var init := members[..|members| - 1];
      assert forall j :: 0 <= j < |init| ==> init[j] == members[j];
      FindIsUnique(schema, i);
      MergedFieldwise(schema, conv, view, init, i);
    }
  }

  /** An upsert overwrites the scalars and appends to the arrays it names, and leaves the other fields of an
      existing document, or the defaults of a new one, as they are.  The document is filed under the key
      named, unless that key's field cannot be set. */
  lemma UpsertMeaning(schema: Schema, conv: Conv, store: Store, members: Members, i: nat)
    requires WellFormed(schema) && StoreFits(schema, store) && Unique(members) && i < |schema.fields|
    requires Upsert(schema, conv, store, members).0.Applied?
    requires forall j :: 0 <= j < |schema.fields| ==> !IsBoolArray(schema.fields[j])
    ensures var pk := ExtractPk(schema, conv, members).1;
            var after := Upsert(schema, conv, store, members).1;
            var before := if pk in store then store[pk] else EmptyView(schema);
            var key := if IsControl(schema.pk) then KeyOf(schema, before) else pk;
            && |before| == |schema.fields| && key in after && KeyOf(schema, after[key]) == key && |after[key]| == |before|
            && before[i].Many? == schema.fields[i].isArray
            && FieldUpserted(conv, schema.fields[i], before[i], MemberFor(schema, members, i), after[key][i])
  {
    var pk := ExtractPk(schema, conv, members).1;
    if pk in store { CopyPreserves(schema, store[pk]); }
    MergedKey(schema, conv, Base(schema, store, pk), members);
    MergedFieldwise(schema, conv, Base(schema, store, pk), members, i);
  }

  // ---- The index ----

  class KVIndex {
    const schema: Schema
    var docs: map<string, Stored>

    constructor (schema: Schema)
      ensures this.schema == schema && docs == map[]
    {
      this.schema := schema;
      docs := map[];
    }

    ghost function Seen(): (s: Store)
      reads this
      ensures StoreFits(schema, s)
    {
      map k | k in docs :: docs[k].Seen(schema)
    }

    method NewDoc() returns (doc: Doc)
      ensures fresh(doc) && doc.Contents() == NEW_DOC
    {
      doc := new Doc(NEW_DOC);
    }

    method Get(pk: string) returns (found: bool, doc: Doc)
      ensures fresh(doc) && found == (pk in docs) && (found ==> doc.Contents() == docs[pk])
    {
      found := pk in docs;
      doc := new Doc(if found then docs[pk] else NEW_DOC);
    }

    /** `Put` and `Upsert`: files the document under its primary key. */
    method Put(doc: Doc)
      modifies this
      ensures docs == old(docs)[KeyOf(schema, doc.Seen(schema)) := doc.Contents()]
    {
      docs := docs[KeyOf(schema, doc.Contents().Seen(schema)) := doc.Contents()];
    }

    method Delete(pk: string)
      modifies this
      ensures docs == old(docs) - {pk}
    {
      docs := docs - {pk};
    }
  }

  lemma NewIsEmpty(schema: Schema, stored: Stored)
    requires stored == NEW_DOC
    ensures stored.Seen(schema) == EmptyView(schema)
  {
  }

  method ApplyInsert(idx: KVIndex, conv: Conv, members: Members) returns (outcome: Outcome)
    requires WellFormed(idx.schema) && Unique(members)
    modifies idx
    ensures (outcome, idx.Seen()) == Insert(idx.schema, conv, old(idx.Seen()), members)
  {
    var (found, pk) := ExtractPk(idx.schema, conv, members);
    if !found.Applied? { return found; }
    var present, _ := idx.Get(pk);
    if present { return Rejected; }
    var doc := idx.NewDoc();
    assert doc.Seen(idx.schema) == EmptyView(idx.schema);
    outcome := MergeJsonIntoDoc(idx.schema, conv, doc, members);
    if !outcome.Applied? { return; }
    idx.Put(doc);
    assert idx.Seen() == old(idx.Seen())[KeyOf(idx.schema, doc.Seen(idx.schema)) := doc.Seen(idx.schema)];
  }

  method ApplyUpsertMerge(idx: KVIndex, conv: Conv, members: Members) returns (outcome: Outcome)
    requires WellFormed(idx.schema) && Unique(members)
    modifies idx
    ensures (outcome, idx.Seen()) == Upsert(idx.schema, conv, old(idx.Seen()), members)
  {
    hide ExtractPk, Merged, KeyOf, Copied, EmptyView, WellFormed, Unique;
    var (found, pk) := ExtractPk(idx.schema, conv, members);
    if !found.Applied? { return found; }
    var doc := idx.NewDoc();
    var present, oldDoc := idx.Get(pk);
    if present {
      CopyDocFromSchema(idx.schema, oldDoc, doc);
    } else {
      NewIsEmpty(idx.schema, doc.Contents());
    }
    assert doc.Seen(idx.schema) == Base(idx.schema, old(idx.Seen()), pk);
    outcome := MergeJsonIntoDoc(idx.schema, conv, doc, members);
    if !outcome.Applied? { return; }
    idx.Put(doc);
    assert idx.Seen() == old(idx.Seen())[KeyOf(idx.schema, doc.Seen(idx.schema)) := doc.Seen(idx.schema)];
  }

  method ApplyDelete(idx: KVIndex, conv: Conv, members: Members) returns (outcome: Outcome)
    modifies idx
    ensures (outcome, idx.Seen()) == Delete(idx.schema, conv, old(idx.Seen()), members)
  {
    var (found, pk) := ExtractPk(idx.schema, conv, members);
    if !found.Applied? { return found; }
    idx.Delete(pk);
    assert idx.Seen() == old(idx.Seen()) - {pk};
    outcome := Applied;
  }

  method ApplyStreamJsonObject(idx: KVIndex, conv: Conv, members: Members) returns (outcome: Outcome)
    requires WellFormed(idx.schema) && Unique(members)
    modifies idx
    ensures (outcome, idx.Seen()) == ApplyObject(idx.schema, conv, old(idx.Seen()), members)
  {
    var op := Operation(members);
    if op == "delete" {
      outcome := ApplyDelete(idx, conv, members);
    } else if op == "insert" {
      outcome := ApplyInsert(idx, conv, members);
    } else if op == "upsert" || op == "" {
      outcome := ApplyUpsertMerge(idx, conv, members);
    } else {
      outcome := Rejected;
    }
  }
}
