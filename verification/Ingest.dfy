/** JSON messages applied to a keyed store of documents. */
module Ingest {
  import opened Wrappers

  datatype Type = Bool | Int32 | Int64 | Float32 | Float64 | String | Bytes

  /** A stored value; floats are kept as bits. */
  datatype Value = Int(i: int) | Bits(b: nat) | Text(s: string)

  datatype FieldDef = FieldDef(fieldId: nat, name: string, isArray: bool, ty: Type)

  datatype Schema = Schema(fields: seq<FieldDef>, pk: string)

  /** Field ids and names are unique, and the primary key is not an array. */
  ghost predicate WellFormed(schema: Schema) {
    && (forall i, j :: 0 <= i < j < |schema.fields| ==>
          schema.fields[i].fieldId != schema.fields[j].fieldId && schema.fields[i].name != schema.fields[j].name)
    && (forall i :: 0 <= i < |schema.fields| && schema.fields[i].name == schema.pk ==> !schema.fields[i].isArray)
  }

  /** The position of a field in the schema. */
  function FindFrom(fields: seq<FieldDef>, name: string, i: nat): (r: Option<nat>)
    requires i <= |fields|
    ensures r.Some? ==> i <= r.value < |fields| && fields[r.value].name == name
    ensures r.None? ==> forall k :: i <= k < |fields| ==> fields[k].name != name
    decreases |fields| - i
  {
    if i == |fields| then None
    else if fields[i].name == name then Some(i)
    else FindFrom(fields, name, i + 1)
  }

  function FindField(schema: Schema, name: string): (r: Option<nat>)
    ensures r.Some? ==> r.value < |schema.fields| && schema.fields[r.value].name == name
  {
    FindFrom(schema.fields, name, 0)
  }

  /** Parsed JSON; `Literal` is a number or a boolean. */
  datatype Json = Null | Literal(text: string) | Str(s: string) | Array(elems: seq<Json>) | Object(members: seq<(string, Json)>)

  /** `e.get<T>()`: the value of the field's C++ type, or `None` where the JSON library throws. */
  type Conv = (Type, Json) -> Option<Value>

  /** The value of a scalar that was never put. */
  function Default(ty: Type): Value {
    match ty
    case Bool => Int(0)
    case Int32 => Int(0)
    case Int64 => Int(0)
    case Float32 => Bits(0)
    case Float64 => Bits(0)
    case String => Text("")
    case Bytes => Text("")
  }

  // ---- Documents as a reader sees them ----

  datatype Obs = One(v: Value) | Many(vs: seq<Value>)

  /** One observation a field, in schema order. */
  type View = seq<Obs>

  function EmptyView(schema: Schema): (v: View)
    ensures |v| == |schema.fields|
  {
    seq(|schema.fields|, i requires 0 <= i < |schema.fields| =>
      if schema.fields[i].isArray then Many([]) else One(Default(schema.fields[i].ty)))
  }

  /** What an index keeps of a document. */
  datatype Stored = Stored(scalars: map<nat, Value>, arrays: map<nat, seq<Value>>) {
    function Observe(def: FieldDef): Obs {
      if def.isArray then Many(if def.fieldId in arrays then arrays[def.fieldId] else [])
      else One(if def.fieldId in scalars then scalars[def.fieldId] else Default(def.ty))
    }

    function Seen(schema: Schema): (v: View)
      ensures |v| == |schema.fields|
    {
      seq(|schema.fields|, i requires 0 <= i < |schema.fields| => Observe(schema.fields[i]))
    }
  }

  const NEW_DOC := Stored(map[], map[])

  class Doc {
    var scalars: map<nat, Value>
    var arrays: map<nat, seq<Value>>

    constructor (stored: Stored)
      ensures Contents() == stored
    {
      scalars, arrays := stored.scalars, stored.arrays;
    }

    function Contents(): Stored
      reads this
    {
      Stored(scalars, arrays)
    }

    /** What the getter of the field's type returns. */
    function Observe(def: FieldDef): Obs
      reads this
    {
      Contents().Observe(def)
    }

    ghost function Seen(schema: Schema): (v: View)
      reads this
      ensures |v| == |schema.fields|
    {
      Contents().Seen(schema)
    }

    method Put(fid: nat, v: Value)
      modifies this
      ensures scalars == old(scalars)[fid := v] && arrays == old(arrays)
    {
      scalars := scalars[fid := v];
    }

    method ArrayPut(fid: nat, vs: seq<Value>)
      modifies this
      ensures arrays == old(arrays)[fid := vs] && scalars == old(scalars)
    {
      arrays := arrays[fid := vs];
    }

    method ArrayAppend(fid: nat, v: Value)
      modifies this
      ensures scalars == old(scalars)
      ensures arrays == old(arrays)[fid := (if fid in old(arrays) then old(arrays)[fid] else []) + [v]]
    {
      arrays := arrays[fid := (if fid in arrays then arrays[fid] else []) + [v]];
    }
  }

  /** Arrays of booleans have no accessors to copy them with. */
  predicate IsBoolArray(def: FieldDef) {
    def.isArray && def.ty.Bool?
  }

  function Copied(schema: Schema, src: View): (v: View)
    requires |src| == |schema.fields|
    ensures |v| == |src|
  {
    seq(|src|, i requires 0 <= i < |src| => if IsBoolArray(schema.fields[i]) then Many([]) else src[i])
  }

  /** Copying keeps every observable field, exactly unless a boolean array holds something. */
  lemma CopyPreserves(schema: Schema, src: View)
    requires |src| == |schema.fields|
    ensures Copied(schema, src) == src
       <==> forall i :: 0 <= i < |src| && schema.fields[i].isArray && schema.fields[i].ty.Bool? ==> src[i] == Many([])
  {
    var dst := Copied(schema, src);
    if forall i :: 0 <= i < |src| && IsBoolArray(schema.fields[i]) ==> src[i] == Many([]) {
      assert forall i :: 0 <= i < |src| ==> dst[i] == src[i];
    } else {
      var i :| 0 <= i < |src| && IsBoolArray(schema.fields[i]) && src[i] != Many([]);
      assert dst[i] == Many([]);
    }
  }

  method CopyDocFromSchema(schema: Schema, src: Doc, dst: Doc)
    requires WellFormed(schema) && src != dst && dst.Contents() == NEW_DOC
    modifies dst
    ensures dst.Seen(schema) == Copied(schema, src.Seen(schema))
  {
    var k := 0;
    while k < |schema.fields|
      invariant 0 <= k <= |schema.fields|
      invariant forall i :: 0 <= i < k ==>
                  dst.Observe(schema.fields[i]) == if IsBoolArray(schema.fields[i]) then Many([]) else src.Observe(schema.fields[i])
      invariant forall i :: k <= i < |schema.fields| ==>
                  schema.fields[i].fieldId !in dst.arrays && schema.fields[i].fieldId !in dst.scalars
    {
      var def := schema.fields[k];
      var seen := src.Observe(def);
      if def.isArray {
        if !def.ty.Bool? && |seen.vs| > 0 {
          dst.ArrayPut(def.fieldId, seen.vs);
        }
      } else {
        dst.Put(def.fieldId, seen.v);
      }
      k := k + 1;
    }
  }

  // ---- Merging ----

  datatype Outcome = Applied | Rejected | Thrown

  /** The values of JSON array elements, or `None` if one of them throws. */
  function Converted(conv: Conv, ty: Type, elems: seq<Json>): Option<seq<Value>> {
    if elems == [] then Some([])
    else
      var init :- Converted(conv, ty, elems[..|elems| - 1]);
      var last :- conv(ty, elems[|elems| - 1]);
      Some(init + [last])
  }

  /** The field after one JSON value is merged into it, and how merging it ends. */
  function MergedField(conv: Conv, def: FieldDef, oldValue: Obs, val: Json): (Outcome, Obs)
    requires oldValue.Many? == def.isArray
  {
    if val.Null? then (Applied, oldValue)
    else if def.isArray then
      if !val.Array? || def.ty.Bool? then (Rejected, oldValue)
      else
        var vs := Converted(conv, def.ty, val.elems);
        if vs.None? then (Thrown, oldValue) else (Applied, Many(oldValue.vs + vs.value))
    else
      var v := conv(def.ty, val);
      if v.None? then (Thrown, oldValue) else (Applied, One(v.value))
  }

  lemma {:induction false} ConvertedEach(conv: Conv, ty: Type, elems: seq<Json>)
    ensures Converted(conv, ty, elems).Some? <==> forall i :: 0 <= i < |elems| ==> conv(ty, elems[i]).Some?
    ensures Converted(conv, ty, elems).Some? ==>
              && |Converted(conv, ty, elems).value| == |elems|
              && forall i :: 0 <= i < |elems| ==> conv(ty, elems[i]) == Some(Converted(conv, ty, elems).value[i])
  {
    if elems != [] {
      var init := elems[..|elems| - 1];
      ConvertedEach(conv, ty, init);
      assert forall i :: 0 <= i < |init| ==> init[i] == elems[i];
    }
  }

  /** What merging a value means: null leaves the field alone; a scalar takes the place of the old one; the
      elements of an array are added behind the old ones, each converted, all or none; and what cannot be
      converted throws. */
  lemma MergeMeans(conv: Conv, def: FieldDef, oldValue: Obs, val: Json)
    requires oldValue.Many? == def.isArray
    ensures var (outcome, after) := MergedField(conv, def, oldValue, val);
            && after.Many? == def.isArray && (!outcome.Applied? || val.Null? ==> after == oldValue)
            && (outcome.Rejected? <==> !val.Null? && def.isArray && (!val.Array? || def.ty.Bool?))
            && (outcome.Thrown? <==>
                  && !val.Null? && !outcome.Rejected?
                  && if def.isArray then exists i :: 0 <= i < |val.elems| && conv(def.ty, val.elems[i]).None? else conv(def.ty, val).None?)
            && (outcome.Applied? && !val.Null? && !def.isArray ==> Some(after.v) == conv(def.ty, val))
            && (outcome.Applied? && !val.Null? && def.isArray ==>
                  && |after.vs| == |oldValue.vs| + |val.elems| && oldValue.vs <= after.vs
                  && forall i :: 0 <= i < |val.elems| ==> Some(after.vs[|oldValue.vs| + i]) == conv(def.ty, val.elems[i]))
  {
    if val.Array? { ConvertedEach(conv, def.ty, val.elems); }
  }

  /** A view whose arrays are where the schema has arrays. */
  ghost predicate Fits(schema: Schema, view: View) {
    |view| == |schema.fields| && forall i :: 0 <= i < |view| ==> view[i].Many? == schema.fields[i].isArray
  }

  /** The keys that are not fields. */
  predicate IsControl(key: string) {
    key == "_op" || key == "_ts"
  }

  /** Merging the members one by one, up to the first that fails. */
  function Merged(schema: Schema, conv: Conv, view: View, members: seq<(string, Json)>): (r: (Outcome, View))
    requires Fits(schema, view)
    ensures Fits(schema, r.1)
  {
    if members == [] then (Applied, view)
    else
      var (outcome, before) := Merged(schema, conv, view, members[..|members| - 1]);
      var (key, val) := members[|members| - 1];
      if !outcome.Applied? then (outcome, before)
      else if IsControl(key) then (Applied, before)
      else
        var at := FindField(schema, key);
        if at.None? then (Applied, before)
        else
          var (o, field) := MergedField(conv, schema.fields[at.value], before[at.value], val);
          if o.Applied? then (Applied, before[at.value := field]) else (o, before)
  }

  /** The members `_op` and `_ts` change no document, whatever the schema. */
  lemma ControlsIgnored(schema: Schema, conv: Conv, view: View, members: seq<(string, Json)>, key: string, val: Json)
    requires Fits(schema, view) && (key == "_op" || key == "_ts")
    ensures Merged(schema, conv, view, members + [(key, val)]) == Merged(schema, conv, view, members)
  {
    assert (members + [(key, val)])[..|members|] == members;
  }

  method MergeOneField(conv: Conv, def: FieldDef, doc: Doc, val: Json) returns (outcome: Outcome)
    modifies doc
    ensures var merged := MergedField(conv, def, old(doc.Observe(def)), val);
            outcome == merged.0 && (outcome.Applied? ==> doc.Observe(def) == merged.1)
    ensures forall other: FieldDef :: other.fieldId != def.fieldId ==> doc.Observe(other) == old(doc.Observe(other))
  {
    if val.Null? { return Applied; }
    if def.isArray {
      if !val.Array? || def.ty.Bool? { return Rejected; }
      var k := 0;
      var elems := val.elems;
      while k < |elems|
        invariant 0 <= k <= |elems|
        invariant Converted(conv, def.ty, elems[..k]).Some?
        invariant doc.Observe(def) == Many(old(doc.Observe(def)).vs + Converted(conv, def.ty, elems[..k]).value)
        invariant forall other: FieldDef :: other.fieldId != def.fieldId ==> doc.Observe(other) == old(doc.Observe(other))
      {
        assert elems[..k + 1][..k] == elems[..k];
        var v := conv(def.ty, elems[k]);
        if v.None? {
          ThrowStays(conv, def.ty, elems, k + 1);
          return Thrown;
        }
        doc.ArrayAppend(def.fieldId, v.value);
        k := k + 1;
      }
      assert elems[..|elems|] == elems;
      return Applied;
    }
    var v := conv(def.ty, val);
    if v.None? { return Thrown; }
    doc.Put(def.fieldId, v.value);
    outcome := Applied;
  }

  lemma {:induction false} ThrowStays(conv: Conv, ty: Type, elems: seq<Json>, k: nat)
    requires k <= |elems| && Converted(conv, ty, elems[..k]).None?
    ensures Converted(conv, ty, elems).None?
    decreases |elems| - k
  {
    if k == |elems| {
      assert elems[..k] == elems;
    } else {
      assert elems[..k + 1][..k] == elems[..k];
      ThrowStays(conv, ty, elems, k + 1);
    }
  }

  lemma {:induction false} FailureStays(schema: Schema, conv: Conv, view: View, members: seq<(string, Json)>, k: nat)
    requires Fits(schema, view) && k <= |members| && !Merged(schema, conv, view, members[..k]).0.Applied?
    ensures Merged(schema, conv, view, members) == Merged(schema, conv, view, members[..k])
    decreases |members| - k
  {
    if k == |members| {
      assert members[..k] == members;
    } else {
      assert members[..k + 1][..k] == members[..k];
      FailureStays(schema, conv, view, members, k + 1);
    }
  }

  method MergeJsonIntoDoc(schema: Schema, conv: Conv, doc: Doc, members: seq<(string, Json)>) returns (outcome: Outcome)
    requires WellFormed(schema)
    modifies doc
    ensures Fits(schema, old(doc.Seen(schema)))
    ensures outcome == Merged(schema, conv, old(doc.Seen(schema)), members).0
    ensures outcome.Applied? ==> doc.Seen(schema) == Merged(schema, conv, old(doc.Seen(schema)), members).1
  {
    ghost var before := doc.Seen(schema);
    var k := 0;
    while k < |members|
      invariant 0 <= k <= |members|
      invariant Merged(schema, conv, before, members[..k]) == (Applied, doc.Seen(schema))
    {
      assert members[..k + 1][..k] == members[..k];
      var (key, val) := members[k];
      if !IsControl(key) {
        var at := FindField(schema, key);
        if at.Some? {
          ghost var was := doc.Seen(schema);
          outcome := MergeOneField(conv, schema.fields[at.value], doc, val);
          if !outcome.Applied? {
            FailureStays(schema, conv, before, members, k + 1);
            return;
          }
          assert doc.Seen(schema) == was[at.value := doc.Observe(schema.fields[at.value])];
        }
      }
      k := k + 1;
    }
    assert members[..|members|] == members;
    outcome := Applied;
  }
}
