/** The round trip: reading a buffer through a schema gives the tree that was written. */
module ReadsBack {
  import opened Wrappers
  import opened Bytes
  import opened Wire
  import opened Layout
  import opened Typed
  import S = Schema

  lemma ObjThere(buf: seq<byte>, objs: Objects, m: nat, o: nat)
    requires Holds(buf, objs, m) && o in objs
    ensures ObjAt(buf, |buf| - o, objs[o], m)
  {
  }

  lemma TextReads(buf: seq<byte>, objs: Objects, m: nat, o: nat)
    requires Holds(buf, objs, m) && o in objs && objs[o].Str?
    ensures S.ReadText(buf, |buf| - o) == Some(S.Chars(objs[o].chars))
  {
    ObjThere(buf, objs, m, o);
  }

  lemma {:induction false} TextsRead(buf: seq<byte>, objs: Objects, m: nat, pos: int, targets: seq<nat>, i: nat)
    requires Holds(buf, objs, m) && i <= |targets| && LeadsTo(buf, pos + 4, targets)
    requires forall t :: t in targets ==> t in objs && objs[t].Str?
    ensures forall t :: t in targets[i..] ==> t in objs && objs[t].Str?
    ensures S.ReadTexts(buf, pos, i, |targets|) == Some(TextTrees(objs, targets[i..]))
    decreases |targets| - i
  {
    hide Holds, S.ReadText, ReadScalar;
    if i < |targets| {
      assert targets[i] in targets;
      assert Follow(buf, pos + 4 + 4 * i) == Some(|buf| - targets[i]);
      TextReads(buf, objs, m, targets[i]);
      TextsRead(buf, objs, m, pos, targets, i + 1);
      assert targets[i..] == [targets[i]] + targets[i + 1..];
    }
  }

  lemma {:induction false} TableReads(buf: seq<byte>, objs: Objects, m: nat, o: nat, fields: seq<S.Field>)
    requires Holds(buf, objs, m) && TableTyped(objs, o, fields) && S.WellFormed(fields)
    ensures S.ReadTable(buf, |buf| - o, fields) == Some(TableTree(objs, o, fields))
    decreases fields, 1
  {
    ObjThere(buf, objs, m, o);
    hide Holds;
    FieldsRead(buf, objs, m, |buf| - o, objs[o].fields, fields);
  }

  lemma {:induction false} FieldsRead(buf: seq<byte>, objs: Objects, m: nat, pos: int, vals: map<nat, FieldVal>, fields: seq<S.Field>)
    requires Holds(buf, objs, m) && TableAt(buf, pos, vals, m)
    requires FieldsTyped(objs, vals, fields) && S.WellFormed(fields)
    ensures S.ReadTable(buf, pos, fields) == Some(FieldsTree(objs, vals, fields))
    decreases fields, 0
  {
    hide Holds, TableAt;
    if fields != [] {
      FieldReads(buf, objs, m, pos, vals, fields[0]);
      FieldsRead(buf, objs, m, pos, vals, fields[1..]);
    }
  }

  lemma {:induction false} FieldReads(buf: seq<byte>, objs: Objects, m: nat, pos: int, vals: map<nat, FieldVal>, field: S.Field)
    requires Holds(buf, objs, m) && TableAt(buf, pos, vals, m)
    requires FieldTyped(objs, vals, field) && S.WellFormedField(field)
    ensures S.ReadField(buf, pos, field) == Some(FieldTree(objs, vals, field))
    decreases field, 0
  {
    hide Holds, TableAt;
    TableField(buf, pos, vals, m, field.slot);
    if field.slot in vals && !field.kind.Num? {
      ObjReads(buf, objs, m, vals[field.slot].target, field.kind);
    }
  }

  lemma {:induction false} ObjReads(buf: seq<byte>, objs: Objects, m: nat, o: nat, kind: S.Kind)
    requires Holds(buf, objs, m) && ObjTyped(objs, o, kind) && S.WellFormedKind(kind)
    ensures S.ReadObject(buf, |buf| - o, kind) == Some(ObjTree(objs, o, kind))
    decreases kind, 0
  {
    ObjThere(buf, objs, m, o);
    hide Holds, TableAt;
    match kind
    case Text => TextReads(buf, objs, m, o);
    case Nums(w) =>
    case Texts =>
      TextsRead(buf, objs, m, |buf| - o, objs[o].targets, 0);
      assert objs[o].targets[0..] == objs[o].targets;
    case Sub(fields) => TableReads(buf, objs, m, o, fields);
    case Subs(fields) =>
      TablesRead(buf, objs, m, |buf| - o, objs[o].targets, 0, fields);
      assert objs[o].targets[0..] == objs[o].targets;
  }

  lemma {:induction false} TablesRead(buf: seq<byte>, objs: Objects, m: nat, pos: int, targets: seq<nat>, i: nat, fields: seq<S.Field>)
    requires Holds(buf, objs, m) && i <= |targets| && LeadsTo(buf, pos + 4, targets)
    requires S.WellFormed(fields) && forall t :: t in targets ==> TableTyped(objs, t, fields)
    ensures forall t :: t in targets[i..] ==> TableTyped(objs, t, fields)
    ensures S.ReadTables(buf, pos, i, |targets|, fields) == Some(TableTrees(objs, targets[i..], fields))
    decreases fields, 2, |targets| - i
  {
    hide Holds, S.ReadTable, TableTyped, TableTree, ReadScalar;
    if i < |targets| {
      assert targets[i] in targets;
      assert Follow(buf, pos + 4 + 4 * i) == Some(|buf| - targets[i]);
      TableReads(buf, objs, m, targets[i], fields);
      TablesRead(buf, objs, m, pos, targets, i + 1, fields);
      assert targets[i..] == [targets[i]] + targets[i + 1..];
    }
  }
}
