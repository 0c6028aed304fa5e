/** Recorded objects that fit a schema: the tree they stand for, and how much nesting a verifier meets. */
module Typed {
  import opened Wrappers
  import opened Bytes
  import opened Layout
  import S = Schema

  // ---- Typing ----

  ghost predicate TableTyped(objs: Objects, o: nat, fields: seq<S.Field>)
    decreases fields, 1
  {
    o in objs && objs[o].Tbl? && FieldsTyped(objs, objs[o].fields, fields)
  }

  ghost predicate FieldsTyped(objs: Objects, vals: map<nat, FieldVal>, fields: seq<S.Field>)
    decreases fields, 0
  {
    fields != [] ==> FieldTyped(objs, vals, fields[0]) && FieldsTyped(objs, vals, fields[1..])
  }

  /** A field is absent, unless required, or of its kind. */
  ghost predicate FieldTyped(objs: Objects, vals: map<nat, FieldVal>, field: S.Field)
    decreases field, 0
  {
    if field.slot !in vals then !field.required
    else
      match field.kind
      case Num(w, _) => vals[field.slot].Scalar? && vals[field.slot].w == w
      case _ => vals[field.slot].Ref? && ObjTyped(objs, vals[field.slot].target, field.kind)
  }

  ghost predicate ObjTyped(objs: Objects, o: nat, kind: S.Kind)
    decreases kind, 0
  {
    && o in objs
    && match kind
       case Num(_, _) => false
       case Text => objs[o].Str?
       case Nums(w) => objs[o].Vec? && objs[o].w == w
       case Texts => objs[o].OffVec? && forall t :: t in objs[o].targets ==> t in objs && objs[t].Str?
       case Sub(fields) => TableTyped(objs, o, fields)
       case Subs(fields) => objs[o].OffVec? && forall t :: t in objs[o].targets ==> TableTyped(objs, t, fields)
  }

  // ---- The tree that was written ----

  ghost function TableTree(objs: Objects, o: nat, fields: seq<S.Field>): seq<S.Tree>
    requires TableTyped(objs, o, fields)
    decreases fields, 1
  {
    FieldsTree(objs, objs[o].fields, fields)
  }

  ghost function FieldsTree(objs: Objects, vals: map<nat, FieldVal>, fields: seq<S.Field>): seq<S.Tree>
    requires FieldsTyped(objs, vals, fields)
    decreases fields, 0
  {
    if fields == [] then []
    else [FieldTree(objs, vals, fields[0])] + FieldsTree(objs, vals, fields[1..])
  }

  ghost function FieldTree(objs: Objects, vals: map<nat, FieldVal>, field: S.Field): S.Tree
    requires FieldTyped(objs, vals, field)
    decreases field, 0
  {
    match field.kind
    case Num(_, default) => S.Number(if field.slot in vals then vals[field.slot].n else default)
    case _ => if field.slot in vals then ObjTree(objs, vals[field.slot].target, field.kind) else S.Absent
  }

  ghost function ObjTree(objs: Objects, o: nat, kind: S.Kind): S.Tree
    requires ObjTyped(objs, o, kind)
    decreases kind, 0
  {
    match kind
    case Text => S.Chars(objs[o].chars)
    case Nums(_) => S.Numbers(objs[o].elems)
    case Texts => S.List(TextTrees(objs, objs[o].targets))
    case Sub(fields) => S.Row(TableTree(objs, o, fields))
    case Subs(fields) => S.List(TableTrees(objs, objs[o].targets, fields))
  }

  ghost function TextTrees(objs: Objects, targets: seq<nat>): seq<S.Tree>
    requires forall t :: t in targets ==> t in objs && objs[t].Str?
  {
    if targets == [] then []
    else
      assert targets[0] in targets && forall t :: t in targets[1..] ==> t in targets;
      [S.Chars(objs[targets[0]].chars)] + TextTrees(objs, targets[1..])
  }

  ghost function TableTrees(objs: Objects, targets: seq<nat>, fields: seq<S.Field>): seq<S.Tree>
    requires forall t :: t in targets ==> TableTyped(objs, t, fields)
    decreases fields, 2, |targets|
  {
    if targets == [] then []
    else
      assert targets[0] in targets && forall t :: t in targets[1..] ==> t in targets;
      [S.Row(TableTree(objs, targets[0], fields))] + TableTrees(objs, targets[1..], fields)
  }

  // ---- How many tables a reader visits, and how deeply they nest ----

  datatype Extent = Extent(depth: nat, tables: nat)

  function Join(a: Extent, b: Extent): Extent {
    Extent(if a.depth < b.depth then b.depth else a.depth, a.tables + b.tables)
  }

  const NOTHING := Extent(0, 0)

  ghost function TableExtent(objs: Objects, o: nat, fields: seq<S.Field>): Extent
    requires TableTyped(objs, o, fields)
    decreases fields, 1
  {
    var inner := FieldsExtent(objs, objs[o].fields, fields);
    Extent(inner.depth + 1, inner.tables + 1)
  }

  ghost function FieldsExtent(objs: Objects, vals: map<nat, FieldVal>, fields: seq<S.Field>): Extent
    requires FieldsTyped(objs, vals, fields)
    decreases fields, 0
  {
    if fields == [] then NOTHING
    else Join(FieldExtent(objs, vals, fields[0]), FieldsExtent(objs, vals, fields[1..]))
  }

  ghost function FieldExtent(objs: Objects, vals: map<nat, FieldVal>, field: S.Field): Extent
    requires FieldTyped(objs, vals, field)
    decreases field, 0
  {
    if field.kind.Num? || field.slot !in vals then NOTHING
    else ObjExtent(objs, vals[field.slot].target, field.kind)
  }

  ghost function ObjExtent(objs: Objects, o: nat, kind: S.Kind): Extent
    requires ObjTyped(objs, o, kind)
    decreases kind, 0
  {
    match kind
    case Sub(fields) => TableExtent(objs, o, fields)
    case Subs(fields) => TablesExtent(objs, objs[o].targets, fields)
    case _ => NOTHING
  }

  ghost function TablesExtent(objs: Objects, targets: seq<nat>, fields: seq<S.Field>): Extent
    requires forall t :: t in targets ==> TableTyped(objs, t, fields)
    decreases fields, 2, |targets|
  {
    if targets == [] then NOTHING
    else
      assert targets[0] in targets && forall t :: t in targets[1..] ==> t in targets;
      Join(TableExtent(objs, targets[0], fields), TablesExtent(objs, targets[1..], fields))
  }
}
