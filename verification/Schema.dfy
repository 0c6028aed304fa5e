/** Table schemas, and the complete read of a table through the accessors its schema generates. */
module Schema {
  import opened Wrappers
  import opened Bytes
  import opened Wire

  datatype Kind =
    | Num(w: nat, default: nat)
    | Text
    | Nums(elemWidth: nat)
    | Texts
    | Sub(fields: seq<Field>)
    | Subs(elemFields: seq<Field>)

  datatype Field = Field(slot: nat, kind: Kind, required: bool)

  /** What a reader gets to see; a null reference reads as `Absent`. */
  datatype Tree =
    | Number(n: nat)
    | Absent
    | Chars(chars: seq<byte>)
    | Numbers(elems: seq<nat>)
    | List(items: seq<Tree>)
    | Row(values: seq<Tree>)

  function ReadTable(buf: seq<byte>, table: int, fields: seq<Field>): Option<seq<Tree>>
    decreases fields, 1
  {
    if fields == [] then Some([])
    else
      var first :- ReadField(buf, table, fields[0]);
      var rest :- ReadTable(buf, table, fields[1..]);
      Some([first] + rest)
  }

  function ReadField(buf: seq<byte>, table: int, field: Field): Option<Tree>
    decreases field, 1
  {
    match field.kind
    case Num(w, default) =>
      var n :- GetField(buf, table, field.slot, w, default);
      Some(Number(n))
    case _ =>
      var p :- GetPointer(buf, table, field.slot);
      if p.None? then Some(Absent) else ReadObject(buf, p.value, field.kind)
  }

  function ReadObject(buf: seq<byte>, pos: int, kind: Kind): Option<Tree>
    decreases kind, 0
  {
    match kind
    case Num(_, _) => Some(Absent)
    case Text => ReadText(buf, pos)
    case Nums(w) =>
      var elems :- GetVector(buf, pos, w);
      Some(Numbers(elems))
    case Texts =>
      var size :- ReadScalar(buf, pos, 4);
      var items :- ReadTexts(buf, pos, 0, size);
      Some(List(items))
    case Sub(fields) =>
      var values :- ReadTable(buf, pos, fields);
      Some(Row(values))
    case Subs(fields) =>
      var size :- ReadScalar(buf, pos, 4);
      var items :- ReadTables(buf, pos, 0, size, fields);
      Some(List(items))
  }

  /** A string together with the terminator a C reader relies on. */
  function ReadText(buf: seq<byte>, pos: int): Option<Tree> {
    var chars :- GetString(buf, pos);
    var terminator :- ReadScalar(buf, pos + 4 + |chars|, 1);
    if terminator == 0 then Some(Chars(chars)) else None
  }

  /** Elements `i..size` of a vector of strings. */
  function ReadTexts(buf: seq<byte>, pos: int, i: nat, size: nat): Option<seq<Tree>>
    requires i <= size
    decreases size - i
  {
    if i == size then Some([])
    else
      var at :- GetIndirect(buf, pos, i);
      var first :- ReadText(buf, at);
      var rest :- ReadTexts(buf, pos, i + 1, size);
      Some([first] + rest)
  }

  function ReadTables(buf: seq<byte>, pos: int, i: nat, size: nat, fields: seq<Field>): Option<seq<Tree>>
    requires i <= size
    decreases fields, 2, size - i
  {
    if i == size then Some([])
    else
      var at :- GetIndirect(buf, pos, i);
      var first :- ReadTable(buf, at, fields);
      var rest :- ReadTables(buf, pos, i + 1, size, fields);
      Some([Row(first)] + rest)
  }

  /** `GetRoot` and then everything below it. */
  function ReadBuffer(buf: seq<byte>, fields: seq<Field>): Option<seq<Tree>> {
    var root :- GetRoot(buf);
    ReadTable(buf, root, fields)
  }

  /** The schema compiler puts slots at even distances after the two vtable sizes. */
  predicate WellFormed(fields: seq<Field>)
    decreases fields
  {
    fields != [] ==>
      && WellFormedField(fields[0])
      && WellFormed(fields[1..])
  }

  predicate WellFormedField(field: Field)
    decreases field
  {
    4 <= field.slot && field.slot % 2 == 0 && WellFormedKind(field.kind)
  }

  predicate WellFormedKind(kind: Kind)
    decreases kind
  {
    match kind
    case Num(w, _) => IsWidth(w)
    case Text => true
    case Nums(w) => IsWidth(w)
    case Texts => true
    case Sub(fields) => WellFormed(fields)
    case Subs(fields) => WellFormed(fields)
  }
}
