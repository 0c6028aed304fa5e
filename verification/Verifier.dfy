/** `flatbuffers::Verifier`: whatever the bytes, it never reads outside the buffer itself, and a buffer
    it passes can be read through every accessor of its schema without leaving the buffer. */
module Verifier {
  import opened Wrappers
  import opened Bytes
  import opened Wire
  import opened Schema

  /** `Fault` is a read outside the buffer, `Reject` a failed check. */
  datatype Outcome<+T> = Fault | Reject | Pass(value: T) {
    predicate IsFailure() {
      !Pass?
    }

    function PropagateFailure<U>(): Outcome<U> {
      if Fault? then Fault else Reject
    }

    function Extract(): T
      requires Pass?
    {
      value
    }
  }

  datatype Options = Options(maxDepth: nat, maxTables: nat, checkAlignment: bool)

  datatype Counters = Counters(depth: nat, tables: nat)

  const MAX_SIZE: nat := 0x7fff_ffff

  /** `size_t` arithmetic wraps. */
  const SIZE_T: nat := 0x1_0000_0000_0000_0000

  function Check(ok: bool): Outcome<()> {
    if ok then Pass(()) else Reject
  }

  function Peek<T>(read: Option<T>): Outcome<T> {
    if read.Some? then Pass(read.value) else Fault
  }

  predicate InRange(buf: seq<byte>, elem: nat, len: nat) {
    len < |buf| && elem <= |buf| - len
  }

  predicate AlignmentOk(elem: nat, align: nat, opts: Options)
    requires IsWidth(align)
  {
    elem % align == 0 || !opts.checkAlignment
  }

  /** `Verify<T>(elem)` for a scalar of `w` bytes. */
  predicate ScalarOk(buf: seq<byte>, elem: nat, w: nat, opts: Options)
    requires IsWidth(w)
  {
    AlignmentOk(elem, w, opts) && InRange(buf, elem, w)
  }

  function VerifyOffset(buf: seq<byte>, start: nat, opts: Options): (r: Outcome<int>)
    ensures r.Pass? ==> r.value >= 0
  {
    var _ :- Check(ScalarOk(buf, start, 4, opts));
    var o :- Peek(ReadScalar(buf, start, 4));
    var _ :- Check(o != 0);
    var _ :- Check(Signed32(o) >= 0);
    var _ :- Check(InRange(buf, start + o, 1));
    Pass(o)
  }

  /** The position after the last element. */
  function VerifyVectorOrString(buf: seq<byte>, vec: nat, elemSize: nat, opts: Options): (r: Outcome<int>)
    requires IsWidth(elemSize)
    ensures r.Pass? ==> r.value >= 0
  {
    var _ :- Check(ScalarOk(buf, vec, 4, opts));
    var size :- Peek(ReadScalar(buf, vec, 4));
    var _ :- Check(size < MAX_SIZE / elemSize);
    var byteSize := 4 + elemSize * size;
    var _ :- Check(InRange(buf, vec, byteSize));
    Pass(vec + byteSize)
  }

  function VerifyString(buf: seq<byte>, str: nat, opts: Options): Outcome<()> {
    var end :- VerifyVectorOrString(buf, str, 1, opts);
    var _ :- Check(InRange(buf, end, 1));
    var terminator :- Peek(ReadScalar(buf, end, 1));
    Check(terminator == 0)
  }

  function VerifyComplexity(c: Counters, opts: Options): Outcome<Counters> {
    var _ :- Check(c.depth + 1 <= opts.maxDepth && c.tables + 1 <= opts.maxTables);
    Pass(Counters(c.depth + 1, c.tables + 1))
  }

  function VerifyTableStart(buf: seq<byte>, table: nat, c: Counters, opts: Options): Outcome<Counters> {
    var _ :- Check(ScalarOk(buf, table, 4, opts));
    var back :- Peek(ReadScalar(buf, table, 4));
    var vtable := (table - Signed32(back)) % SIZE_T;
    var counted :- VerifyComplexity(c, opts);
    var _ :- Check(ScalarOk(buf, vtable, 2, opts));
    var size :- Peek(ReadScalar(buf, vtable, 2));
    var _ :- Check(AlignmentOk(size, 2, opts));
    var _ :- Check(size % 2 == 0);
    var _ :- Check(InRange(buf, vtable, size));
    Pass(counted)
  }

  /** The generated `Verify` of a table: its start, each field in turn, and back up one level. */
  function VerifyTable(buf: seq<byte>, table: nat, fields: seq<Field>, c: Counters, opts: Options): Outcome<Counters>
    requires WellFormed(fields)
    decreases fields, 2
  {
    var started :- VerifyTableStart(buf, table, c, opts);
    var done :- VerifyFields(buf, table, fields, started, opts);
    Pass(Counters(if done.depth > 0 then done.depth - 1 else 0, done.tables))
  }

  function VerifyFields(buf: seq<byte>, table: nat, fields: seq<Field>, c: Counters, opts: Options): Outcome<Counters>
    requires WellFormed(fields)
    decreases fields, 1
  {
    if fields == [] then Pass(c)
    else
      var first :- VerifyField(buf, table, fields[0], c, opts);
      VerifyFields(buf, table, fields[1..], first, opts)
  }

  function VerifyField(buf: seq<byte>, table: nat, field: Field, c: Counters, opts: Options): Outcome<Counters>
    requires WellFormedField(field)
    decreases field, 3
  {
    var offset :- Peek(GetOptionalFieldOffset(buf, table, field.slot));
    if offset == 0 then
      var _ :- Check(!field.required);
      Pass(c)
    else if field.kind.Num? then
      assert WellFormedKind(field.kind);
      var _ :- Check(ScalarOk(buf, table + offset, field.kind.w, opts));
      Pass(c)
    else
      var _ :- VerifyOffset(buf, table + offset, opts);
      var target :- Peek(Follow(buf, table + offset));
      VerifyObject(buf, target, field.kind, c, opts)
  }

  function VerifyObject(buf: seq<byte>, pos: int, kind: Kind, c: Counters, opts: Options): Outcome<Counters>
    requires WellFormedKind(kind)
    decreases kind, 2
  {
    if pos < 0 then Fault
    else
      match kind
      case Num(_, _) => Pass(c)
      case Text =>
        var _ :- VerifyString(buf, pos, opts);
        Pass(c)
      case Nums(w) =>
        var _ :- VerifyVectorOrString(buf, pos, w, opts);
        Pass(c)
      case Texts =>
        var _ :- VerifyVectorOrString(buf, pos, 4, opts);
        var size :- Peek(ReadScalar(buf, pos, 4));
        var _ :- VerifyStrings(buf, pos, 0, size, opts);
        Pass(c)
      case Sub(fields) =>
        VerifyTable(buf, pos, fields, c, opts)
      case Subs(fields) =>
        var _ :- VerifyVectorOrString(buf, pos, 4, opts);
        var size :- Peek(ReadScalar(buf, pos, 4));
        VerifyTables(buf, pos, 0, size, fields, c, opts)
  }

  /** `VerifyVectorOfStrings`; the element offsets themselves are not checked. */
  function VerifyStrings(buf: seq<byte>, vec: nat, i: nat, size: nat, opts: Options): Outcome<()>
    requires i <= size
    decreases size - i
  {
    if i == size then Pass(())
    else
      var str :- Peek(GetIndirect(buf, vec, i));
      var _ :- if str < 0 then Fault else VerifyString(buf, str, opts);
      VerifyStrings(buf, vec, i + 1, size, opts)
  }

  function VerifyTables(buf: seq<byte>, vec: nat, i: nat, size: nat, fields: seq<Field>, c: Counters, opts: Options)
    : Outcome<Counters>
    requires i <= size && WellFormed(fields)
    decreases fields, 3, size - i
  {
    if i == size then Pass(c)
    else
      var table :- Peek(GetIndirect(buf, vec, i));
      var first :- if table < 0 then Fault else VerifyTable(buf, table, fields, c, opts);
      VerifyTables(buf, vec, i + 1, size, fields, first, opts)
  }

  /** `VerifyBuffer` without an identifier, on a buffer the constructor accepts. */
  function VerifyBuffer(buf: seq<byte>, fields: seq<Field>, opts: Options): Outcome<Counters>
    requires WellFormed(fields)
  {
    var _ :- Check(|buf| >= 12);
    var root :- VerifyOffset(buf, 0, opts);
    VerifyTable(buf, root, fields, Counters(0, 0), opts)
  }
}
