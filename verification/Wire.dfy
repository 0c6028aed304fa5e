/** How a reader walks a FlatBuffer.  A pointer is a position counted from the first byte of the
    buffer; an access outside the buffer, undefined behaviour in the source, is `None`. */
module Wire {
  import opened Wrappers
  import opened Bytes

  /** The value of a signed 32-bit scalar stored as `u`. */
  function Signed32(u: nat): int {
    if u < 0x8000_0000 then u else u - 0x1_0000_0000
  }

  function ReadBytes(buf: seq<byte>, pos: int, n: nat): Option<seq<byte>> {
    if 0 <= pos && pos + n <= |buf| then Some(buf[pos..pos + n]) else None
  }

  function ReadScalar(buf: seq<byte>, pos: int, w: nat): Option<nat> {
    var bytes :- ReadBytes(buf, pos, w);
    Some(Decode(bytes))
  }

  /** The byte at `i`, times 256 for each of the `k` bytes that count less. */
  function Weighted(s: seq<byte>, i: nat, k: nat): nat
    requires i < |s| && k < 4
  {
    var factor: nat := if k == 0 then 1 else if k == 1 then 0x100 else if k == 2 then 0x1_0000 else 0x100_0000;
    s[i] * factor
  }

  function FourBytes(s: seq<byte>, i: nat): nat
    requires i + 4 <= |s|
  {
    Weighted(s, i, 0) + Weighted(s, i + 1, 1) + Weighted(s, i + 2, 2) + Weighted(s, i + 3, 3)
  }

  lemma {:induction false} Decoded(s: seq<byte>)
    ensures |s| == 1 ==> Decode(s) == s[0]
    ensures |s| == 2 ==> Decode(s) == Weighted(s, 0, 0) + Weighted(s, 1, 1)
    ensures |s| == 4 ==> Decode(s) == FourBytes(s, 0)
    ensures |s| == 8 ==> Decode(s) == FourBytes(s, 0) + 0x1_0000_0000 * FourBytes(s, 4)
    decreases |s|
  {
    if |s| == 1 || |s| == 2 || |s| == 4 || |s| == 8 {
      DecodeFirst(s, 0);
      if |s| > 1 { DecodeFirst(s, 1); }
      if |s| > 2 {
        DecodeFirst(s, 2);
        DecodeFirst(s, 3);
      }
      if |s| == 8 { Decoded(s[4..]); }
    }
  }

  lemma DecodeFirst(s: seq<byte>, i: nat)
    requires i < |s|
    ensures Decode(s[i..]) == s[i] + 256 * Decode(s[i + 1..])
    ensures s[0..] == s && Decode(s[|s|..]) == 0
  {
    assert s[i..][1..] == s[i + 1..];
  }

  /** A scalar can be read exactly where all its bytes lie in the buffer; its first byte counts least. */
  lemma ScalarBytes(buf: seq<byte>, pos: int, w: nat)
    requires IsWidth(w)
    ensures ReadScalar(buf, pos, w).Some? <==> 0 <= pos <= |buf| - w
    ensures 0 <= pos <= |buf| - w ==>
              ReadScalar(buf, pos, w).value ==
              if w == 1 then buf[pos]
              else if w == 2 then Weighted(buf, pos, 0) + Weighted(buf, pos + 1, 1)
              else if w == 4 then FourBytes(buf, pos)
              else FourBytes(buf, pos) + 0x1_0000_0000 * FourBytes(buf, pos + 4)
  {
    hide Decode;
    if 0 <= pos <= |buf| - w { Decoded(buf[pos..pos + w]); }
  }

  /** A stored unsigned offset leads forward from where it is stored. */
  function Follow(buf: seq<byte>, pos: int): Option<int> {
    var offset :- ReadScalar(buf, pos, 4);
    Some(pos + offset)
  }

  // ---- Table ----

  function GetVTable(buf: seq<byte>, table: int): Option<int> {
    var back :- ReadScalar(buf, table, 4);
    Some(table - Signed32(back))
  }

  /** Where in the table a field is stored, or 0 if it is absent. */
  function GetOptionalFieldOffset(buf: seq<byte>, table: int, field: nat): Option<nat> {
    var vtable :- GetVTable(buf, table);
    var vtsize :- ReadScalar(buf, vtable, 2);
    if field < vtsize then ReadScalar(buf, vtable + field, 2) else Some(0)
  }

  function GetField(buf: seq<byte>, table: int, field: nat, w: nat, default: nat): Option<nat> {
    var offset :- GetOptionalFieldOffset(buf, table, field);
    if offset != 0 then ReadScalar(buf, table + offset, w) else Some(default)
  }

  /** The object a reference field leads to; `Some(None)` is the null pointer. */
  function GetPointer(buf: seq<byte>, table: int, field: nat): Option<Option<int>> {
    var offset :- GetOptionalFieldOffset(buf, table, field);
    if offset == 0 then Some(None)
    else
      var target :- Follow(buf, table + offset);
      Some(Some(target))
  }

  // ---- String and Vector ----

  function GetString(buf: seq<byte>, pos: int): Option<seq<byte>> {
    var size :- ReadScalar(buf, pos, 4);
    ReadBytes(buf, pos + 4, size)
  }

  /** Elements `i..size` of a vector of scalars. */
  function GetElems(buf: seq<byte>, data: int, w: nat, count: nat): Option<seq<nat>>
    decreases count
  {
    if count == 0 then Some([])
    else
      var first :- ReadScalar(buf, data, w);
      var rest :- GetElems(buf, data + w, w, count - 1);
      Some([first] + rest)
  }

  function GetVector(buf: seq<byte>, pos: int, w: nat): Option<seq<nat>> {
    var size :- ReadScalar(buf, pos, 4);
    GetElems(buf, pos + 4, w, size)
  }

  /** Element `i` lies `i` widths into the data. */
  lemma {:induction false} ElemAt(buf: seq<byte>, data: int, w: nat, count: nat, i: nat)
    requires i < count && GetElems(buf, data, w, count).Some?
    ensures |GetElems(buf, data, w, count).value| == count
    ensures ReadScalar(buf, data + w * i, w) == Some(GetElems(buf, data, w, count).value[i])
    decreases count
  {
    hide ReadScalar;
    if count > 1 {
      ElemAt(buf, data + w, w, count - 1, if i == 0 then 0 else i - 1);
      if i > 0 { assert data + w + w * (i - 1) == data + w * i; }
    }
  }

  /** `Vector<Offset<T>>::Get(i)`: the element is a reference. */
  function GetIndirect(buf: seq<byte>, pos: int, i: nat): Option<int> {
    Follow(buf, pos + 4 + 4 * i)
  }

  function GetRoot(buf: seq<byte>): Option<int> {
    Follow(buf, 0)
  }

  // ---- A read does not care how much was written in front of it ----

  lemma ReadShift(front: seq<byte>, buf: seq<byte>, pos: int, n: nat)
    requires ReadBytes(buf, pos, n).Some?
    ensures ReadBytes(front + buf, |front| + pos, n) == ReadBytes(buf, pos, n)
  {
    assert (front + buf)[|front| + pos..|front| + pos + n] == buf[pos..pos + n];
  }

  lemma FieldOffsetShift(front: seq<byte>, buf: seq<byte>, table: int, field: nat)
    requires GetOptionalFieldOffset(buf, table, field).Some?
    ensures GetOptionalFieldOffset(front + buf, |front| + table, field) == GetOptionalFieldOffset(buf, table, field)
  {
    ReadShift(front, buf, table, 4);
    var vtable := GetVTable(buf, table).value;
    ReadShift(front, buf, vtable, 2);
    if field < ReadScalar(buf, vtable, 2).value {
      ReadShift(front, buf, vtable + field, 2);
    }
  }
}
