/** Soundness of the verifier, for arbitrary bytes. */
module VerifierSound {
  import opened Wrappers
  import opened Bytes
  import opened Wire
  import opened Schema
  import opened Verifier

  predicate Accepts(buf: seq<byte>) {
    |buf| < MAX_SIZE
  }

  lemma InRangeReads(buf: seq<byte>, pos: nat, len: nat)
    requires InRange(buf, pos, len)
    ensures ReadBytes(buf, pos, len).Some? && ReadScalar(buf, pos, len).Some?
  {
  }

  lemma StringSound(buf: seq<byte>, str: nat, opts: Options)
    ensures !VerifyString(buf, str, opts).Fault?
    ensures VerifyString(buf, str, opts).Pass? ==> ReadText(buf, str).Some?
  {
    var end := VerifyVectorOrString(buf, str, 1, opts);
    if end.Pass? {
      var size := ReadScalar(buf, str, 4).value;
      InRangeReads(buf, str, 4 + size);
      assert end.value == str + 4 + size;
    }
  }

  lemma {:induction false} ElemsInRange(buf: seq<byte>, pos: nat, w: nat, count: nat)
    requires pos + w * count <= |buf|
    ensures GetElems(buf, pos, w, count).Some?
    decreases count
  {
    if count > 0 {
      assert w * count == w + w * (count - 1);
      assert w * (count - 1) >= 0;
      ElemsInRange(buf, pos + w, w, count - 1);
    }
  }

  lemma VectorSound(buf: seq<byte>, vec: nat, w: nat, opts: Options)
    requires IsWidth(w)
    ensures !VerifyVectorOrString(buf, vec, w, opts).Fault?
    ensures VerifyVectorOrString(buf, vec, w, opts).Pass? ==>
              ReadScalar(buf, vec, 4).Some? && vec + 4 + w * ReadScalar(buf, vec, 4).value <= |buf|
  {
  }

  lemma {:induction false} StringsSound(buf: seq<byte>, vec: nat, i: nat, size: nat, opts: Options)
    requires i <= size && vec + 4 + 4 * size <= |buf|
    ensures !VerifyStrings(buf, vec, i, size, opts).Fault?
    ensures VerifyStrings(buf, vec, i, size, opts).Pass? ==> ReadTexts(buf, vec, i, size).Some?
    decreases size - i
  {
    if i < size {
      var str := GetIndirect(buf, vec, i).value;
      StringSound(buf, str, opts);
      StringsSound(buf, vec, i + 1, size, opts);
    }
  }

  lemma WrapsAround(n: int)
    requires -0x1_0000_0000 < n < 0x1_0000_0000
    ensures n % SIZE_T == if n >= 0 then n else n + SIZE_T
  {
  }

  /** The wrap-around subtraction lands on the address the accessor computes. */
  lemma TableStartSound(buf: seq<byte>, table: nat, c: Counters, opts: Options)
    requires Accepts(buf)
    ensures !VerifyTableStart(buf, table, c, opts).Fault?
    ensures VerifyTableStart(buf, table, c, opts).Pass? ==>
              && table + 4 <= |buf|
              && forall slot :: slot % 2 == 0 ==> GetOptionalFieldOffset(buf, table, slot).Some?
  {
    if VerifyTableStart(buf, table, c, opts).Pass? {
      var vtable := StartsAtVTable(buf, table, c, opts);
      hide VerifyTableStart;
      var size := ReadScalar(buf, vtable, 2).value;
      forall slot: nat | slot % 2 == 0
        ensures GetOptionalFieldOffset(buf, table, slot).Some?
      {
        if slot < size { InRangeReads(buf, vtable, size); }
      }
    }
  }

  lemma StartsAtVTable(buf: seq<byte>, table: nat, c: Counters, opts: Options) returns (vtable: nat)
    requires Accepts(buf) && VerifyTableStart(buf, table, c, opts).Pass?
    ensures table + 4 <= |buf| && GetVTable(buf, table) == Some(vtable)
    ensures ReadScalar(buf, vtable, 2).Some? && vtable + ReadScalar(buf, vtable, 2).value <= |buf|
    ensures ReadScalar(buf, vtable, 2).value % 2 == 0
  {
    var back := Signed32(ReadScalar(buf, table, 4).value);
    vtable := (table - back) % SIZE_T;
    EncodeDecode(buf[table..table + 4]);
    Pow256Values();
    WrapsAround(table - back);
  }

  lemma OffsetSound(buf: seq<byte>, start: nat, opts: Options)
    ensures !VerifyOffset(buf, start, opts).Fault?
    ensures VerifyOffset(buf, start, opts).Pass? ==>
              Follow(buf, start) == Some(start + VerifyOffset(buf, start, opts).value)
  {
  }

  lemma {:induction false} TableSound(buf: seq<byte>, table: nat, fields: seq<Field>, c: Counters, opts: Options)
    requires Accepts(buf) && WellFormed(fields)
    ensures !VerifyTable(buf, table, fields, c, opts).Fault?
    ensures VerifyTable(buf, table, fields, c, opts).Pass? ==> ReadTable(buf, table, fields).Some?
    decreases fields, 2
  {
    TableStartSound(buf, table, c, opts);
    var started := VerifyTableStart(buf, table, c, opts);
    if started.Pass? {
      FieldsSound(buf, table, fields, started.value, opts);
    }
  }

  lemma {:induction false} FieldsSound(buf: seq<byte>, table: nat, fields: seq<Field>, c: Counters, opts: Options)
    requires Accepts(buf) && WellFormed(fields)
    requires forall slot :: slot % 2 == 0 ==> GetOptionalFieldOffset(buf, table, slot).Some?
    ensures !VerifyFields(buf, table, fields, c, opts).Fault?
    ensures VerifyFields(buf, table, fields, c, opts).Pass? ==> ReadTable(buf, table, fields).Some?
    decreases fields, 1
  {
    if fields != [] {
      FieldSound(buf, table, fields[0], c, opts);
      var first := VerifyField(buf, table, fields[0], c, opts);
      if first.Pass? {
        FieldsSound(buf, table, fields[1..], first.value, opts);
      }
    }
  }

  /** An absent field, or a scalar. */
  lemma PlainFieldSound(buf: seq<byte>, table: nat, field: Field, c: Counters, opts: Options)
    requires WellFormedField(field) && GetOptionalFieldOffset(buf, table, field.slot).Some?
    requires GetOptionalFieldOffset(buf, table, field.slot).value == 0 || field.kind.Num?
    ensures !VerifyField(buf, table, field, c, opts).Fault?
    ensures VerifyField(buf, table, field, c, opts).Pass? ==> ReadField(buf, table, field).Some?
  {
    hide VerifyObject, ReadObject, GetOptionalFieldOffset, VerifyOffset, Follow;
    assert WellFormedKind(field.kind);
  }

  lemma {:induction false} FieldSound(buf: seq<byte>, table: nat, field: Field, c: Counters, opts: Options)
    requires Accepts(buf) && WellFormedField(field) && GetOptionalFieldOffset(buf, table, field.slot).Some?
    ensures !VerifyField(buf, table, field, c, opts).Fault?
    ensures VerifyField(buf, table, field, c, opts).Pass? ==> ReadField(buf, table, field).Some?
    decreases field, 3
  {
    assert WellFormedKind(field.kind);
    var offset := GetOptionalFieldOffset(buf, table, field.slot).value;
    hide VerifyObject, ReadObject, GetOptionalFieldOffset, ReadScalar, VerifyOffset, Follow;
    if offset == 0 || field.kind.Num? {
      PlainFieldSound(buf, table, field, c, opts);
    } else {
      OffsetSound(buf, table + offset, opts);
      var target := Follow(buf, table + offset);
      if target.Some? { ObjectSound(buf, target.value, field.kind, c, opts); }
    }
  }

  lemma {:induction false} ObjectSound(buf: seq<byte>, pos: int, kind: Kind, c: Counters, opts: Options)
    requires Accepts(buf) && WellFormedKind(kind) && pos >= 0
    ensures !VerifyObject(buf, pos, kind, c, opts).Fault?
    ensures VerifyObject(buf, pos, kind, c, opts).Pass? ==> ReadObject(buf, pos, kind).Some?
    decreases kind, 2
  {
    match kind
    case Num(_, _) =>
    case Text => StringSound(buf, pos, opts);
    case Nums(w) =>
      VectorSound(buf, pos, w, opts);
      if VerifyVectorOrString(buf, pos, w, opts).Pass? {
        ElemsInRange(buf, pos + 4, w, ReadScalar(buf, pos, 4).value);
      }
    case Texts =>
      VectorSound(buf, pos, 4, opts);
      if VerifyVectorOrString(buf, pos, 4, opts).Pass? {
        StringsSound(buf, pos, 0, ReadScalar(buf, pos, 4).value, opts);
      }
    case Sub(fields) => TableSound(buf, pos, fields, c, opts);
    case Subs(fields) =>
      VectorSound(buf, pos, 4, opts);
      if VerifyVectorOrString(buf, pos, 4, opts).Pass? {
        TablesSound(buf, pos, 0, ReadScalar(buf, pos, 4).value, fields, c, opts);
      }
  }

  lemma {:induction false} TablesSound(buf: seq<byte>, vec: nat, i: nat, size: nat, fields: seq<Field>, c: Counters, opts: Options)
    requires Accepts(buf) && i <= size && WellFormed(fields) && vec + 4 + 4 * size <= |buf|
    ensures !VerifyTables(buf, vec, i, size, fields, c, opts).Fault?
    ensures VerifyTables(buf, vec, i, size, fields, c, opts).Pass? ==> ReadTables(buf, vec, i, size, fields).Some?
    decreases fields, 3, size - i
  {
    if i < size {
      var table := GetIndirect(buf, vec, i).value;
      TableSound(buf, table, fields, c, opts);
      var first := VerifyTable(buf, table, fields, c, opts);
      if first.Pass? {
        TablesSound(buf, vec, i + 1, size, fields, first.value, opts);
      }
    }
  }

  /** Whatever the bytes, verification stays inside the buffer; once it passes, so does every accessor. */
  lemma VerifierSoundness(buf: seq<byte>, fields: seq<Field>, opts: Options)
    requires Accepts(buf) && WellFormed(fields)
    ensures !VerifyBuffer(buf, fields, opts).Fault?
    ensures VerifyBuffer(buf, fields, opts).Pass? ==> ReadBuffer(buf, fields).Some?
  {
    OffsetSound(buf, 0, opts);
    var root := VerifyOffset(buf, 0, opts);
    if |buf| >= 12 && root.Pass? {
      TableSound(buf, root.value, fields, Counters(0, 0), opts);
    }
  }
}
