/** Exactly which bytes the verifier passes: a description of good buffers that knows no counters, no order of
    checks and no wrap-around, and what the two limits mean for the tree that is read from them. */
module VerifierExact {
  import opened Wrappers
  import opened Bytes
  import opened Wire
  import opened Schema
  import opened Verifier
  import opened VerifierSound

  // ---- Good buffers ----

  /** `n` bytes lie at `pos`, short of the whole buffer. */
  predicate Inside(buf: seq<byte>, pos: int, n: nat) {
    0 <= pos && pos + n <= |buf| && n < |buf|
  }

  predicate GoodScalar(buf: seq<byte>, pos: int, w: nat, aligned: bool)
    requires IsWidth(w)
  {
    Inside(buf, pos, w) && (aligned ==> pos % w == 0)
  }

  /** A reference leads forward, to a byte of the buffer. */
  predicate GoodOffset(buf: seq<byte>, pos: int, aligned: bool) {
    && GoodScalar(buf, pos, 4, aligned)
    && 0 < ReadScalar(buf, pos, 4).value < 0x8000_0000
    && Inside(buf, pos + ReadScalar(buf, pos, 4).value, 1)
  }

  predicate GoodVector(buf: seq<byte>, vec: int, w: nat, aligned: bool)
    requires IsWidth(w)
  {
    && GoodScalar(buf, vec, 4, aligned)
    && var n := ReadScalar(buf, vec, 4).value;
       n < MAX_SIZE / w && Inside(buf, vec, 4 + w * n)
  }

  predicate GoodString(buf: seq<byte>, str: int, aligned: bool) {
    && GoodVector(buf, str, 1, aligned)
    && var end := str + 4 + ReadScalar(buf, str, 4).value;
       Inside(buf, end, 1) && buf[end] == 0
  }

  /** The table leads back to a vtable of even size. */
  predicate GoodStart(buf: seq<byte>, table: int, aligned: bool) {
    && GoodScalar(buf, table, 4, aligned)
    && var vtable := table - Signed32(ReadScalar(buf, table, 4).value);
       && GoodScalar(buf, vtable, 2, aligned)
       && var size := ReadScalar(buf, vtable, 2).value;
          size % 2 == 0 && Inside(buf, vtable, size)
  }

  predicate GoodTable(buf: seq<byte>, table: int, fields: seq<Field>, aligned: bool)
    requires WellFormed(fields)
    decreases fields, 2
  {
    GoodStart(buf, table, aligned) && GoodFields(buf, table, fields, aligned)
  }

  predicate GoodFields(buf: seq<byte>, table: int, fields: seq<Field>, aligned: bool)
    requires WellFormed(fields)
    decreases fields, 1
  {
    fields != [] ==> GoodField(buf, table, fields[0], aligned) && GoodFields(buf, table, fields[1..], aligned)
  }

  /** A field that is absent is not required; one that is present has a good value. */
  predicate GoodField(buf: seq<byte>, table: int, field: Field, aligned: bool)
    requires WellFormedField(field)
    decreases field, 3
  {
    var offset := GetOptionalFieldOffset(buf, table, field.slot);
    && offset.Some?
    && (offset.value == 0 ==> !field.required)
    && (offset.value != 0 ==>
          var pos := table + offset.value;
          assert WellFormedKind(field.kind);
          if field.kind.Num? then GoodScalar(buf, pos, field.kind.w, aligned)
          else GoodOffset(buf, pos, aligned) && GoodObject(buf, pos + ReadScalar(buf, pos, 4).value, field.kind, aligned))
  }

  predicate GoodObject(buf: seq<byte>, pos: int, kind: Kind, aligned: bool)
    requires WellFormedKind(kind)
    decreases kind, 2
  {
    match kind
    case Num(_, _) => true
    case Text => GoodString(buf, pos, aligned)
    case Nums(w) => GoodVector(buf, pos, w, aligned)
    case Texts => GoodVector(buf, pos, 4, aligned) && GoodStrings(buf, pos, 0, ReadScalar(buf, pos, 4).value, aligned)
    case Sub(fields) => GoodTable(buf, pos, fields, aligned)
    case Subs(fields) =>
      GoodVector(buf, pos, 4, aligned) && GoodTables(buf, pos, 0, ReadScalar(buf, pos, 4).value, fields, aligned)
  }

  predicate GoodStrings(buf: seq<byte>, vec: int, i: nat, size: nat, aligned: bool)
    requires i <= size
    decreases size - i
  {
    i < size ==>
      && GetIndirect(buf, vec, i).Some?
      && GoodString(buf, GetIndirect(buf, vec, i).value, aligned)
      && GoodStrings(buf, vec, i + 1, size, aligned)
  }

  predicate GoodTables(buf: seq<byte>, vec: int, i: nat, size: nat, fields: seq<Field>, aligned: bool)
    requires i <= size && WellFormed(fields)
    decreases fields, 3, size - i
  {
    i < size ==>
      && GetIndirect(buf, vec, i).Some?
      && GoodTable(buf, GetIndirect(buf, vec, i).value, fields, aligned)
      && GoodTables(buf, vec, i + 1, size, fields, aligned)
  }

  predicate GoodBuffer(buf: seq<byte>, fields: seq<Field>, aligned: bool)
    requires WellFormed(fields)
  {
    |buf| >= 12 && GoodOffset(buf, 0, aligned) && GoodTable(buf, ReadScalar(buf, 0, 4).value, fields, aligned)
  }

  // ---- What is read from them ----

  /** The rows of a tree, and how many lie within each other. */
  function Rows(tree: Tree): nat
    decreases tree, 0
  {
    match tree
    case Row(values) => 1 + RowsOf(values)
    case List(items) => RowsOf(items)
    case _ => 0
  }

  function RowsOf(trees: seq<Tree>): nat
    decreases trees, 1
  {
    if trees == [] then 0 else Rows(trees[0]) + RowsOf(trees[1..])
  }

  function Larger(a: nat, b: nat): nat {
    if a < b then b else a
  }

  function Levels(tree: Tree): nat
    decreases tree, 0
  {
    match tree
    case Row(values) => 1 + LevelsOf(values)
    case List(items) => LevelsOf(items)
    case _ => 0
  }

  function LevelsOf(trees: seq<Tree>): nat
    decreases trees, 1
  {
    if trees == [] then 0 else Larger(Levels(trees[0]), LevelsOf(trees[1..]))
  }

  /** Every required field is there, in this table and in all tables below it. */
  predicate Complete(values: seq<Tree>, fields: seq<Field>)
    decreases fields, 1
  {
    if fields == [] then values == []
    else values != [] && FieldComplete(values[0], fields[0]) && Complete(values[1..], fields[1..])
  }

  predicate FieldComplete(value: Tree, field: Field)
    decreases field, 1
  {
    if value.Absent? then !field.required else KindComplete(value, field.kind)
  }

  predicate KindComplete(value: Tree, kind: Kind)
    decreases kind, 0
  {
    match kind
    case Sub(fields) => value.Row? && Complete(value.values, fields)
    case Subs(fields) => value.List? && AllComplete(value.items, fields)
    case _ => true
  }

  predicate AllComplete(items: seq<Tree>, fields: seq<Field>)
    decreases fields, 2, |items|
  {
    items != [] ==> items[0].Row? && Complete(items[0].values, fields) && AllComplete(items[1..], fields)
  }

  /** No more rows, and no deeper, than the verifier is to let through. */
  predicate WithinLimits(read: Option<seq<Tree>>, opts: Options) {
    read.Some? && Levels(Row(read.value)) <= opts.maxDepth && Rows(Row(read.value)) <= opts.maxTables
  }

  // ---- The checks, one by one ----

  predicate Within(c: Counters, opts: Options) {
    c.depth <= opts.maxDepth && c.tables <= opts.maxTables
  }

  /** What the verifier answers to something good of so many rows and levels, and to anything else. */
  function Verdict(good: bool, rows: nat, levels: nat, c: Counters, opts: Options): Outcome<Counters> {
    if good && c.depth + levels <= opts.maxDepth && c.tables + rows <= opts.maxTables
    then Pass(Counters(c.depth, c.tables + rows)) else Reject
  }

  lemma OffsetExactly(buf: seq<byte>, pos: nat, opts: Options)
    ensures VerifyOffset(buf, pos, opts)
         == if GoodOffset(buf, pos, opts.checkAlignment) then Pass(ReadScalar(buf, pos, 4).value) else Reject
  {
    hide Decode;
    if Inside(buf, pos, 4) {
      Pow256Values();
      EncodeDecode(buf[pos..pos + 4]);
    }
  }

  lemma VectorExactly(buf: seq<byte>, vec: nat, w: nat, opts: Options)
    requires IsWidth(w)
    ensures VerifyVectorOrString(buf, vec, w, opts)
         == if GoodVector(buf, vec, w, opts.checkAlignment) then Pass(vec + 4 + w * ReadScalar(buf, vec, 4).value) else Reject
  {
    hide Decode;
  }

  lemma StringExactly(buf: seq<byte>, str: nat, opts: Options)
    ensures VerifyString(buf, str, opts) == if GoodString(buf, str, opts.checkAlignment) then Pass(()) else Reject
    ensures GoodString(buf, str, opts.checkAlignment) ==> ReadText(buf, str).Some? && ReadText(buf, str).value.Chars?
  {
    VectorExactly(buf, str, 1, opts);
    StringSound(buf, str, opts);
    hide Decode, VerifyVectorOrString;
    if GoodVector(buf, str, 1, opts.checkAlignment) {
      var end := str + 4 + ReadScalar(buf, str, 4).value;
      if Inside(buf, end, 1) { ScalarBytes(buf, end, 1); }
    }
  }

  /** The subtraction that wraps around leaves the buffer exactly if the plain one does. */
  lemma StartExactly(buf: seq<byte>, table: nat, c: Counters, opts: Options)
    requires Accepts(buf)
    ensures VerifyTableStart(buf, table, c, opts)
         == if GoodStart(buf, table, opts.checkAlignment) && c.depth + 1 <= opts.maxDepth && c.tables + 1 <= opts.maxTables
            then Pass(Counters(c.depth + 1, c.tables + 1)) else Reject
    ensures GoodStart(buf, table, opts.checkAlignment) ==>
              forall slot :: slot % 2 == 0 ==> GetOptionalFieldOffset(buf, table, slot).Some?
  {
    TableStartSound(buf, table, Counters(0, 0), opts.(maxDepth := 1, maxTables := 1));
    hide Decode;
    if GoodScalar(buf, table, 4, opts.checkAlignment) {
      Pow256Values();
      EncodeDecode(buf[table..table + 4]);
      WrapsAround(table - Signed32(ReadScalar(buf, table, 4).value));
    }
  }

  // ---- Tables ----

  lemma {:induction false} TableExactly(buf: seq<byte>, table: nat, fields: seq<Field>, c: Counters, opts: Options)
    requires Accepts(buf) && WellFormed(fields) && Within(c, opts)
    ensures var good := GoodTable(buf, table, fields, opts.checkAlignment);
            var values := ReadTable(buf, table, fields);
            && (good ==> values.Some? && Complete(values.value, fields))
            && VerifyTable(buf, table, fields, c, opts)
               == Verdict(good, if good then Rows(Row(values.value)) else 0, if good then Levels(Row(values.value)) else 0, c, opts)
    decreases fields, 2
  {
    hide GoodStart, VerifyTableStart, GoodFields, VerifyFields, GetOptionalFieldOffset, Complete, RowsOf, LevelsOf;
    StartExactly(buf, table, c, opts);
    if GoodStart(buf, table, opts.checkAlignment) {
      var started := Counters(c.depth + 1, c.tables + 1);
      if Within(started, opts) {
        FieldsExactly(buf, table, fields, started, opts);
      } else {
        FieldsExactly(buf, table, fields, Counters(0, 0), opts);
      }
    }
  }

  lemma {:induction false} FieldsExactly(buf: seq<byte>, table: nat, fields: seq<Field>, c: Counters, opts: Options)
    requires Accepts(buf) && WellFormed(fields) && Within(c, opts)
    requires forall slot :: slot % 2 == 0 ==> GetOptionalFieldOffset(buf, table, slot).Some?
    ensures var good := GoodFields(buf, table, fields, opts.checkAlignment);
            var values := ReadTable(buf, table, fields);
            && (good ==> values.Some? && Complete(values.value, fields))
            && VerifyFields(buf, table, fields, c, opts)
               == Verdict(good, if good then RowsOf(values.value) else 0, if good then LevelsOf(values.value) else 0, c, opts)
    decreases fields, 1
  {
    hide GoodField, VerifyField, ReadField, FieldComplete, GetOptionalFieldOffset, Rows, Levels;
    if fields != [] {
      FieldExactly(buf, table, fields[0], c, opts);
      if GoodField(buf, table, fields[0], opts.checkAlignment) {
        var first := ReadField(buf, table, fields[0]).value;
        var next := Counters(c.depth, c.tables + Rows(first));
        if Within(next, opts) {
          FieldsExactly(buf, table, fields[1..], next, opts);
        } else {
          FieldsExactly(buf, table, fields[1..], Counters(0, 0), opts);
        }
        if GoodFields(buf, table, fields[1..], opts.checkAlignment) {
          var rest := ReadTable(buf, table, fields[1..]).value;
          assert ([first] + rest)[1..] == rest;
        }
      }
    }
  }

  lemma {:induction false} FieldExactly(buf: seq<byte>, table: nat, field: Field, c: Counters, opts: Options)
    requires Accepts(buf) && WellFormedField(field) && Within(c, opts)
    requires forall slot :: slot % 2 == 0 ==> GetOptionalFieldOffset(buf, table, slot).Some?
    ensures var good := GoodField(buf, table, field, opts.checkAlignment);
            var value := ReadField(buf, table, field);
            && (good ==> value.Some? && FieldComplete(value.value, field))
            && VerifyField(buf, table, field, c, opts)
               == Verdict(good, if good then Rows(value.value) else 0, if good then Levels(value.value) else 0, c, opts)
    decreases field, 3
  {
    hide GoodObject, VerifyObject, ReadObject, Complete, AllComplete, GetOptionalFieldOffset, GoodOffset, VerifyOffset, Decode;
    var offset := GetOptionalFieldOffset(buf, table, field.slot).value;
    if offset != 0 && !field.kind.Num? {
      OffsetExactly(buf, table + offset, opts);
      if GoodOffset(buf, table + offset, opts.checkAlignment) {
        GoodLeads(buf, table + offset, opts.checkAlignment);
        ObjectExactly(buf, Follow(buf, table + offset).value, field.kind, c, opts);
      }
    }
  }

  lemma GoodLeads(buf: seq<byte>, pos: nat, aligned: bool)
    requires GoodOffset(buf, pos, aligned)
    ensures ReadScalar(buf, pos, 4).Some? && Follow(buf, pos) == Some(pos + ReadScalar(buf, pos, 4).value)
  {
  }

  lemma {:induction false} ObjectExactly(buf: seq<byte>, pos: nat, kind: Kind, c: Counters, opts: Options)
    requires Accepts(buf) && WellFormedKind(kind) && !kind.Num? && Within(c, opts)
    ensures var good := GoodObject(buf, pos, kind, opts.checkAlignment);
            var value := ReadObject(buf, pos, kind);
            && (good ==> value.Some? && !value.value.Absent? && KindComplete(value.value, kind))
            && VerifyObject(buf, pos, kind, c, opts)
               == Verdict(good, if good then Rows(value.value) else 0, if good then Levels(value.value) else 0, c, opts)
    decreases kind, 2
  {
    hide GoodTable, GoodTables, GoodString, GoodStrings, GoodVector, VerifyTable, VerifyTables, VerifyString, VerifyStrings;
    hide VerifyVectorOrString, ReadTable, ReadTables, ReadTexts, ReadText, GetElems, Decode, Complete, AllComplete;
    match kind
    case Text => StringExactly(buf, pos, opts);
    case Nums(w) =>
      VectorExactly(buf, pos, w, opts);
      if GoodVector(buf, pos, w, opts.checkAlignment) {
        GoodFits(buf, pos, w, opts.checkAlignment);
        ElemsInRange(buf, pos + 4, w, ReadScalar(buf, pos, 4).value);
      }
    case Texts =>
      VectorExactly(buf, pos, 4, opts);
      if GoodVector(buf, pos, 4, opts.checkAlignment) {
        GoodFits(buf, pos, 4, opts.checkAlignment);
        StringsExactly(buf, pos, 0, ReadScalar(buf, pos, 4).value, opts);
      }
    case Sub(fields) => TableExactly(buf, pos, fields, c, opts);
    case Subs(fields) =>
      VectorExactly(buf, pos, 4, opts);
      if GoodVector(buf, pos, 4, opts.checkAlignment) {
        GoodFits(buf, pos, 4, opts.checkAlignment);
        TablesExactly(buf, pos, 0, ReadScalar(buf, pos, 4).value, fields, c, opts);
      }
  }

  lemma GoodFits(buf: seq<byte>, vec: nat, w: nat, aligned: bool)
    requires IsWidth(w) && GoodVector(buf, vec, w, aligned)
    ensures ReadScalar(buf, vec, 4).Some? && vec + 4 + w * ReadScalar(buf, vec, 4).value <= |buf|
  {
  }

  lemma {:induction false} StringsExactly(buf: seq<byte>, vec: nat, i: nat, size: nat, opts: Options)
    requires i <= size && vec + 4 + 4 * size <= |buf|
    ensures var good := GoodStrings(buf, vec, i, size, opts.checkAlignment);
            var items := ReadTexts(buf, vec, i, size);
            && VerifyStrings(buf, vec, i, size, opts) == (if good then Pass(()) else Reject)
            && (good ==> items.Some? && RowsOf(items.value) == LevelsOf(items.value) == 0)
    decreases size - i
  {
    hide GoodString, VerifyString, ReadText, Decode;
    if i < size {
      StringExactly(buf, GetIndirect(buf, vec, i).value, opts);
      StringsExactly(buf, vec, i + 1, size, opts);
      if GoodStrings(buf, vec, i, size, opts.checkAlignment) {
        var first := ReadText(buf, GetIndirect(buf, vec, i).value).value;
        assert ([first] + ReadTexts(buf, vec, i + 1, size).value)[1..] == ReadTexts(buf, vec, i + 1, size).value;
      }
    }
  }

  lemma {:induction false} TablesExactly(buf: seq<byte>, vec: nat, i: nat, size: nat, fields: seq<Field>, c: Counters, opts: Options)
    requires Accepts(buf) && i <= size && WellFormed(fields) && vec + 4 + 4 * size <= |buf| && Within(c, opts)
    ensures var good := GoodTables(buf, vec, i, size, fields, opts.checkAlignment);
            var items := ReadTables(buf, vec, i, size, fields);
            && (good ==> items.Some? && AllComplete(items.value, fields))
            && VerifyTables(buf, vec, i, size, fields, c, opts)
               == Verdict(good, if good then RowsOf(items.value) else 0, if good then LevelsOf(items.value) else 0, c, opts)
    decreases fields, 3, size - i
  {
    hide GoodTable, VerifyTable, ReadTable, Complete, Rows, Levels, Decode;
    if i < size {
      var at := GetIndirect(buf, vec, i).value;
      TableExactly(buf, at, fields, c, opts);
      if GoodTable(buf, at, fields, opts.checkAlignment) {
        var first := Row(ReadTable(buf, at, fields).value);
        var next := Counters(c.depth, c.tables + Rows(first));
        if Within(next, opts) {
          TablesExactly(buf, vec, i + 1, size, fields, next, opts);
        } else {
          TablesExactly(buf, vec, i + 1, size, fields, Counters(0, 0), opts);
        }
        if GoodTables(buf, vec, i + 1, size, fields, opts.checkAlignment) {
          var rest := ReadTables(buf, vec, i + 1, size, fields).value;
          assert ([first] + rest)[1..] == rest;
        }
      }
    }
  }

  // ---- Results ----

  /** For all bytes: a buffer passes if and only if it is good, its tables are no deeper than one limit and no
      more than the other; and then every required field of every table in it is there. */
  lemma VerifierExactly(buf: seq<byte>, fields: seq<Field>, opts: Options)
    requires Accepts(buf) && WellFormed(fields)
    ensures GoodBuffer(buf, fields, opts.checkAlignment) ==>
              ReadBuffer(buf, fields).Some? && Complete(ReadBuffer(buf, fields).value, fields)
    ensures VerifyBuffer(buf, fields, opts).Pass? <==>
              GoodBuffer(buf, fields, opts.checkAlignment) && WithinLimits(ReadBuffer(buf, fields), opts)
  {
    hide GoodTable, VerifyTable, ReadTable, Complete, Rows, Levels, GoodOffset, VerifyOffset, Decode;
    if |buf| >= 12 {
      OffsetExactly(buf, 0, opts);
      if GoodOffset(buf, 0, opts.checkAlignment) {
        GoodLeads(buf, 0, opts.checkAlignment);
        TableExactly(buf, ReadScalar(buf, 0, 4).value, fields, Counters(0, 0), opts);
      }
    }
  }

  /** Alignment asked for holds for all scalars, references, lengths and vtables; of the elements of a vector,
      for those of up to four bytes, and for those of eight if and only if its length lies between two of them. */
  lemma ElementsAligned(buf: seq<byte>, vec: nat, w: nat)
    requires IsWidth(w) && GoodVector(buf, vec, w, true)
    ensures (vec + 4) % w == 0 <==> w <= 4 || vec % 8 == 4
  {
    AlignedDown(vec + 4, 4, if w <= 4 then w else 4);
  }

  const LONGS: seq<Field> := [Field(4, Nums(8), false)]

  /** The root at 12, its vtable at 4, and a vector at 24 whose one element starts at 28. */
  predicate IsMisaligned(buf: seq<byte>) {
    && |buf| == 36 && FourBytes(buf, 0) == 12
    && Weighted(buf, 4, 0) + Weighted(buf, 5, 1) == 6 && Weighted(buf, 8, 0) + Weighted(buf, 9, 1) == 4
    && FourBytes(buf, 12) == 8 && FourBytes(buf, 16) == 8
    && FourBytes(buf, 24) == 1 && FourBytes(buf, 28) == 1 && FourBytes(buf, 32) == 0
  }

  const MISALIGNED: seq<byte> :=
    [12, 0, 0, 0, 6, 0, 8, 0, 4, 0, 0, 0, 8, 0, 0, 0, 8, 0, 0, 0, 0, 0, 0, 0, 1, 0, 0, 0, 1, 0, 0, 0, 0, 0, 0, 0]

  lemma MisalignedScalars(buf: seq<byte>)
    requires IsMisaligned(buf)
    ensures ReadScalar(buf, 0, 4) == Some(12) && GetVTable(buf, 12) == Some(4) && ReadScalar(buf, 12, 4) == Some(8)
    ensures ReadScalar(buf, 4, 2) == Some(6) && ReadScalar(buf, 16, 4) == Some(8) && ReadScalar(buf, 24, 4) == Some(1)
    ensures GetOptionalFieldOffset(buf, 12, 4) == Some(4) && GetElems(buf, 28, 8, 1) == Some([1])
  {
    hide ReadScalar, Weighted, FourBytes;
    ScalarBytes(buf, 0, 4);
    ScalarBytes(buf, 12, 4);
    ScalarBytes(buf, 4, 2);
    ScalarBytes(buf, 8, 2);
    ScalarBytes(buf, 16, 4);
    ScalarBytes(buf, 24, 4);
    ScalarBytes(buf, 28, 8);
    assert GetElems(buf, 36, 8, 0) == Some([]);
    var one: nat := 1;
    assert [one] + [] == [1];
  }

  lemma MisalignedReads(buf: seq<byte>)
    requires IsMisaligned(buf)
    ensures ReadTable(buf, 12, LONGS) == Some([Numbers([1])])
  {
    hide ReadScalar, GetOptionalFieldOffset, GetElems, IsMisaligned;
    MisalignedScalars(buf);
    assert GetVector(buf, 24, 8) == Some([1]);
    assert ReadObject(buf, 24, Nums(8)) == Some(Numbers([1]));
    assert GetPointer(buf, 12, 4) == Some(Some(24));
    assert ReadField(buf, 12, LONGS[0]) == Some(Numbers([1]));
    assert ReadTable(buf, 12, LONGS[1..]) == Some([]);
    assert [Numbers([1])] + [] == [Numbers([1])];
  }

  lemma MisalignedIsGood(buf: seq<byte>, aligned: bool)
    requires IsMisaligned(buf)
    ensures WellFormed(LONGS) && GoodTable(buf, 12, LONGS, aligned)
  {
    hide ReadScalar, GetOptionalFieldOffset;
    assert |buf| == 36;
    MisalignedScalars(buf);
    hide IsMisaligned;
    assert WellFormedField(LONGS[0]) && LONGS[1..] == [];
    assert GoodVector(buf, 24, 8, aligned);
    assert GoodField(buf, 12, LONGS[0], aligned);
  }

  lemma MisalignedBytes()
    ensures IsMisaligned(MISALIGNED)
  {
  }

  /** So a buffer passes, alignment asked for, whose element of eight bytes is not aligned. */
  lemma MisalignedElementPasses(opts: Options)
    requires opts.maxDepth >= 1 && opts.maxTables >= 1
    ensures WellFormed(LONGS) && VerifyBuffer(MISALIGNED, LONGS, opts).Pass?
    ensures ReadBuffer(MISALIGNED, LONGS) == Some([Numbers([1])])
  {
    hide ReadScalar, ReadTable, GoodTable, VerifyBuffer, WellFormed, IsMisaligned;
    MisalignedBytes();
    MisalignedScalars(MISALIGNED);
    MisalignedReads(MISALIGNED);
    MisalignedIsGood(MISALIGNED, opts.checkAlignment);
    VerifierExactly(MISALIGNED, LONGS, opts);
    assert RowsOf([Numbers([1])]) == 0 && LevelsOf([Numbers([1])]) == 0;
  }
}
