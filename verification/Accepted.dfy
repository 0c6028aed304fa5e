/** The verifier passes everything the builder finishes, exactly up to its limits on nesting and tables. */
module Accepted {
  import opened Wrappers
  import opened Bytes
  import opened Wire
  import opened Layout
  import opened Typed
  import V = Verifier
  import S = Schema

  /** A finished buffer: the root offset in front, and a size that is a multiple of every alignment used. */
  ghost predicate Sealed(buf: seq<byte>, objs: Objects, m: nat) {
    && 4 <= |buf| < V.MAX_SIZE && IsWidth(m) && 4 <= m && |buf| % m == 0
    && Holds(buf, objs, m) && Holds(buf[4..], objs, m)
  }

  /** Facts about a recorded object that the verifier's range and alignment checks need. */
  lemma ObjPlace(buf: seq<byte>, objs: Objects, m: nat, o: nat)
    requires Sealed(buf, objs, m) && o in objs
    ensures ObjAt(buf, |buf| - o, objs[o], m)
    ensures 4 <= |buf| - o && (|buf| - o) % 4 == 0 && 4 <= o
  {
    assert ObjAt(buf[4..], |buf[4..]| - o, objs[o], m);
    AlignedFromStart(|buf|, o, 4, m);
  }

  lemma AlignedFromStart(size: nat, fromEnd: nat, w: nat, m: nat)
    requires IsWidth(w) && IsWidth(m) && w <= m && size % m == 0 && fromEnd % w == 0 && fromEnd <= size
    ensures (size - fromEnd) % w == 0
  {
    AlignedDown(size, m, w);
    AlignedSum(size, 0 - fromEnd, w);
    AlignedSum(fromEnd, 0 - fromEnd, w);
  }

  lemma ScalarPasses(buf: seq<byte>, pos: nat, w: nat, m: nat, opts: V.Options)
    requires IsWidth(w) && IsWidth(m) && w <= m && |buf| % m == 0 && pos + w <= |buf| && 0 < pos
    requires (|buf| - pos) % w == 0
    ensures V.ScalarOk(buf, pos, w, opts)
  {
    AlignedFromStart(|buf|, |buf| - pos, w, m);
  }

  lemma VectorPasses(buf: seq<byte>, pos: nat, w: nat, size: nat, m: nat, opts: V.Options)
    requires IsWidth(m) && 4 <= m && |buf| % m == 0 && |buf| < V.MAX_SIZE
    requires IsWidth(w) && 4 <= pos && (|buf| - pos) % 4 == 0
    requires ReadScalar(buf, pos, 4) == Some(size) && pos + 4 + w * size <= |buf|
    ensures V.VerifyVectorOrString(buf, pos, w, opts) == V.Pass(pos + 4 + w * size)
  {
    ScalarPasses(buf, pos, 4, m, opts);
    SizeBelowLimit(w, size);
  }

  lemma SizeBelowLimit(w: nat, size: nat)
    requires IsWidth(w) && w * size + 8 < V.MAX_SIZE
    ensures size < V.MAX_SIZE / w
  {
    if w == 1 {
    } else if w == 2 {
    } else if w == 4 {
    }
  }

  lemma CharsPass(buf: seq<byte>, pos: nat, chars: seq<byte>, m: nat, opts: V.Options)
    requires ObjAt(buf, pos, Str(chars), m) && 4 <= pos
    requires IsWidth(m) && 4 <= m && |buf| % m == 0 && |buf| < V.MAX_SIZE
    ensures V.VerifyString(buf, pos, opts) == V.Pass(())
  {
    VectorPasses(buf, pos, 1, |chars|, m, opts);
  }

  lemma TextPasses(buf: seq<byte>, objs: Objects, m: nat, o: nat, opts: V.Options)
    requires Sealed(buf, objs, m) && o in objs && objs[o].Str?
    ensures |buf| - o >= 0 && V.VerifyString(buf, |buf| - o, opts) == V.Pass(())
  {
    hide ObjAt, Holds, V.VerifyString;
    ObjPlace(buf, objs, m, o);
    CharsPass(buf, |buf| - o, objs[o].chars, m, opts);
  }

  lemma OffsetPasses(buf: seq<byte>, pos: nat, t: nat, m: nat, opts: V.Options)
    requires IsWidth(m) && 4 <= m && |buf| % m == 0 && |buf| < V.MAX_SIZE
    requires 0 < pos && (|buf| - pos) % 4 == 0 && 4 <= t < |buf| - pos && Follow(buf, pos) == Some(|buf| - t)
    ensures V.VerifyOffset(buf, pos, opts) == V.Pass(|buf| - t - pos)
  {
    ScalarPasses(buf, pos, 4, m, opts);
  }

  lemma {:induction false} TextsPass(buf: seq<byte>, objs: Objects, m: nat, pos: nat, targets: seq<nat>, i: nat, opts: V.Options)
    requires Sealed(buf, objs, m) && i <= |targets| && LeadsTo(buf, pos + 4, targets)
    requires forall t :: t in targets ==> t in objs && objs[t].Str?
    ensures V.VerifyStrings(buf, pos, i, |targets|, opts) == V.Pass(())
    decreases |targets| - i
  {
    hide Sealed;
    if i < |targets| {
      assert targets[i] in targets;
      assert Follow(buf, pos + 4 + 4 * i) == Some(|buf| - targets[i]);
      TextPasses(buf, objs, m, targets[i], opts);
      TextsPass(buf, objs, m, pos, targets, i + 1, opts);
    }
  }

  // ---- Tables ----

  function Within(c: V.Counters, e: Extent, opts: V.Options): (ok: bool) {
    c.depth + e.depth <= opts.maxDepth && c.tables + e.tables <= opts.maxTables
  }

  /** The verifier's answer, from the extent of what it visits alone. */
  function Verdict(c: V.Counters, e: Extent, opts: V.Options): V.Outcome<V.Counters> {
    if e == NOTHING || Within(c, e, opts) then V.Pass(V.Counters(c.depth, c.tables + e.tables)) else V.Reject
  }

  /** A vtable and its table, apart from each other. */
  lemma TableParts(body: seq<byte>, pos: int, vals: map<nat, FieldVal>, m: nat)
    requires ObjAt(body, pos, Tbl(vals), m)
    ensures var vt := GetVTable(body, pos);
            vt.Some? && 0 <= vt.value && VTableAt(body, vt.value) && 8 <= |body|
  {
    hide FieldAt;
  }

  lemma VTableShift(buf: seq<byte>, body: seq<byte>, pos: int)
    requires |buf| >= 4 && body == buf[4..] && GetVTable(body, pos).Some?
    ensures GetVTable(buf, 4 + pos) == Some(4 + GetVTable(body, pos).value)
  {
    assert buf == buf[..4] + body;
    ReadShift(buf[..4], body, pos, 4);
  }

  lemma VTablePlace(buf: seq<byte>, objs: Objects, m: nat, o: nat)
    requires Sealed(buf, objs, m) && o in objs && objs[o].Tbl?
    ensures GetVTable(buf, |buf| - o).Some? && 4 <= GetVTable(buf, |buf| - o).value
    ensures 12 <= |buf|
  {
    hide ObjAt, VTableAt, GetVTable;
    var body := buf[4..];
    assert ObjAt(body, |body| - o, objs[o], m);
    TableParts(body, |body| - o, objs[o].fields, m);
    VTableShift(buf, body, |body| - o);
  }

  lemma TableStartPasses(buf: seq<byte>, objs: Objects, m: nat, o: nat, c: V.Counters, opts: V.Options)
    requires Sealed(buf, objs, m) && o in objs && objs[o].Tbl?
    ensures |buf| - o >= 0 && V.VerifyTableStart(buf, |buf| - o, c, opts) == V.VerifyComplexity(c, opts)
  {
    hide ObjAt, Holds, VTableAt, GetVTable, V.VerifyTableStart;
    ObjPlace(buf, objs, m, o);
    TableParts(buf, |buf| - o, objs[o].fields, m);
    VTablePlace(buf, objs, m, o);
    StartPasses(buf, |buf| - o, m, c, opts);
  }

  lemma StartPasses(buf: seq<byte>, pos: nat, m: nat, c: V.Counters, opts: V.Options)
    requires 4 <= |buf| < V.MAX_SIZE && IsWidth(m) && 4 <= m && |buf| % m == 0
    requires 0 < pos && pos + 4 <= |buf| && (|buf| - pos) % 4 == 0
    requires GetVTable(buf, pos).Some? && 4 <= GetVTable(buf, pos).value && VTableAt(buf, GetVTable(buf, pos).value)
    ensures V.VerifyTableStart(buf, pos, c, opts) == V.VerifyComplexity(c, opts)
  {
    var vt := GetVTable(buf, pos).value;
    ScalarPasses(buf, pos, 4, m, opts);
    ScalarPasses(buf, vt, 2, m, opts);
    assert vt % V.SIZE_T == vt;
  }

  lemma VerdictNothing(c: V.Counters, opts: V.Options)
    ensures Verdict(c, NOTHING, opts) == V.Pass(c)
  {
  }

  lemma VerdictSome(c: V.Counters, e: Extent, opts: V.Options)
    requires e != NOTHING
    ensures Verdict(c, e, opts) == if Within(c, e, opts) then V.Pass(V.Counters(c.depth, c.tables + e.tables)) else V.Reject
  {
    hide Within;
  }

  /** Visiting one part after the other. */
  lemma VerdictJoin(c: V.Counters, a: Extent, b: Extent, opts: V.Options)
    ensures Verdict(c, Join(a, b), opts) ==
              if Verdict(c, a, opts).Pass? then Verdict(Verdict(c, a, opts).value, b, opts) else V.Reject
    ensures !Verdict(c, a, opts).Fault?
  {
    hide Within, Verdict;
    VerdictNothing(c, opts);
    if a == NOTHING {
      assert Join(a, b) == b;
    } else {
      VerdictSome(c, a, opts);
      VerdictSome(c, Join(a, b), opts);
      WithinJoin(c, a, b, opts);
      if b == NOTHING {
        assert Join(a, b) == a;
        if Within(c, a, opts) { VerdictNothing(V.Counters(c.depth, c.tables + a.tables), opts); }
      } else {
        VerdictSome(V.Counters(c.depth, c.tables + a.tables), b, opts);
      }
    }
  }

  lemma WithinJoin(c: V.Counters, a: Extent, b: Extent, opts: V.Options)
    ensures Within(c, Join(a, b), opts) <==> Within(c, a, opts) && Within(V.Counters(c.depth, c.tables + a.tables), b, opts)
  {
    if Within(c, a, opts) {
      assert c.tables + (a.tables + b.tables) == (c.tables + a.tables) + b.tables;
    }
  }

  /** Entering a table, visiting what it holds, and leaving it again. */
  lemma VerdictTable(c: V.Counters, e: Extent, opts: V.Options)
    ensures Verdict(c, Extent(e.depth + 1, e.tables + 1), opts) ==
              if V.VerifyComplexity(c, opts).Pass? then
                var d := Verdict(V.Counters(c.depth + 1, c.tables + 1), e, opts);
                if d.Pass? then V.Pass(V.Counters(c.depth, d.value.tables)) else V.Reject
              else V.Reject
    ensures V.VerifyComplexity(c, opts).Pass? ==> V.VerifyComplexity(c, opts).value == V.Counters(c.depth + 1, c.tables + 1)
    ensures var d := Verdict(V.Counters(c.depth + 1, c.tables + 1), e, opts);
            !d.Fault? && (d.Pass? ==> d.value.depth == c.depth + 1)
    ensures !V.VerifyComplexity(c, opts).Fault?
  {
  }

  lemma {:induction false} TablePasses(buf: seq<byte>, objs: Objects, m: nat, o: nat, fields: seq<S.Field>, c: V.Counters, opts: V.Options)
    requires Sealed(buf, objs, m) && TableTyped(objs, o, fields) && S.WellFormed(fields)
    ensures |buf| - o >= 0
    ensures V.VerifyTable(buf, |buf| - o, fields, c, opts) == Verdict(c, TableExtent(objs, o, fields), opts)
    decreases fields, 1
  {
    hide Sealed, TableAt, Verdict, V.VerifyComplexity, V.VerifyTableStart;
    TableStartPasses(buf, objs, m, o, c, opts);
    TablePlace(buf, objs, m, o);
    var vals := objs[o].fields;
    FieldsPass(buf, objs, m, |buf| - o, vals, fields, V.Counters(c.depth + 1, c.tables + 1), opts);
    VerdictTable(c, FieldsExtent(objs, vals, fields), opts);
  }

  lemma TablePlace(buf: seq<byte>, objs: Objects, m: nat, o: nat)
    requires Sealed(buf, objs, m) && o in objs && objs[o].Tbl?
    ensures 4 <= |buf| - o && TableAt(buf, |buf| - o, objs[o].fields, m)
    ensures forall f :: f in objs[o].fields ==> FieldRefs(objs[o].fields[f], objs, |buf|)
  {
    ObjPlace(buf, objs, m, o);
    assert Refs(objs[o], objs, o);
    hide TableAt, Holds;
  }

  lemma {:induction false} FieldsPass(buf: seq<byte>, objs: Objects, m: nat, pos: nat, vals: map<nat, FieldVal>,
                                      fields: seq<S.Field>, c: V.Counters, opts: V.Options)
    requires Sealed(buf, objs, m) && 4 <= pos && TableAt(buf, pos, vals, m)
    requires (forall f :: f in vals ==> FieldRefs(vals[f], objs, |buf|))
    requires FieldsTyped(objs, vals, fields) && S.WellFormed(fields)
    ensures V.VerifyFields(buf, pos, fields, c, opts) == Verdict(c, FieldsExtent(objs, vals, fields), opts)
    decreases fields, 0
  {
    hide Sealed, TableAt, Verdict, FieldRefs;
    if fields == [] {
      VerdictNothing(c, opts);
    } else {
      FieldPasses(buf, objs, m, pos, vals, fields[0], c, opts);
      var first := V.VerifyField(buf, pos, fields[0], c, opts);
      VerdictJoin(c, FieldExtent(objs, vals, fields[0]), FieldsExtent(objs, vals, fields[1..]), opts);
      if first.Pass? {
        FieldsPass(buf, objs, m, pos, vals, fields[1..], first.value, opts);
      }
    }
  }

  lemma {:induction false} FieldPasses(buf: seq<byte>, objs: Objects, m: nat, pos: nat, vals: map<nat, FieldVal>,
                                       field: S.Field, c: V.Counters, opts: V.Options)
    requires Sealed(buf, objs, m) && 4 <= pos && TableAt(buf, pos, vals, m)
    requires (forall f :: f in vals ==> FieldRefs(vals[f], objs, |buf|))
    requires FieldTyped(objs, vals, field) && S.WellFormedField(field)
    ensures V.VerifyField(buf, pos, field, c, opts) == Verdict(c, FieldExtent(objs, vals, field), opts)
    decreases field, 0
  {
    hide Sealed, TableAt, Verdict, FieldRefs;
    TableField(buf, pos, vals, m, field.slot);
    VerdictNothing(c, opts);
    if field.slot in vals {
      var at := pos + GetOptionalFieldOffset(buf, pos, field.slot).value;
      if field.kind.Num? {
        NumPasses(buf, objs, m, at, vals[field.slot], opts);
      } else {
        var t := vals[field.slot].target;
        RefPasses(buf, objs, m, at, vals[field.slot], opts);
        ObjPasses(buf, objs, m, t, field.kind, c, opts);
      }
    }
  }

  lemma NumPasses(buf: seq<byte>, objs: Objects, m: nat, at: nat, v: FieldVal, opts: V.Options)
    requires Sealed(buf, objs, m) && v.Scalar? && ValueAt(buf, at, v, m) && 0 < at
    ensures V.ScalarOk(buf, at, v.w, opts)
  {
    hide Holds;
    ScalarPasses(buf, at, v.w, m, opts);
  }

  lemma RefPasses(buf: seq<byte>, objs: Objects, m: nat, at: nat, v: FieldVal, opts: V.Options)
    requires Sealed(buf, objs, m) && v.Ref? && ValueAt(buf, at, v, m) && 0 < at && v.target in objs
    ensures V.VerifyOffset(buf, at, opts).Pass? && Follow(buf, at) == Some(|buf| - v.target)
  {
    hide Holds, ObjAt, V.VerifyOffset;
    ObjPlace(buf, objs, m, v.target);
    OffsetPasses(buf, at, v.target, m, opts);
  }

  lemma {:induction false} ObjPasses(buf: seq<byte>, objs: Objects, m: nat, o: nat, kind: S.Kind, c: V.Counters, opts: V.Options)
    requires Sealed(buf, objs, m) && ObjTyped(objs, o, kind) && S.WellFormedKind(kind)
    ensures V.VerifyObject(buf, |buf| - o, kind, c, opts) == Verdict(c, ObjExtent(objs, o, kind), opts)
    decreases kind, 0
  {
    hide Sealed, Verdict, LeadsTo;
    VerdictNothing(c, opts);
    if !kind.Sub? { ObjPlaceOf(buf, objs, m, o, opts); }
    match kind
    case Text => TextPasses(buf, objs, m, o, opts);
    case Nums(w) =>
    case Texts => TextsPass(buf, objs, m, |buf| - o, objs[o].targets, 0, opts);
    case Sub(fields) => TablePasses(buf, objs, m, o, fields, c, opts);
    case Subs(fields) =>
      TablesPass(buf, objs, m, |buf| - o, objs[o].targets, 0, fields, c, opts);
      assert objs[o].targets[0..] == objs[o].targets;
  }

  /** The size check of a vector passes. */
  lemma NumsPass(buf: seq<byte>, pos: nat, w: nat, elems: seq<nat>, m: nat, opts: V.Options)
    requires ObjAt(buf, pos, Vec(w, elems), m) && 4 <= pos
    requires IsWidth(m) && 4 <= m && |buf| % m == 0 && |buf| < V.MAX_SIZE
    ensures IsWidth(w) && V.VerifyVectorOrString(buf, pos, w, opts).Pass?
  {
    ElemsCount(buf, pos + 4, w, ReadScalar(buf, pos, 4).value);
    VectorPasses(buf, pos, w, |elems|, m, opts);
  }

  lemma LeadsEnd(buf: seq<byte>, pos: nat, targets: seq<nat>)
    requires LeadsTo(buf, pos, targets) && pos <= |buf|
    ensures pos + 4 * |targets| <= |buf|
  {
    if targets != [] {
      var last := |targets| - 1;
      assert Follow(buf, pos + 4 * last) == Some(|buf| - targets[last]);
    }
  }

  lemma OffsetsPass(buf: seq<byte>, pos: nat, targets: seq<nat>, m: nat, opts: V.Options)
    requires ObjAt(buf, pos, OffVec(targets), m) && 4 <= pos
    requires IsWidth(m) && 4 <= m && |buf| % m == 0 && |buf| < V.MAX_SIZE
    ensures ReadScalar(buf, pos, 4) == Some(|targets|) && LeadsTo(buf, pos + 4, targets)
    ensures V.VerifyVectorOrString(buf, pos, 4, opts).Pass?
  {
    LeadsEnd(buf, pos + 4, targets);
    VectorPasses(buf, pos, 4, |targets|, m, opts);
  }

  lemma ObjPlaceOf(buf: seq<byte>, objs: Objects, m: nat, o: nat, opts: V.Options)
    requires Sealed(buf, objs, m) && o in objs
    ensures 4 <= |buf| - o
    ensures objs[o].Vec? ==> IsWidth(objs[o].w) && V.VerifyVectorOrString(buf, |buf| - o, objs[o].w, opts).Pass?
    ensures objs[o].OffVec? ==>
              && ReadScalar(buf, |buf| - o, 4) == Some(|objs[o].targets|)
              && LeadsTo(buf, |buf| - o + 4, objs[o].targets)
              && V.VerifyVectorOrString(buf, |buf| - o, 4, opts).Pass?
  {
    hide ObjAt, Holds, LeadsTo, V.VerifyVectorOrString;
    ObjPlace(buf, objs, m, o);
    match objs[o]
    case Vec(w, elems) => NumsPass(buf, |buf| - o, w, elems, m, opts);
    case OffVec(targets) => OffsetsPass(buf, |buf| - o, targets, m, opts);
    case _ =>
  }

  lemma {:induction false} TablesPass(buf: seq<byte>, objs: Objects, m: nat, pos: nat, targets: seq<nat>, i: nat,
                                      fields: seq<S.Field>, c: V.Counters, opts: V.Options)
    requires Sealed(buf, objs, m) && i <= |targets| && LeadsTo(buf, pos + 4, targets)
    requires S.WellFormed(fields) && forall t :: t in targets ==> TableTyped(objs, t, fields)
    ensures forall t :: t in targets[i..] ==> TableTyped(objs, t, fields)
    ensures V.VerifyTables(buf, pos, i, |targets|, fields, c, opts)
         == Verdict(c, TablesExtent(objs, targets[i..], fields), opts)
    decreases fields, 2, |targets| - i
  {
    hide Sealed, Verdict, V.VerifyTable, TableExtent, TableTyped;
    if i == |targets| {
      VerdictNothing(c, opts);
    } else {
      assert targets[i] in targets;
      assert Follow(buf, pos + 4 + 4 * i) == Some(|buf| - targets[i]);
      assert targets[i..] == [targets[i]] + targets[i + 1..];
      TablePasses(buf, objs, m, targets[i], fields, c, opts);
      var first := V.VerifyTable(buf, |buf| - targets[i], fields, c, opts);
      VerdictJoin(c, TableExtent(objs, targets[i], fields), TablesExtent(objs, targets[i + 1..], fields), opts);
      if first.Pass? {
        TablesPass(buf, objs, m, pos, targets, i + 1, fields, first.value, opts);
      }
    }
  }
}
