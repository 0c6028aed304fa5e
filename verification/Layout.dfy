/** What it means for bytes to hold an object.  A builder writes from the end of the buffer towards
    its start, so an object is named by its distance from the end, which later writes do not change. */
module Layout {
  import opened Wrappers
  import opened Bytes
  import opened Wire

  datatype FieldVal =
    | Scalar(w: nat, n: nat)
    | Ref(target: nat)

  datatype Obj =
    | Str(chars: seq<byte>)
    | Vec(w: nat, elems: seq<nat>)
    | OffVec(targets: seq<nat>)
    | Tbl(fields: map<nat, FieldVal>)

  type Objects = map<nat, Obj>

  /** Vtable slots are even and start after the two size entries. */
  predicate IsSlot(f: nat) {
    4 <= f && f % 2 == 0
  }

  /** The value at `pos` is `v`, aligned as seen from the end of the buffer. */
  predicate ValueAt(buf: seq<byte>, pos: int, v: FieldVal, minalign: nat) {
    match v
    case Scalar(w, n) =>
      IsWidth(w) && w <= minalign && (|buf| - pos) % w == 0 && ReadScalar(buf, pos, w) == Some(n)
    case Ref(t) =>
      (|buf| - pos) % 4 == 0 && t < |buf| - pos && Follow(buf, pos) == Some(|buf| - t)
  }

  /** The accessors find in slot `f` exactly what `fields` says, or nothing. */
  predicate FieldAt(buf: seq<byte>, table: int, fields: map<nat, FieldVal>, f: nat, minalign: nat) {
    var offset := GetOptionalFieldOffset(buf, table, f);
    && offset.Some?
    && if f in fields then
         offset.value != 0 && ValueAt(buf, table + offset.value, fields[f], minalign)
       else
         offset.value == 0
  }

  /** A vtable lies at `vt`: an even size that covers the two size entries and stays in the buffer. */
  predicate VTableAt(buf: seq<byte>, vt: int) {
    && (|buf| - vt) % 2 == 0
    && var size := ReadScalar(buf, vt, 2);
    && size.Some? && size.value % 2 == 0 && 4 <= size.value && vt + size.value <= |buf|
  }

  /** Two places where four bytes each do not overlap. */
  predicate Apart(a: int, b: int) {
    a + 4 <= b || b + 4 <= a
  }

  ghost predicate TableAt(buf: seq<byte>, pos: int, fields: map<nat, FieldVal>, minalign: nat) {
    && GetVTable(buf, pos).Some? && VTableAt(buf, GetVTable(buf, pos).value)
    && Apart(pos, GetVTable(buf, pos).value)
    && (forall f :: f in fields ==> IsSlot(f))
    && forall f: nat :: IsSlot(f) ==> FieldAt(buf, pos, fields, f, minalign)
  }

  lemma TableField(buf: seq<byte>, pos: int, vals: map<nat, FieldVal>, m: nat, f: nat)
    requires TableAt(buf, pos, vals, m) && IsSlot(f)
    ensures var offset := GetOptionalFieldOffset(buf, pos, f);
            && offset.Some?
            && if f in vals then offset.value != 0 && ValueAt(buf, pos + offset.value, vals[f], m) else offset.value == 0
  {
    assert FieldAt(buf, pos, vals, f, m);
  }

  /** Consecutive references, from `pos` on, to the targets. */
  ghost predicate LeadsTo(buf: seq<byte>, pos: int, targets: seq<nat>) {
    forall i :: 0 <= i < |targets| ==> Follow(buf, pos + 4 * i) == Some(|buf| - targets[i])
  }

  /** The first element, and so every one, is aligned as seen from the end of the buffer. */
  predicate ElemsAligned(fromEnd: int, w: nat, elems: seq<nat>, minalign: nat)
    requires IsWidth(w)
  {
    elems != [] ==> w <= minalign && fromEnd % w == 0
  }

  ghost predicate ObjAt(buf: seq<byte>, pos: int, obj: Obj, minalign: nat) {
    && 0 <= pos && pos + 4 <= |buf| && (|buf| - pos) % 4 == 0
    && match obj
       case Str(chars) =>
         GetString(buf, pos) == Some(chars) && ReadScalar(buf, pos + 4 + |chars|, 1) == Some(0)
       case Vec(w, elems) =>
         && IsWidth(w) && pos + 4 + w * |elems| <= |buf| && ElemsAligned(|buf| - (pos + 4), w, elems, minalign)
         && GetVector(buf, pos, w) == Some(elems)
       case OffVec(targets) =>
         ReadScalar(buf, pos, 4) == Some(|targets|) && LeadsTo(buf, pos + 4, targets)
       case Tbl(fields) =>
         TableAt(buf, pos, fields, minalign)
  }

  /** References lead to objects finished earlier. */
  predicate FieldRefs(v: FieldVal, objs: Objects, o: nat) {
    v.Ref? ==> v.target in objs && v.target < o
  }

  predicate Refs(obj: Obj, objs: Objects, o: nat) {
    match obj
    case Str(_) => true
    case Vec(_, _) => true
    case OffVec(targets) => forall i :: 0 <= i < |targets| ==> targets[i] in objs && targets[i] < o
    case Tbl(fields) => forall f :: f in fields ==> FieldRefs(fields[f], objs, o)
  }

  /** Every recorded object reads back from the bytes as recorded. */
  ghost predicate Holds(data: seq<byte>, objs: Objects, minalign: nat) {
    forall o :: o in objs ==> ObjAt(data, |data| - o, objs[o], minalign) && Refs(objs[o], objs, o)
  }

  // ---- Writing in front of an object leaves it readable ----

  lemma {:induction false} ElemsShift(front: seq<byte>, buf: seq<byte>, pos: int, w: nat, count: nat)
    requires GetElems(buf, pos, w, count).Some?
    ensures GetElems(front + buf, |front| + pos, w, count) == GetElems(buf, pos, w, count)
    decreases count
  {
    if count > 0 {
      ReadShift(front, buf, pos, w);
      ElemsShift(front, buf, pos + w, w, count - 1);
      assert |front| + (pos + w) == (|front| + pos) + w;
    }
  }

  lemma ValueShift(front: seq<byte>, buf: seq<byte>, pos: int, v: FieldVal, minalign: nat, larger: nat)
    requires ValueAt(buf, pos, v, minalign) && minalign <= larger
    ensures ValueAt(front + buf, |front| + pos, v, larger)
  {
    ReadShift(front, buf, pos, if v.Scalar? then v.w else 4);
    assert |front + buf| - (|front| + pos) == |buf| - pos;
  }

  lemma FieldShift(front: seq<byte>, buf: seq<byte>, pos: int, fields: map<nat, FieldVal>, f: nat, minalign: nat, larger: nat)
    requires FieldAt(buf, pos, fields, f, minalign) && minalign <= larger
    ensures FieldAt(front + buf, |front| + pos, fields, f, larger)
  {
    hide ValueAt;
    FieldOffsetShift(front, buf, pos, f);
    if f in fields {
      var offset := GetOptionalFieldOffset(buf, pos, f).value;
      ValueShift(front, buf, pos + offset, fields[f], minalign, larger);
      assert |front| + (pos + offset) == (|front| + pos) + offset;
    }
  }

  lemma TableShift(front: seq<byte>, buf: seq<byte>, pos: int, fields: map<nat, FieldVal>, minalign: nat, larger: nat)
    requires TableAt(buf, pos, fields, minalign) && minalign <= larger
    ensures TableAt(front + buf, |front| + pos, fields, larger)
  {
    ReadShift(front, buf, pos, 4);
    var vt := GetVTable(buf, pos).value;
    ReadShift(front, buf, vt, 2);
    assert |front + buf| - (|front| + vt) == |buf| - vt;
    hide FieldAt;
    forall f: nat | IsSlot(f)
      ensures FieldAt(front + buf, |front| + pos, fields, f, larger)
    {
      FieldShift(front, buf, pos, fields, f, minalign, larger);
    }
  }

  lemma LeadsShift(front: seq<byte>, buf: seq<byte>, targets: seq<nat>, pos: int)
    requires LeadsTo(buf, pos, targets)
    ensures LeadsTo(front + buf, |front| + pos, targets)
  {
    forall i | 0 <= i < |targets|
      ensures Follow(front + buf, |front| + pos + 4 * i) == Some(|front + buf| - targets[i])
    {
      assert Follow(buf, pos + 4 * i) == Some(|buf| - targets[i]);
      ReadShift(front, buf, pos + 4 * i, 4);
      assert |front| + (pos + 4 * i) == |front| + pos + 4 * i;
    }
  }

  lemma LeadsNowhere(buf: seq<byte>)
    ensures LeadsTo(buf, 0, [])
  {
  }

  lemma LeadsCons(buf: seq<byte>, target: nat, targets: seq<nat>)
    requires Follow(buf, 0) == Some(|buf| - target) && LeadsTo(buf, 4, targets)
    ensures LeadsTo(buf, 0, [target] + targets)
  {
    var all := [target] + targets;
    forall i | 0 <= i < |all|
      ensures Follow(buf, 0 + 4 * i) == Some(|buf| - all[i])
    {
      if i > 0 {
        assert Follow(buf, 4 + 4 * (i - 1)) == Some(|buf| - targets[i - 1]);
      }
    }
  }

  lemma ObjShift(front: seq<byte>, buf: seq<byte>, pos: int, obj: Obj, minalign: nat, larger: nat)
    requires ObjAt(buf, pos, obj, minalign) && minalign <= larger
    ensures ObjAt(front + buf, |front| + pos, obj, larger)
  {
    hide GetElems, ElemsAligned;
    assert |front + buf| - (|front| + pos) == |buf| - pos;
    ReadShift(front, buf, pos, 4);
    match obj
    case Str(chars) =>
      ReadShift(front, buf, pos + 4, |chars|);
      ReadShift(front, buf, pos + 4 + |chars|, 1);
    case Vec(w, elems) =>
      VecShift(front, buf, pos, w, elems, minalign, larger);
    case OffVec(targets) =>
      LeadsShift(front, buf, targets, pos + 4);
      assert |front| + (pos + 4) == (|front| + pos) + 4;
    case Tbl(fields) =>
      TableShift(front, buf, pos, fields, minalign, larger);
  }

  lemma VecShift(front: seq<byte>, buf: seq<byte>, pos: int, w: nat, elems: seq<nat>, minalign: nat, larger: nat)
    requires ObjAt(buf, pos, Vec(w, elems), minalign) && minalign <= larger
    ensures ObjAt(front + buf, |front| + pos, Vec(w, elems), larger)
  {
    hide GetElems, ReadScalar, ElemsAligned;
    assert |front + buf| - (|front| + pos) == |buf| - pos;
    assert |front + buf| - (|front| + pos + 4) == |buf| - (pos + 4);
    ElemsStayAligned(|buf| - (pos + 4), w, elems, minalign, larger);
    LengthShift(front, buf, pos);
    ElemsCount(buf, pos + 4, w, ReadScalar(buf, pos, 4).value);
    ElemsShift(front, buf, pos + 4, w, |elems|);
    assert |front| + (pos + 4) == (|front| + pos) + 4;
  }

  lemma LengthShift(front: seq<byte>, buf: seq<byte>, pos: int)
    requires ReadScalar(buf, pos, 4).Some?
    ensures ReadScalar(front + buf, |front| + pos, 4) == ReadScalar(buf, pos, 4)
  {
    ReadShift(front, buf, pos, 4);
  }

  lemma ElemsStayAligned(fromEnd: int, w: nat, elems: seq<nat>, minalign: nat, larger: nat)
    requires IsWidth(w) && ElemsAligned(fromEnd, w, elems, minalign) && minalign <= larger
    ensures ElemsAligned(fromEnd, w, elems, larger)
  {
  }

  lemma {:induction false} ElemsCount(buf: seq<byte>, pos: int, w: nat, count: nat)
    requires GetElems(buf, pos, w, count).Some?
    ensures |GetElems(buf, pos, w, count).value| == count
    decreases count
  {
    if count > 0 { ElemsCount(buf, pos + w, w, count - 1); }
  }

  /** Growing the buffer keeps every finished object as it was. */
  lemma HoldsShift(front: seq<byte>, data: seq<byte>, objs: Objects, minalign: nat, larger: nat)
    requires Holds(data, objs, minalign) && minalign <= larger
    ensures Holds(front + data, objs, larger)
  {
    hide ObjAt, Refs;
    forall o | o in objs
      ensures ObjAt(front + data, |front + data| - o, objs[o], larger)
    {
      ObjShift(front, data, |data| - o, objs[o], minalign, larger);
      assert |front| + (|data| - o) == |front + data| - o;
    }
  }

  lemma HoldsAdd(data: seq<byte>, objs: Objects, minalign: nat, o: nat, obj: Obj)
    requires Holds(data, objs, minalign) && o !in objs
    requires ObjAt(data, |data| - o, obj, minalign) && Refs(obj, objs, o)
    ensures Holds(data, objs[o := obj], minalign)
  {
    hide ObjAt;
    var more := objs[o := obj];
    forall p | p in more
      ensures Refs(more[p], more, p)
    {
    }
  }
}
