/** What every builder call keeps: all objects finished so far read back as they were written. */
module BuilderInv {
  import opened Wrappers
  import opened Bytes
  import opened Wire
  import opened Layout
  import opened BuilderSpec

  ghost predicate HasLoc(locs: seq<FieldLoc>, id: nat) {
    exists i :: 0 <= i < |locs| && locs[i].id == id
  }

  /** The largest slot whose vtable still has a 16-bit size. */
  const MAX_SLOT: nat := 0xfffc

  predicate LocOk(s: State, l: FieldLoc) {
    && s.start <= l.off <= s.Size()
    && IsSlot(l.id) && l.id <= s.maxVoffset
    && l.id in s.pending && ValueAt(s.data, s.Size() - l.off, s.pending[l.id], s.minalign)
    && (s.pending[l.id].Ref? ==> s.pending[l.id].target in s.objs)
  }

  /** The open table: each field set so far is stored once and readable. */
  ghost predicate OpenTable(s: State) {
    && s.maxVoffset <= MAX_SLOT && s.maxVoffset % 2 == 0
    && s.start <= s.Size()
    && (forall i :: 0 <= i < |s.locs| ==> LocOk(s, s.locs[i]))
    && (forall i, j :: 0 <= i < j < |s.locs| ==> s.locs[i].id != s.locs[j].id)
    && (forall f :: f in s.pending ==> HasLoc(s.locs, f))
  }

  ghost predicate Inv(s: State) {
    && IsWidth(s.minalign) && s.Size() <= MAX_SIZE
    && Holds(s.data, s.objs, s.minalign)
    && (forall v :: v in s.vtables ==> v <= s.Size() && VTableAt(s.data, s.Size() - v))
    && (forall c :: c in s.pool ==> s.pool[c] in s.objs && s.objs[s.pool[c]] == Str(c))
    && (if s.nested then OpenTable(s) else s.locs == [] && s.maxVoffset == 0)
  }

  lemma OpenShift(s: State, bytes: seq<byte>, larger: nat)
    requires OpenTable(s) && s.minalign <= larger
    ensures OpenTable(Push(s.(minalign := larger), bytes))
  {
    hide ValueAt;
    var t := Push(s.(minalign := larger), bytes);
    forall i | 0 <= i < |t.locs|
      ensures LocOk(t, t.locs[i])
    {
      var l := s.locs[i];
      assert LocOk(s, l);
      ValueShift(bytes, s.data, s.Size() - l.off, s.pending[l.id], s.minalign, larger);
      assert |bytes| + (s.Size() - l.off) == t.Size() - l.off;
    }
  }

  lemma PushKeeps(s: State, bytes: seq<byte>, larger: nat)
    requires Inv(s) && IsWidth(larger) && s.minalign <= larger
    requires |bytes| + s.Size() <= MAX_SIZE
    ensures Inv(Push(s.(minalign := larger), bytes))
  {
    hide Holds, OpenTable;
    var t := Push(s.(minalign := larger), bytes);
    HoldsShift(bytes, s.data, s.objs, s.minalign, larger);
    forall v | v in t.vtables
      ensures v <= t.Size() && VTableAt(t.data, t.Size() - v)
    {
      ReadShift(bytes, s.data, s.Size() - v, 2);
      assert |bytes| + (s.Size() - v) == t.Size() - v;
    }
    if s.nested { OpenShift(s, bytes, larger); }
  }

  lemma MinalignOk(s: State)
    requires Inv(s)
    ensures IsWidth(s.minalign)
  {
  }

  lemma AlignKeeps(s: State, w: nat)
    requires Inv(s) && IsWidth(w) && Align(s, w).Size() <= MAX_SIZE
    ensures Inv(Align(s, w)) && Align(s, w).Size() % w == 0 && w <= Align(s, w).minalign
    ensures s.Size() % w == 0 ==> Align(s, w) == s.(minalign := Max(s.minalign, w))
  {
    MinalignOk(s);
    hide Inv;
    PushKeeps(s, Zeros(PaddingBytes(s.Size(), w)), Max(s.minalign, w));
    if s.Size() % w == 0 {
      PaddingIsLeast(s.Size(), w, 0);
      assert Align(s, w).data == s.data;
    }
  }

  lemma PreAlignKeeps(s: State, len: nat, w: nat)
    requires Inv(s) && IsWidth(w) && PreAlign(s, len, w).Size() <= MAX_SIZE
    ensures Inv(PreAlign(s, len, w)) && IsWidth(PreAlign(s, len, w).minalign)
    ensures len > 0 ==> (PreAlign(s, len, w).Size() + len) % w == 0 && w <= PreAlign(s, len, w).minalign
    ensures s.minalign <= PreAlign(s, len, w).minalign
    ensures (s.Size() + len) % w == 0 ==> PreAlign(s, len, w).data == s.data
  {
    MinalignOk(s);
    hide Inv;
    if len > 0 {
      PushKeeps(s, Zeros(PaddingBytes(s.Size() + len, w)), Max(s.minalign, w));
      if (s.Size() + len) % w == 0 {
        PaddingIsLeast(s.Size() + len, w, 0);
      }
    }
  }

  /** The element is aligned, readable at the new front, and everything older still is. */
  lemma PushElementKeeps(s: State, n: nat, w: nat)
    requires Inv(s) && IsWidth(w) && n < Pow256(w) && PushElement(s, n, w).Size() <= MAX_SIZE
    ensures Inv(PushElement(s, n, w))
    ensures ValueAt(PushElement(s, n, w).data, 0, Scalar(w, n), PushElement(s, n, w).minalign)
    ensures PushElement(s, n, w).data == Encode(n, w) + PushElement(s, n, w).data[w..]
    ensures s.Size() % w == 0 ==> PushElement(s, n, w).data[w..] == s.data
    ensures PushElement(s, n, w).minalign == Max(s.minalign, w)
  {
    hide Inv, ValueAt;
    MinalignOk(s);
    AlignKeeps(s, w);
    var a := Align(s, w);
    PushKeeps(a, Encode(n, w), a.minalign);
    ElementAtFront(a, n, w);
  }

  lemma ElementAtFront(a: State, n: nat, w: nat)
    requires IsWidth(w) && n < Pow256(w) && a.Size() % w == 0 && w <= a.minalign
    ensures ValueAt(Push(a, Encode(n, w)).data, 0, Scalar(w, n), a.minalign)
  {
    ReadFront(Encode(n, w), a.data);
    DecodeEncode(n, w);
    AlignedSum(a.Size(), w, w);
    assert w % w == 0;
  }

  // ---- Strings and vectors ----

  /** A call allowed only outside a table: its asserts, and room for the bytes it makes. */
  predicate CanCreate(s: State, t: State) {
    s.NotNested() && !s.finished && t.Size() <= MAX_SIZE
  }

  lemma NewName(s: State, o: nat)
    requires Inv(s) && s.Size() < o
    ensures o !in s.objs
  {
    forall p | p in s.objs
      ensures p <= s.Size()
    {
      assert ObjAt(s.data, s.Size() - p, s.objs[p], s.minalign);
    }
  }

  /** Recording an object just written, `front` bytes from the start. */
  lemma RecordKeeps(s: State, t: State, o: nat, obj: Obj)
    requires Inv(s) && Inv(t) && s.Size() < o && t.objs == s.objs && !t.nested
    requires ObjAt(t.data, t.Size() - o, obj, t.minalign) && Refs(obj, t.objs, o)
    ensures Inv(t.(objs := t.objs[o := obj])) && o !in s.objs
  {
    hide ObjAt;
    NewName(s, o);
    HoldsAdd(t.data, t.objs, t.minalign, o, obj);
  }

  lemma CreateStringKeeps(s: State, chars: seq<byte>)
    requires Inv(s) && CanCreate(s, CreateString(s, chars))
    ensures Inv(CreateString(s, chars)) && CreateString(s, chars).Size() !in s.objs
  {
    hide Inv, ObjAt, Encode;
    Pow256Values();
    PreAlignKeeps(s, |chars| + 1, 4);
    var a := PreAlign(s, |chars| + 1, 4);
    var b := Push(a, Zeros(1));
    PushKeeps(a, Zeros(1), a.minalign);
    var c := Push(b, chars);
    PushKeeps(b, chars, b.minalign);
    PushElementKeeps(c, |chars|, 4);
    var t := PushElement(c, |chars|, 4);
    Terminated(chars, a.data);
    StrAtFront(t.data, chars, chars + (Zeros(1) + a.data), t.minalign);
    RecordKeeps(s, t, t.Size(), Str(chars));
  }

  lemma StrAtFront(buf: seq<byte>, chars: seq<byte>, tail: seq<byte>, minalign: nat)
    requires |buf| % 4 == 0 && |chars| < Pow256(4) && buf == Encode(|chars|, 4) + tail
    requires ReadBytes(tail, 0, |chars|) == Some(chars) && ReadScalar(tail, |chars|, 1) == Some(0)
    ensures ObjAt(buf, 0, Str(chars), minalign)
  {
    hide Encode, Decode, Pow256;
    var size := Encode(|chars|, 4);
    ReadFront(size, tail);
    DecodeEncode(|chars|, 4);
    ReadShift(size, tail, 0, |chars|);
    ReadShift(size, tail, |chars|, 1);
  }

  lemma Terminated(chars: seq<byte>, back: seq<byte>)
    ensures ReadBytes(chars + (Zeros(1) + back), 0, |chars|) == Some(chars)
    ensures ReadScalar(chars + (Zeros(1) + back), |chars|, 1) == Some(0)
  {
    hide Decode;
    ReadFront(chars, Zeros(1) + back);
    ReadFront(Zeros(1), back);
    ReadShift(chars, Zeros(1) + back, 0, 1);
    ZeroByte();
  }

  lemma ZeroByte()
    ensures Decode(Zeros(1)) == 0
  {
    assert Zeros(1) == [0];
  }

  lemma ReadFront(a: seq<byte>, b: seq<byte>)
    ensures ReadBytes(a + b, 0, |a|) == Some(a)
  {
    assert (a + b)[0..|a|] == a;
  }

  lemma SliceSplit(buf: seq<byte>, pos: nat, a: seq<byte>, b: seq<byte>)
    requires pos + |a| + |b| <= |buf| && buf[pos..pos + |a| + |b|] == a + b
    ensures buf[pos..pos + |a|] == a && buf[pos + |a|..pos + |a| + |b|] == b
  {
    var both := buf[pos..pos + |a| + |b|];
    assert buf[pos..pos + |a|] == both[..|a|];
    assert buf[pos + |a|..pos + |a| + |b|] == both[|a|..];
  }

  lemma {:induction false} ElemsEncoded(buf: seq<byte>, pos: nat, elems: seq<nat>, w: nat)
    requires forall e :: e in elems ==> e < Pow256(w)
    requires var n := |EncodeAll(elems, w)|; pos + n <= |buf| && buf[pos..pos + n] == EncodeAll(elems, w)
    ensures GetElems(buf, pos, w, |elems|) == Some(elems)
    decreases |elems|
  {
    hide Encode, Decode, Pow256;
    if elems != [] {
      var e, rest := elems[0], elems[1..];
      assert e in elems;
      SliceSplit(buf, pos, Encode(e, w), EncodeAll(rest, w));
      DecodeEncode(e, w);
      assert forall r :: r in rest ==> r in elems;
      ElemsEncoded(buf, pos + w, rest, w);
      assert elems == [e] + rest;
    }
  }

  lemma StartVectorKeeps(s: State, n: nat, w: nat)
    requires Inv(s) && IsWidth(w) && StartVector(s, n, w).Size() <= MAX_SIZE
    ensures Inv(StartVector(s, n, w)) && IsWidth(StartVector(s, n, w).minalign)
    ensures n > 0 ==> (StartVector(s, n, w).Size() + n) % 4 == 0
    ensures n > 0 ==> (StartVector(s, n, w).Size() + n) % w == 0
    ensures n > 0 ==> w <= StartVector(s, n, w).minalign
  {
    hide Inv;
    PreAlignKeeps(s, n, 4);
    var a := PreAlign(s, n, 4);
    PreAlignKeeps(a, n, w);
    if n > 0 {
      var b := PreAlign(a, n, w);
      if w == 8 {
        AlignedDown(b.Size() + n, 8, 4);
      } else {
        AlignedDown(a.Size() + n, 4, w);
      }
    }
  }

  lemma CreateVectorKeeps(s: State, w: nat, elems: seq<nat>)
    requires Inv(s) && IsWidth(w) && CanCreate(s, CreateVector(s, w, elems))
    requires forall e :: e in elems ==> e < Pow256(w)
    ensures Inv(CreateVector(s, w, elems)) && CreateVector(s, w, elems).Size() !in s.objs
  {
    hide Inv, ObjAt, Encode, StartVector, PushElement;
    var bytes := EncodeAll(elems, w);
    StartVectorKeeps(s, |bytes|, w);
    var a := StartVector(s, |bytes|, w);
    PushKeeps(a, bytes, a.minalign);
    var b := Push(a, bytes);
    FinishVector(b, w, elems, a.data);
    RecordKeeps(s, PushElement(b, |elems|, 4), PushElement(b, |elems|, 4).Size(), Vec(w, elems));
  }

  lemma FinishVector(b: State, w: nat, elems: seq<nat>, back: seq<byte>)
    requires Inv(b) && IsWidth(w) && b.data == EncodeAll(elems, w) + back
    requires forall e :: e in elems ==> e < Pow256(w)
    requires elems != [] ==> b.Size() % 4 == 0
    requires ElemsAligned(b.Size(), w, elems, b.minalign)
    requires PushElement(b, |elems|, 4).Size() <= MAX_SIZE
    ensures Inv(PushElement(b, |elems|, 4))
    ensures ObjAt(PushElement(b, |elems|, 4).data, 0, Vec(w, elems), PushElement(b, |elems|, 4).minalign)
  {
    hide Inv, ObjAt, Encode, PushElement, EncodeAll, ElemsAligned, Pow256, Max;
    LengthFits(b, w, elems, back);
    LengthPushed(b, |elems|);
    var t := PushElement(b, |elems|, 4);
    var rest := if elems == [] then t.data[4..] else back;
    ElemsBehind(t.data, w, elems, rest, b, back);
    StillAligned(b, t, w, elems);
    VectorAtFront(t.data, w, elems, rest, t.minalign);
  }

  lemma LengthPushed(b: State, n: nat)
    requires Inv(b) && n < Pow256(4) && PushElement(b, n, 4).Size() <= MAX_SIZE
    ensures var t := PushElement(b, n, 4);
            && Inv(t) && t.data == Encode(n, 4) + t.data[4..] && t.Size() % 4 == 0 && b.minalign <= t.minalign
            && (b.Size() % 4 == 0 ==> t.data[4..] == b.data && t.Size() == b.Size() + 4)
  {
    hide Inv, Encode, Decode, PushElement, Pow256, ReadScalar;
    PushElementKeeps(b, n, 4);
    var t := PushElement(b, n, 4);
    assert t.Size() == 4 + |t.data[4..]|;
  }

  lemma LengthFits(b: State, w: nat, elems: seq<nat>, back: seq<byte>)
    requires Inv(b) && IsWidth(w) && b.data == EncodeAll(elems, w) + back
    ensures |elems| < Pow256(4)
  {
    hide Encode;
    Pow256Values();
    MulGrows(w, |elems|);
  }

  lemma ElemsBehind(data: seq<byte>, w: nat, elems: seq<nat>, rest: seq<byte>, b: State, back: seq<byte>)
    requires 4 <= |data| && b.data == EncodeAll(elems, w) + back
    requires if elems == [] then rest == data[4..] else rest == back && data[4..] == b.data
    ensures EncodeAll(elems, w) + rest == data[4..]
  {
  }

  lemma StillAligned(b: State, t: State, w: nat, elems: seq<nat>)
    requires IsWidth(w) && ElemsAligned(b.Size(), w, elems, b.minalign) && b.minalign <= t.minalign
    requires elems != [] ==> t.Size() == b.Size() + 4
    ensures ElemsAligned(t.Size() - 4, w, elems, t.minalign)
  {
  }

  lemma VectorAtFront(buf: seq<byte>, w: nat, elems: seq<nat>, back: seq<byte>, minalign: nat)
    requires |buf| % 4 == 0 && IsWidth(w) && |elems| < Pow256(4) && forall e :: e in elems ==> e < Pow256(w)
    requires buf == Encode(|elems|, 4) + (EncodeAll(elems, w) + back) && ElemsAligned(|buf| - 4, w, elems, minalign)
    ensures ObjAt(buf, 0, Vec(w, elems), minalign)
  {
    hide Encode, Decode, EncodeAll, ElemsAligned, GetElems, ReadScalar, Pow256;
    LengthReads(buf, |elems|, EncodeAll(elems, w) + back);
    assert buf[4..] == EncodeAll(elems, w) + back;
    ElemsRead(buf, w, elems, back);
  }

  lemma ElemsRead(buf: seq<byte>, w: nat, elems: seq<nat>, back: seq<byte>)
    requires |buf| >= 4 && buf[4..] == EncodeAll(elems, w) + back && forall e :: e in elems ==> e < Pow256(w)
    ensures GetElems(buf, 4, w, |elems|) == Some(elems) && 4 + w * |elems| <= |buf|
  {
    hide EncodeAll, GetElems, Pow256;
    var n := |EncodeAll(elems, w)|;
    VectorFits(w, elems, back);
    assert buf[4..][..n] == buf[4..4 + n];
    ElemsEncoded(buf, 4, elems, w);
  }

  lemma LengthReads(buf: seq<byte>, n: nat, rest: seq<byte>)
    requires buf == Encode(n, 4) + rest && n < Pow256(4)
    ensures ReadScalar(buf, 0, 4) == Some(n)
  {
    hide Encode, Decode;
    assert buf[0..4] == Encode(n, 4);
    DecodeEncode(n, 4);
  }

  lemma VectorFits(w: nat, elems: seq<nat>, back: seq<byte>)
    ensures |EncodeAll(elems, w) + back| >= w * |elems|
  {
  }

  lemma MulGrows(w: nat, n: nat)
    requires w > 0
    ensures w * n >= n
  {
  }

  /** One reference: four bytes that lead to the target. */
  lemma PushOffsetKeeps(s: State, target: nat)
    requires Inv(s) && target <= s.Size() && PushOffset(s, target).Size() <= MAX_SIZE
    ensures Inv(PushOffset(s, target))
    ensures ValueAt(PushOffset(s, target).data, 0, Ref(target), PushOffset(s, target).minalign)
    ensures s.Size() % 4 == 0 ==> PushOffset(s, target).data[4..] == s.data
  {
    hide Inv;
    Pow256Values();
    AlignKeeps(s, 4);
    var a := Align(s, 4);
    PushElementKeeps(a, ReferTo(s, target), 4);
  }

  lemma PushOffsetSize(s: State, target: nat)
    requires s.Size() % 4 == 0 && target <= s.Size()
    ensures PushOffset(s, target).Size() == s.Size() + 4
  {
    PaddingIsLeast(s.Size(), 4, 0);
  }

  lemma {:induction false} PushOffsetsKeeps(s: State, targets: seq<nat>)
    requires Inv(s) && s.Size() + 4 * |targets| <= MAX_SIZE && (targets != [] ==> s.Size() % 4 == 0)
    requires forall t :: t in targets ==> t <= s.Size()
    ensures var t := PushOffsets(s, targets);
            && Inv(t) && t.Size() == s.Size() + 4 * |targets| && s.minalign <= t.minalign
            && t.objs == s.objs && t.nested == s.nested && LeadsTo(t.data, 0, targets)
  {
    hide Inv, PushOffset, LeadsTo;
    if targets == [] {
      LeadsNowhere(s.data);
      assert PushOffsets(s, targets) == s;
    } else {
      assert forall t :: t in targets[1..] ==> t in targets;
      PushOffsetsKeeps(s, targets[1..]);
      var rest := PushOffsets(s, targets[1..]);
      assert targets[0] in targets;
      AlignedSum(4 * |targets[1..]|, s.Size(), 4);
      PushOffsetSize(rest, targets[0]);
      PushOffsetKeeps(rest, targets[0]);
      var t := PushOffset(rest, targets[0]);
      assert t.data == t.data[..4] + rest.data;
      LeadsShift(t.data[..4], rest.data, targets[1..], 0);
      LeadsCons(t.data, targets[0], targets[1..]);
      assert targets == [targets[0]] + targets[1..];
    }
  }

  lemma OffVecAtFront(buf: seq<byte>, body: seq<byte>, targets: seq<nat>, minalign: nat)
    requires |buf| % 4 == 0 && |targets| < Pow256(4) && buf == Encode(|targets|, 4) + body
    requires LeadsTo(body, 0, targets)
    ensures ObjAt(buf, 0, OffVec(targets), minalign)
  {
    hide LeadsTo;
    assert buf[0..4] == Encode(|targets|, 4);
    DecodeEncode(|targets|, 4);
    LeadsShift(Encode(|targets|, 4), body, targets, 0);
  }

  lemma CreateVectorOfOffsetsKeeps(s: State, targets: seq<nat>)
    requires Inv(s) && forall t :: t in targets ==> t in s.objs && t <= s.Size()
    requires CanCreate(s, CreateVectorOfOffsets(s, targets))
    ensures Inv(CreateVectorOfOffsets(s, targets)) && CreateVectorOfOffsets(s, targets).Size() !in s.objs
  {
    hide Inv, ObjAt, StartVector, PushElement, PushOffsets, LeadsTo;
    Pow256Values();
    var n := 4 * |targets|;
    var a := StartVector(s, n, 4);
    StartVectorKeeps(s, n, 4);
    var b := PushOffsets(a, targets);
    AlignedSum(n, a.Size(), 4);
    PushOffsetsKeeps(a, targets);
    PushElementKeeps(b, |targets|, 4);
    var t := PushElement(b, |targets|, 4);
    if targets == [] { LeadsNowhere(t.data[4..]); }
    OffVecAtFront(t.data, t.data[4..], targets, t.minalign);
    RecordKeeps(s, t, t.Size(), OffVec(targets));
  }
}
