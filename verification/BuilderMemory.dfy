/** The bytes on the builder's scratch pad, and the steps its methods take through BuilderSpec. */
module BuilderMemory {
  import opened Wrappers
  import opened Bytes
  import opened Wire
  import opened Layout
  import opened BuilderInv
  import opened BuilderTables
  import Spec = BuilderSpec

  // ---- What the scratch pad holds ----

  /** Offsets, four bytes each. */
  function Words(xs: seq<nat>): (r: seq<byte>)
    ensures |r| == 4 * |xs|
  {
    if xs == [] then [] else Words(xs[..|xs| - 1]) + Encode(xs[|xs| - 1], 4)
  }

  /** `struct FieldLoc`, with its two bytes of padding. */
  function LocBytes(l: Spec.FieldLoc): (r: seq<byte>)
    ensures |r| == 8
  {
    Encode(l.off, 4) + Encode(l.id, 2) + Zeros(2)
  }

  function AllLocBytes(locs: seq<Spec.FieldLoc>): (r: seq<byte>)
    ensures |r| == 8 * |locs|
  {
    if locs == [] then [] else AllLocBytes(locs[..|locs| - 1]) + LocBytes(locs[|locs| - 1])
  }

  function ScratchBytes(s: Spec.State): (r: seq<byte>)
    ensures |r| == ScratchSize(s)
  {
    Words(s.vtables) + Words(s.temps) + AllLocBytes(s.locs)
  }

  function ScratchSize(s: Spec.State): nat {
    4 * |s.vtables| + 4 * |s.temps| + 8 * |s.locs|
  }

  /** The bytes of an element just pushed, the least significant one first. */
  lemma ElementBytes(s: Spec.State, n: nat, w: nat)
    requires IsWidth(w)
    ensures var data := Spec.PushElement(s, n, w).data;
            |data| >= w && forall i :: 0 <= i < w ==> data[i] == n / Pow256(i) % 256
  {
    hide Encode, Pow256, Spec.Align;
    forall i | 0 <= i < w
      ensures Encode(n, w)[i] == n / Pow256(i) % 256
    {
      EncodedByte(n, w, i);
    }
  }

  lemma HoldsLocs(s: Spec.State)
    ensures 8 * |s.locs| <= |ScratchBytes(s)|
  {
    hide ScratchBytes;
  }

  lemma EmptyScratch(s: Spec.State)
    requires s.vtables == [] && s.temps == [] && s.locs == []
    ensures ScratchBytes(s) == []
  {
  }

  lemma {:induction false} WordAt(xs: seq<nat>, i: nat)
    requires i < |xs|
    ensures Words(xs)[4 * i..4 * i + 4] == Encode(xs[i], 4)
  {
    var n := |xs| - 1;
    if i < n {
      WordAt(xs[..n], i);
      assert Words(xs)[4 * i..4 * i + 4] == Words(xs[..n])[4 * i..4 * i + 4];
    }
  }

  lemma {:induction false} LocAt(locs: seq<Spec.FieldLoc>, i: nat)
    requires i < |locs|
    ensures AllLocBytes(locs)[8 * i..8 * i + 8] == LocBytes(locs[i])
  {
    var n := |locs| - 1;
    if i < n {
      LocAt(locs[..n], i);
      assert AllLocBytes(locs)[8 * i..8 * i + 8] == AllLocBytes(locs[..n])[8 * i..8 * i + 8];
    }
  }

  lemma LocDecodes(l: Spec.FieldLoc)
    requires l.off < Pow256(4) && l.id < Pow256(2)
    ensures Decode(LocBytes(l)[..4]) == l.off && Decode(LocBytes(l)[4..6]) == l.id
  {
    assert LocBytes(l)[..4] == Encode(l.off, 4);
    assert LocBytes(l)[4..6] == Encode(l.id, 2);
    DecodeEncode(l.off, 4);
    DecodeEncode(l.id, 2);
  }

  lemma WordsPush(xs: seq<nat>, x: nat)
    ensures Words(xs + [x]) == Words(xs) + Encode(x, 4)
  {
    assert (xs + [x])[..|xs|] == xs;
  }

  lemma LocsPush(locs: seq<Spec.FieldLoc>, l: Spec.FieldLoc)
    ensures AllLocBytes(locs + [l]) == AllLocBytes(locs) + LocBytes(l)
  {
    assert (locs + [l])[..|locs|] == locs;
  }

  lemma ScratchTrack(s: Spec.State, field: nat)
    ensures ScratchBytes(Spec.TrackField(s, field)) == ScratchBytes(s) + LocBytes(Spec.FieldLoc(s.Size(), field))
  {
    LocsPush(s.locs, Spec.FieldLoc(s.Size(), field));
  }

  lemma SameScratch(s: Spec.State, t: Spec.State)
    requires s.vtables == t.vtables && s.temps == t.temps && s.locs == t.locs
    ensures ScratchBytes(s) == ScratchBytes(t)
  {
  }

  /** The flag StartVector raises changes nothing about what is pushed. */
  function Nest(s: Spec.State): Spec.State {
    s.(nested := true)
  }

  lemma {:induction false} NestedOffsets(s: Spec.State, targets: seq<nat>)
    requires forall t :: t in targets ==> t <= s.Size()
    ensures Nest(s).Size() == s.Size()
    ensures Spec.PushOffsets(Nest(s), targets) == Nest(Spec.PushOffsets(s, targets))
  {
    if targets != [] {
      assert forall t :: t in targets[1..] ==> t in targets;
      NestedOffsets(s, targets[1..]);
      assert targets[0] in targets;
    }
  }

  predicate Below(targets: seq<nat>, size: nat) {
    forall t :: t in targets ==> t <= size
  }

  lemma BelowSlice(targets: seq<nat>, i: nat, size: nat)
    requires i <= |targets| && Below(targets, size)
    ensures Below(targets[i..], size)
  {
    forall t | t in targets[i..]
      ensures t <= size
    {
      assert t in targets;
    }
  }

  /** The references after the `i`-th, and then the `i`-th. */
  lemma OneMoreOffset(s: Spec.State, targets: seq<nat>, i: nat)
    requires i < |targets| && Below(targets, s.Size())
    ensures Below(targets[i..], s.Size()) && Below(targets[i + 1..], s.Size())
    ensures targets[i] <= Spec.PushOffsets(s, targets[i + 1..]).Size()
    ensures Spec.PushOffsets(s, targets[i..]) == Spec.PushOffset(Spec.PushOffsets(s, targets[i + 1..]), targets[i])
  {
    hide Spec.PushOffset;
    var more := targets[i..];
    assert more[1..] == targets[i + 1..];
    assert targets[i] in targets;
    BelowSlice(targets, i, s.Size());
    BelowSlice(targets, i + 1, s.Size());
  }

  lemma EncodedNothing(elems: seq<nat>, w: nat)
    ensures elems == [] ==> Spec.EncodeAll(elems, w) == []
    ensures |Spec.EncodeAll(elems, w)| == w * |elems|
  {
  }

  lemma PushedNothing(s: Spec.State)
    ensures Spec.PushOffsets(s, []) == s
  {
  }

  lemma {:induction false} OffsetsGrow(s: Spec.State, targets: seq<nat>, i: nat)
    requires i <= |targets| && Below(targets, s.Size())
    ensures Below(targets[i..], s.Size())
    ensures Spec.PushOffsets(s, targets[i..]).Size() <= Spec.PushOffsets(s, targets).Size()
  {
    hide Spec.PushOffset, Spec.PushOffsets;
    if i == 0 {
      assert targets[0..] == targets;
    } else {
      OneMoreOffset(s, targets, i - 1);
      OffsetsGrow(s, targets, i - 1);
    }
  }

  lemma ScratchTemp(s: Spec.State, off: nat)
    requires s.locs == []
    ensures ScratchBytes(s.(temps := s.temps + [off])) == ScratchBytes(s) + Encode(off, 4)
  {
    WordsPush(s.temps, off);
    hide Words, Encode;
    assert AllLocBytes(s.locs) == [];
    var front, temps, word := Words(s.vtables), Words(s.temps), Encode(off, 4);
    assert (front + temps + []) + word == front + (temps + word) + [];
  }

  /** The `i`-th of the offsets kept on the scratch pad. */
  lemma TempAt(s: Spec.State, i: nat)
    requires s.locs == [] && i < |s.temps| && s.temps[i] < Pow256(4)
    ensures var at := 4 * |s.vtables| + 4 * i; Decode(ScratchBytes(s)[at..at + 4]) == s.temps[i]
  {
    hide Words, Decode, Encode;
    var at := 4 * |s.vtables| + 4 * i;
    WordAt(s.temps, i);
    assert ScratchBytes(s)[at..at + 4] == Words(s.temps)[4 * i..4 * i + 4];
    DecodeEncode(s.temps[i], 4);
  }

  lemma ScratchUntemp(s: Spec.State, temps: seq<nat>)
    requires s.locs == [] && temps <= s.temps
    ensures ScratchBytes(s)[..4 * |s.vtables| + 4 * |temps|] == ScratchBytes(s.(temps := temps))
  {
    WordsPrefix(s.temps, |temps|);
    assert s.temps[..|temps|] == temps;
  }

  lemma {:induction false} WordsPrefix(xs: seq<nat>, n: nat)
    requires n <= |xs|
    ensures Words(xs)[..4 * n] == Words(xs[..n])
  {
    if n < |xs| {
      var m := |xs| - 1;
      WordsPrefix(xs[..m], n);
      assert xs[..m][..n] == xs[..n];
      assert Words(xs)[..4 * n] == Words(xs[..m])[..4 * n];
    } else {
      assert xs[..n] == xs;
    }
  }

  /** The first `k + 1` strings are the first `k` and then one more. */
  lemma OneMoreString(s: Spec.State, strings: seq<seq<byte>>, k: nat)
    requires k < |strings|
    ensures var before := Spec.CreateStrings(s, strings[..k]);
            var t := Spec.CreateString(before, strings[k]);
            Spec.CreateStrings(s, strings[..k + 1]) == t.(temps := before.temps + [t.Size()])
  {
    hide Spec.CreateString;
    var more := strings[..k + 1];
    assert more[..|more| - 1] == strings[..k];
  }

  lemma NoStrings(s: Spec.State, strings: seq<seq<byte>>)
    ensures Spec.CreateStrings(s, strings[..0]) == s
  {
  }

  lemma {:induction false} StringsGrow(s: Spec.State, strings: seq<seq<byte>>, k: nat)
    requires k <= |strings|
    ensures Spec.CreateStrings(s, strings[..k]).Size() <= Spec.CreateStrings(s, strings).Size()
    decreases |strings| - k
  {
    hide Spec.CreateStrings, Spec.CreateString;
    if k == |strings| {
      assert strings[..k] == strings;
    } else {
      StringsGrow(s, strings, k + 1);
      OneMoreString(s, strings, k);
      StringGrows(Spec.CreateStrings(s, strings[..k]), strings[k]);
    }
  }

  /** A string goes in front of what is there. */
  lemma StringGrows(s: Spec.State, chars: seq<byte>)
    ensures var t := Spec.CreateString(s, chars);
            && t == s.(data := t.data, minalign := t.minalign, objs := s.objs[t.Size() := Str(chars)])
            && t.Size() > s.Size() && t.data[t.Size() - s.Size()..] == s.data
  {
  }

  /** A reference pushed does not touch the scratch pad. */
  lemma {:induction false} OffsetsKeepScratch(s: Spec.State, targets: seq<nat>)
    requires Below(targets, s.Size())
    ensures Spec.PushOffsets(s, targets).temps == s.temps && Spec.PushOffsets(s, targets).vtables == s.vtables
    ensures Spec.PushOffsets(s, targets).locs == s.locs
  {
  }

  lemma VectorGrows(s: Spec.State, targets: seq<nat>)
    requires Below(targets, s.Size())
    ensures Spec.CreateVectorOfOffsets(s, targets).Size() >= s.Size()
  {
  }

  predicate EndsWith(xs: seq<nat>, ys: seq<nat>) {
    |ys| <= |xs| && xs[|xs| - |ys|..] == ys
  }

  /** All about pushing reference `k` when those behind it have been pushed. */
  lemma NextOffset(s: Spec.State, targets: seq<nat>, k: nat)
    requires k < |targets| && Below(targets, s.Size()) && 0 !in targets
    ensures Below(targets[k..], s.Size()) && Below(targets[k + 1..], s.Size())
    ensures var rest := Spec.PushOffsets(s, targets[k + 1..]);
            && rest.temps == s.temps && rest.locs == s.locs && 0 < targets[k] <= rest.Size()
            && Spec.PushOffsets(s, targets[k..]) == Spec.PushOffset(rest, targets[k])
            && Spec.PushOffset(rest, targets[k]).Size() <= Spec.PushOffsets(s, targets).Size()
  {
    hide Spec.PushOffset, Spec.PushOffsets;
    OneMoreOffset(s, targets, k);
    OffsetsGrow(s, targets, k);
    OffsetsKeepScratch(s, targets[k + 1..]);
    assert targets[k] in targets;
  }

  /** Removing the kept offsets before or after the length is written comes to the same. */
  lemma UntempLater(a: Spec.State, n: nat, temps: seq<nat>)
    ensures Spec.PushElement(a.(temps := temps), n, 4) == Spec.PushElement(a, n, 4).(temps := temps)
  {
  }

  // ---- The vtable EndTable builds in place ----

  /** Writing the two sizes into zeroed space. */
  lemma BlankBuilt(size: nat, tableSize: nat, back: seq<byte>)
    requires size >= 4
    ensures var zeroed := Zeros(size) + back;
            var one := zeroed[..2] + Encode(tableSize, 2) + zeroed[4..];
            one[..0] + Encode(size, 2) + one[2..] == Spec.BlankVTable(size, tableSize) + back
  {
    hide Encode;
    var zeroed := Zeros(size) + back;
    var one := zeroed[..2] + Encode(tableSize, 2) + zeroed[4..];
    assert one[2..] == Encode(tableSize, 2) + zeroed[4..];
    assert zeroed[4..] == Zeros(size - 4) + back;
  }

  lemma WriteInFront(vt: seq<byte>, back: seq<byte>, at: nat, bytes: seq<byte>)
    requires at + |bytes| <= |vt|
    ensures Spec.Splice(vt + back, at, bytes) == Spec.Splice(vt, at, bytes) + back
  {
  }

  lemma FrontOf(vt: seq<byte>, back: seq<byte>, n: nat)
    requires n <= |vt|
    ensures (vt + back)[0..n] == vt[..n] && vt[..|vt|] == vt
  {
  }

  lemma LocFits(locs: seq<Spec.FieldLoc>, loc: nat, size: nat, i: nat)
    requires Spec.LocsFit(locs, loc, size) && i < |locs|
    ensures locs[i].off <= loc && locs[i].id + 2 <= size
  {
  }

  /** A vtable read back from the buffer, and compared, is the same exactly if it has the same bytes. */
  lemma Compared(data: seq<byte>, v: nat, vt: seq<byte>)
    requires v <= |data| && VTableAt(data, |data| - v) && 2 <= |vt| && Decode(vt[..2]) == |vt|
    ensures 2 <= v
    ensures var size := Decode(data[|data| - v..|data| - v + 2]);
            && size <= v
            && (Spec.SameVTable(data, v, vt) <==> size == |vt| && data[|data| - v..|data| - v + size] == vt)
  {
    var at := |data| - v;
    if Spec.SameVTable(data, v, vt) {
      assert data[at..at + 2] == data[at..at + |vt|][..2];
    }
  }

  lemma {:induction false} FindShift(front: seq<byte>, data: seq<byte>, vtables: seq<nat>, vt: seq<byte>)
    requires Below(vtables, |data|)
    ensures Spec.FindVTable(front + data, vtables, vt) == Spec.FindVTable(data, vtables, vt)
  {
    if vtables != [] {
      var v := vtables[0];
      assert v in vtables;
      if |vt| <= v {
        assert (front + data)[|front + data| - v..|front + data| - v + |vt|] == data[|data| - v..|data| - v + |vt|];
      }
      BelowSlice(vtables, 1, |data|);
      FindShift(front, data, vtables[1..], vt);
    }
  }

  lemma FindNext(data: seq<byte>, vtables: seq<nat>, k: nat, vt: seq<byte>)
    requires k < |vtables|
    ensures Spec.FindVTable(data, vtables[k..], vt)
         == if Spec.SameVTable(data, vtables[k], vt) then Some(vtables[k]) else Spec.FindVTable(data, vtables[k + 1..], vt)
  {
    hide Spec.SameVTable;
    assert vtables[k..][1..] == vtables[k + 1..];
  }

  lemma FindNothing(data: seq<byte>, vtables: seq<nat>, vt: seq<byte>)
    ensures Spec.FindVTable(data, vtables[|vtables|..], vt) == None
  {
  }

  lemma FewFields(s: Spec.State)
    ensures 4 <= Spec.VTableSize(s) < 0x1_0000
  {
  }

  lemma NoLocs(vt: seq<byte>, locs: seq<Spec.FieldLoc>, loc: nat)
    requires Spec.LocsFit(locs, loc, |vt|)
    ensures Spec.WriteLocs(vt, locs, 0, loc) == vt
  {
  }

  lemma OneMoreLoc(vt: seq<byte>, locs: seq<Spec.FieldLoc>, i: nat, loc: nat)
    requires i < |locs| && Spec.LocsFit(locs, loc, |vt|)
    ensures Spec.WriteLocs(vt, locs, i + 1, loc)
         == Spec.Splice(Spec.WriteLocs(vt, locs, i, loc), locs[i].id, Encode(loc - locs[i].off, 2))
  {
    hide Encode;
  }

  lemma WordRead(xs: seq<nat>, i: nat)
    requires i < |xs| && xs[i] < Pow256(4)
    ensures Decode(Words(xs)[4 * i..4 * i + 4]) == xs[i]
  {
    hide Words, Decode, Encode;
    WordAt(xs, i);
    DecodeEncode(xs[i], 4);
  }

  /** The `i`-th field location, read back from the top of the scratch pad. */
  lemma LocRead(s: Spec.State, i: nat)
    requires i < |s.locs| && s.locs[i].off < Pow256(4) && s.locs[i].id < Pow256(2)
    ensures var at := ScratchSize(s) - 8 * (|s.locs| - i);
            var bytes := ScratchBytes(s)[at..at + 8];
            Decode(bytes[..4]) == s.locs[i].off && Decode(bytes[4..6]) == s.locs[i].id
  {
    hide Words, Decode, Encode;
    var at := ScratchSize(s) - 8 * (|s.locs| - i);
    LocAt(s.locs, i);
    assert ScratchBytes(s)[at..at + 8] == AllLocBytes(s.locs)[8 * i..8 * i + 8];
    LocDecodes(s.locs[i]);
  }

  /** Without field locations and kept offsets, the scratch pad holds the vtables alone. */
  lemma OnlyVTables(s: Spec.State)
    requires s.temps == []
    ensures ScratchBytes(s)[..ScratchSize(s) - 8 * |s.locs|] == Words(s.vtables)
  {
  }

  lemma VTableThere(front: seq<byte>, back: seq<byte>, v: nat)
    requires v <= |back| && VTableAt(back, |back| - v)
    ensures VTableAt(front + back, |front + back| - v)
  {
    ReadShift(front, back, |back| - v, 2);
    assert |front| + (|back| - v) == |front + back| - v;
  }

  // ---- The state EndTable starts from ----

  ghost predicate Ending(s: Spec.State, start: nat) {
    var loc := Spec.Align(s, 4).Size() + 4;
    && start <= s.Size() && s.temps == [] && Spec.PushElement(s, 0, 4).Size() == loc
    && Spec.LocsFit(s.locs, loc, Spec.VTableSize(s)) && loc + Spec.VTableSize(s) < Spec.MAX_SIZE
    && ScratchSize(s) + 4 < 0x1_0000_0000
  }

  lemma EndingSizes(s: Spec.State, start: nat)
    requires Ending(s, start)
    ensures s.temps == []
    ensures var p := Spec.PushElement(s, 0, 4);
            && p == s.(data := p.data, minalign := p.minalign)
            && start <= p.Size() == Spec.Align(s, 4).Size() + 4
            && p.Size() + Spec.VTableSize(s) < Spec.MAX_SIZE && Spec.LocsFit(s.locs, p.Size(), Spec.VTableSize(s))
  {
  }

  lemma SameVTableFor(s: Spec.State, t: Spec.State, loc: nat, start: nat)
    requires s.locs == t.locs && s.maxVoffset == t.maxVoffset
    requires start <= loc && Spec.LocsFit(s.locs, loc, Spec.VTableSize(s))
    ensures Spec.VTableSize(s) == Spec.VTableSize(t) && Spec.LocsFit(t.locs, loc, Spec.VTableSize(t))
    ensures Spec.VTable(s, loc, start) == Spec.VTable(t, loc, start)
  {
  }

  lemma ReadyToEnd(s: Spec.State, start: nat)
    requires Inv(s) && CanEnd(s, start)
    requires Spec.WithVTable(s, start).Size() < Spec.MAX_SIZE && ScratchSize(s) + 4 < 0x1_0000_0000
    ensures Ending(s, start) && Spec.CanEndTable(s, start)
  {
    TableShape(s, start);
    hide Inv, OpenTable, Spec.VTable;
  }

  lemma VTableSized(s: Spec.State, start: nat)
    requires Inv(s) && CanEnd(s, start) && Ending(s, start)
    ensures var vt := Spec.VTable(s, Spec.Align(s, 4).Size() + 4, start); 4 <= |vt| && Decode(vt[..2]) == |vt|
  {
    TableShape(s, start);
    hide Inv, OpenTable, Spec.VTable;
    VTableEntry(s, Spec.Align(s, 4).Size() + 4, start, 0);
  }

  lemma OldVTables(s: Spec.State)
    requires Inv(s) && Spec.PushElement(s, 0, 4).Size() <= Spec.MAX_SIZE
    ensures var p := Spec.PushElement(s, 0, 4);
            forall v :: v in s.vtables ==> v <= Spec.Align(s, 4).Size() && v <= p.Size() && VTableAt(p.data, p.Size() - v)
  {
    hide Holds, VTableAt;
    Pow256Values();
    PushElementKeeps(s, 0, 4);
  }

  /** Searching the bytes in front of which the new vtable stands, or all of them, finds the same. */
  lemma FoundBefore(s: Spec.State, start: nat)
    requires Ending(s, start) && Below(s.vtables, Spec.Align(s, 4).Size())
    ensures var p := Spec.PushElement(s, 0, 4);
            var vt := Spec.VTable(s, p.Size(), start);
            Spec.FindVTable(vt + p.data, s.vtables, vt) == Spec.FindVTable(Spec.Align(s, 4).data, s.vtables, vt)
  {
    hide Spec.VTable, Spec.VTableSize, Spec.LocsFit, Spec.FindVTable, Encode;
    var p, a := Spec.PushElement(s, 0, 4), Spec.Align(s, 4);
    var vt := Spec.VTable(s, p.Size(), start);
    AlignedAlready(s);
    assert vt + p.data == (vt + Encode(0, 4)) + a.data;
    FindShift(vt + Encode(0, 4), a.data, s.vtables, vt);
  }

  lemma AlignedAlready(s: Spec.State)
    ensures Spec.PushElement(s, 0, 4).data == Encode(0, 4) + Spec.Align(s, 4).data
    ensures Spec.PushElement(s, 0, 4).minalign == Spec.Align(s, 4).minalign
  {
  }

  /** What EndTable comes to when an equal vtable was found ... */
  lemma EndedWithOld(s: Spec.State, start: nat, v: nat)
    requires Ending(s, start) && Spec.CanEndTable(s, start) && Spec.WithVTable(s, start).Size() <= Spec.MAX_SIZE
    requires var a := Spec.Align(s, 4);
             && s.dedup && v <= a.Size()
             && Spec.FindVTable(a.data, s.vtables, Spec.VTable(s, a.Size() + 4, start)) == Some(v)
    ensures var a, t := Spec.Align(s, 4), Spec.EndTable(s, start);
            && t == s.(data := t.data, minalign := a.minalign, locs := [], maxVoffset := 0, nested := false, objs := t.objs)
            && t.data == Encode(Spec.Unsigned32(v - (a.Size() + 4)), 4) + a.data
  {
    hide Spec.VTable, Spec.VTableSize, Spec.FindVTable, Spec.LocsFit, Spec.Align, Encode;
  }

  /** ... and when not. */
  lemma EndedWithNew(s: Spec.State, start: nat)
    requires Ending(s, start) && Spec.CanEndTable(s, start) && Spec.WithVTable(s, start).Size() <= Spec.MAX_SIZE
    requires var a := Spec.Align(s, 4);
             s.dedup ==> Spec.FindVTable(a.data, s.vtables, Spec.VTable(s, a.Size() + 4, start)) == None
    ensures var a, t := Spec.Align(s, 4), Spec.EndTable(s, start);
            var vt := Spec.VTable(s, a.Size() + 4, start);
            && t == s.(data := t.data, minalign := a.minalign, locs := [], maxVoffset := 0, nested := false, objs := t.objs,
                       vtables := s.vtables + [a.Size() + 4 + |vt|])
            && t.data == vt + (Encode(Spec.Unsigned32(|vt|), 4) + a.data)
  {
    hide Spec.VTable, Spec.VTableSize, Spec.FindVTable, Spec.LocsFit, Spec.Align, Encode;
  }

  /** Writing the distance over the zero that stands in front of `back`, behind `front`. */
  lemma Linked(front: seq<byte>, back: seq<byte>, link: seq<byte>)
    requires |link| == 4
    ensures Spec.Splice(front + (Encode(0, 4) + back), |front|, link) == front + (link + back)
  {
    hide Encode;
  }

  /** The table refers to an older vtable. */
  lemma UsesOld(s: Spec.State, start: nat, v: nat)
    requires Ending(s, start) && Inv(s) && CanEnd(s, start) && s.dedup && v <= Spec.Align(s, 4).Size()
    requires Spec.FindVTable(Spec.Align(s, 4).data, s.vtables, Spec.VTable(s, Spec.Align(s, 4).Size() + 4, start)) == Some(v)
    ensures var t, p := Spec.EndTable(s, start), Spec.PushElement(s, 0, 4);
            && t == s.(data := t.data, minalign := Spec.Align(s, 4).minalign, locs := [], maxVoffset := 0, nested := false,
                       objs := t.objs)
            && t.data == Spec.Splice(p.data, 0, Encode(Spec.Unsigned32(v - (Spec.Align(s, 4).Size() + 4)), 4))
  {
    hide Inv, Ending, Spec.VTable, Spec.EndTable, Spec.PushElement, Spec.FindVTable, Spec.Align, Encode, Spec.Unsigned32;
    EndingSizes(s, start);
    AlignedAlready(s);
    EndedWithOld(s, start, v);
    Linked([], Spec.Align(s, 4).data, Encode(Spec.Unsigned32(v - (Spec.Align(s, 4).Size() + 4)), 4));
    NoFront(Encode(0, 4) + Spec.Align(s, 4).data);
    NoFront(Encode(Spec.Unsigned32(v - (Spec.Align(s, 4).Size() + 4)), 4) + Spec.Align(s, 4).data);
  }

  lemma NoFront(back: seq<byte>)
    ensures [] + back == back
  {
  }

  /** The table refers to its own vtable in front of it. */
  lemma UsesNew(s: Spec.State, start: nat)
    requires Ending(s, start) && Inv(s) && CanEnd(s, start)
    requires s.dedup ==> Spec.FindVTable(Spec.Align(s, 4).data, s.vtables,
                                         Spec.VTable(s, Spec.Align(s, 4).Size() + 4, start)) == None
    ensures var t, p, loc := Spec.EndTable(s, start), Spec.PushElement(s, 0, 4), Spec.Align(s, 4).Size() + 4;
            var vt := Spec.VTable(s, loc, start);
            && t == s.(data := t.data, minalign := Spec.Align(s, 4).minalign, locs := [], maxVoffset := 0, nested := false,
                       objs := t.objs, vtables := s.vtables + [loc + |vt|])
            && t.data == Spec.Splice(vt + p.data, |vt|, Encode(Spec.Unsigned32(|vt|), 4))
  {
    hide Inv, Ending, Spec.VTable, Spec.EndTable, Spec.PushElement, Spec.FindVTable, Spec.Align, Encode, Spec.Unsigned32;
    EndingSizes(s, start);
    AlignedAlready(s);
    EndedWithNew(s, start);
    var vt := Spec.VTable(s, Spec.Align(s, 4).Size() + 4, start);
    Linked(vt, Spec.Align(s, 4).data, Encode(Spec.Unsigned32(|vt|), 4));
  }

  lemma ScratchEnded(s: Spec.State, t: Spec.State)
    requires s.temps == [] && t.temps == s.temps && t.locs == []
    ensures t.vtables == s.vtables ==> ScratchBytes(t) == Words(s.vtables)
    ensures t.vtables != [] && t.vtables == s.vtables + [t.vtables[|t.vtables| - 1]] ==>
              ScratchBytes(t) == Words(s.vtables) + Encode(t.vtables[|t.vtables| - 1], 4)
  {
    if t.vtables != [] && t.vtables == s.vtables + [t.vtables[|t.vtables| - 1]] {
      WordsPush(s.vtables, t.vtables[|t.vtables| - 1]);
    }
  }
}
