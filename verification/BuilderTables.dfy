/** Tables: the vtable EndTable writes, or shares, makes every field set since StartTable readable. */
module BuilderTables {
  import opened Wrappers
  import opened Bytes
  import opened Wire
  import opened Layout
  import opened BuilderSpec
  import opened BuilderInv

  lemma StartTableKeeps(s: State)
    requires Inv(s) && s.NotNested()
    ensures Inv(StartTable(s))
  {
  }

  /** What a field write demands: an open table and a slot not yet used. */
  ghost predicate CanAdd(s: State, field: nat) {
    && s.nested && !s.finished
    && IsSlot(field) && field <= MAX_SLOT && !HasLoc(s.locs, field)
  }

  lemma TrackKeeps(s: State, field: nat, v: FieldVal)
    requires Inv(s) && CanAdd(s, field)
    requires ValueAt(s.data, 0, v, s.minalign) && (v.Ref? ==> v.target in s.objs)
    ensures Inv(TrackField(s, field).(pending := s.pending[field := v]))
  {
    hide OpenTable, Holds;
    TrackOpen(s, field, v);
  }

  lemma TrackOpen(s: State, field: nat, v: FieldVal)
    requires OpenTable(s) && CanAdd(s, field)
    requires ValueAt(s.data, 0, v, s.minalign) && (v.Ref? ==> v.target in s.objs)
    ensures OpenTable(TrackField(s, field).(pending := s.pending[field := v]))
  {
    hide ValueAt;
    var t := TrackField(s, field).(pending := s.pending[field := v]);
    forall i | 0 <= i < |t.locs|
      ensures LocOk(t, t.locs[i])
    {
      if i < |s.locs| {
        assert LocOk(s, s.locs[i]);
        assert HasLoc(s.locs, s.locs[i].id);
      }
    }
    forall f | f in t.pending
      ensures HasLoc(t.locs, f)
    {
      if f == field {
        assert t.locs[|s.locs|].id == field;
      } else {
        var i :| 0 <= i < |s.locs| && s.locs[i].id == f;
        assert t.locs[i].id == f;
      }
    }
  }

  /** The field reads as the value given, whether it was stored or elided as the default. */
  predicate Reads(fields: map<nat, FieldVal>, field: nat, w: nat, e: nat, default: nat) {
    if field in fields then fields[field] == Scalar(w, e) else e == default
  }

  lemma AddElementKeeps(s: State, field: nat, w: nat, e: nat, default: nat)
    requires Inv(s) && CanAdd(s, field) && IsWidth(w) && e < Pow256(w)
    requires AddElement(s, field, w, e, default).Size() <= MAX_SIZE
    ensures Inv(AddElement(s, field, w, e, default))
    ensures Reads(AddElement(s, field, w, e, default).pending, field, w, e, default)
    ensures field in AddElement(s, field, w, e, default).pending <==> e != default || s.forceDefaults
    ensures AddElement(s, field, w, e, default).pending - {field} == s.pending - {field}
  {
    hide Inv, PushElement, ValueAt;
    NotYetSet(s, field);
    if e != default || s.forceDefaults {
      PushElementKeeps(s, e, w);
      var t := PushElement(s, e, w);
      TrackKeeps(t, field, Scalar(w, e));
    }
  }

  lemma NotYetSet(s: State, field: nat)
    requires Inv(s) && CanAdd(s, field)
    ensures field !in s.pending
  {
  }

  lemma AddOffsetKeeps(s: State, field: nat, off: nat)
    requires Inv(s) && CanAdd(s, field) && off <= s.Size() && (off == 0 || off in s.objs)
    requires AddOffset(s, field, off).Size() <= MAX_SIZE
    ensures Inv(AddOffset(s, field, off))
    ensures AddOffset(s, field, off).pending == if off == 0 then s.pending else s.pending[field := Ref(off)]
  {
    hide Inv, Align, PushElement, ValueAt;
    if off != 0 {
      PushOffsetKeeps(s, off);
      var t := PushOffset(s, off);
      TrackKeeps(t, field, Ref(off));
    }
  }

  // ---- The vtable ----

  lemma SpliceEntry(s: seq<byte>, at: nat, bytes: seq<byte>, f: nat)
    requires |bytes| == 2 && at + 2 <= |s| && f + 2 <= |s| && at % 2 == f % 2 == 0
    ensures Splice(s, at, bytes)[f..f + 2] == if f == at then bytes else s[f..f + 2]
  {
    var r := Splice(s, at, bytes);
    if f < at {
      assert r[f..f + 2] == s[..at][f..f + 2] == s[f..f + 2];
    } else if f > at {
      assert r[f..f + 2] == s[at + 2..][f - at - 2..f - at] == s[f..f + 2];
    }
  }

  /** The entries of slots that no field claims stay as they were. */
  lemma {:induction false} UntouchedEntry(vt: seq<byte>, locs: seq<FieldLoc>, k: nat, loc: nat, f: nat)
    requires k <= |locs| && LocsFit(locs, loc, |vt|) && f % 2 == 0 && f + 2 <= |vt|
    requires forall i :: 0 <= i < k ==> locs[i].id != f && locs[i].id % 2 == 0
    ensures WriteLocs(vt, locs, k, loc)[f..f + 2] == vt[f..f + 2]
  {
    if k > 0 {
      UntouchedEntry(vt, locs, k - 1, loc, f);
      SpliceEntry(WriteLocs(vt, locs, k - 1, loc), locs[k - 1].id, Encode(loc - locs[k - 1].off, 2), f);
    }
  }

  /** The entry of the `i`-th field set is its distance from the start of the table. */
  lemma {:induction false} FieldEntry(vt: seq<byte>, locs: seq<FieldLoc>, k: nat, loc: nat, i: nat)
    requires i < k <= |locs| && LocsFit(locs, loc, |vt|) && locs[i].id % 2 == 0
    requires forall j :: i < j < |locs| ==> locs[i].id != locs[j].id && locs[j].id % 2 == 0
    ensures WriteLocs(vt, locs, k, loc)[locs[i].id..locs[i].id + 2] == Encode(loc - locs[i].off, 2)
  {
    if i < k - 1 {
      FieldEntry(vt, locs, k - 1, loc, i);
    }
    SpliceEntry(WriteLocs(vt, locs, k - 1, loc), locs[k - 1].id, Encode(loc - locs[k - 1].off, 2), locs[i].id);
  }

  function Entry(vt: seq<byte>, f: nat): nat
    requires f + 2 <= |vt|
  {
    Decode(vt[f..f + 2])
  }

  lemma FieldEntryValue(vt: seq<byte>, locs: seq<FieldLoc>, loc: nat, i: nat)
    requires i < |locs| && LocsFit(locs, loc, |vt|) && loc - locs[i].off < 0x1_0000
    requires forall j :: 0 <= j < |locs| ==> locs[j].id % 2 == 0
    requires forall j, k :: 0 <= j < k < |locs| ==> locs[j].id != locs[k].id
    ensures Entry(WriteLocs(vt, locs, |locs|, loc), locs[i].id) == loc - locs[i].off
  {
    hide WriteLocs, Encode, Decode;
    FieldEntry(vt, locs, |locs|, loc, i);
    Pow256Values();
    DecodeEncode(loc - locs[i].off, 2);
  }

  lemma BlankEntry(size: nat, tableSize: nat, f: nat)
    requires 4 <= size < 0x1_0000 && f % 2 == 0 && f + 2 <= size
    ensures f == 0 ==> Entry(BlankVTable(size, tableSize), f) == size
    ensures f >= 4 ==> Entry(BlankVTable(size, tableSize), f) == 0
  {
    Pow256Values();
    DecodeEncode(size, 2);
    var blank := BlankVTable(size, tableSize);
    if f == 0 {
      assert blank[0..2] == Encode(size, 2);
    } else if f >= 4 {
      assert blank[f..f + 2] == Zeros(2) == Encode(0, 2);
      DecodeEncode(0, 2);
    }
  }

  lemma OpenLoc(s: State, loc: nat, l: FieldLoc)
    requires OpenTable(s) && LocOk(s, l) && s.Size() <= loc && loc - s.start < 0x1_0000
    ensures l.off <= loc && l.id + 2 <= VTableSize(s) && l.id % 2 == 0 && loc - l.off < 0x1_0000
    ensures l.id in s.pending && l.id >= 4
  {
    hide ValueAt;
  }

  lemma SizeOfOpen(s: State)
    requires OpenTable(s)
    ensures VTableSize(s) < 0x1_0000 && VTableSize(s) % 2 == 0
  {
    hide LocOk;
  }

  /** The slots of an open table's fields. */
  lemma OpenLocs(s: State, loc: nat)
    requires OpenTable(s) && s.Size() <= loc && loc - s.start < 0x1_0000
    ensures LocsFit(s.locs, loc, VTableSize(s)) && VTableSize(s) < 0x1_0000 && VTableSize(s) % 2 == 0
    ensures forall i :: 0 <= i < |s.locs| ==> s.locs[i].id % 2 == 0 && 0 <= loc - s.locs[i].off < 0x1_0000
    ensures forall i, j :: 0 <= i < j < |s.locs| ==> s.locs[i].id != s.locs[j].id
    ensures forall f :: f in s.pending ==> HasLoc(s.locs, f)
    ensures forall i :: 0 <= i < |s.locs| ==> s.locs[i].id in s.pending && s.locs[i].id >= 4
  {
    hide LocOk, VTableSize;
    SizeOfOpen(s);
    forall i | 0 <= i < |s.locs|
      ensures s.locs[i].off <= loc && s.locs[i].id + 2 <= VTableSize(s) && s.locs[i].id % 2 == 0
      ensures loc - s.locs[i].off < 0x1_0000 && s.locs[i].id in s.pending && s.locs[i].id >= 4
    {
      OpenLoc(s, loc, s.locs[i]);
    }
  }

  /** The vtable's own size, and zero for every absent field. */
  lemma VTableEntry(s: State, loc: nat, start: nat, f: nat)
    requires OpenTable(s) && start <= loc && s.Size() <= loc && loc - s.start < 0x1_0000
    requires f % 2 == 0 && f + 2 <= VTableSize(s)
    ensures LocsFit(s.locs, loc, VTableSize(s))
    ensures f == 0 ==> Entry(VTable(s, loc, start), f) == VTableSize(s)
    ensures f >= 4 && !HasLoc(s.locs, f) ==> Entry(VTable(s, loc, start), f) == 0
  {
    OpenLocs(s, loc);
    hide OpenTable;
    if !HasLoc(s.locs, f) {
      BlankEntry(VTableSize(s), loc - start, f);
      UntouchedEntry(BlankVTable(VTableSize(s), loc - start), s.locs, |s.locs|, loc, f);
    }
  }

  /** For every field set, its distance from the start of the table. */
  lemma VTableField(s: State, loc: nat, start: nat, i: nat)
    requires OpenTable(s) && start <= loc && s.Size() <= loc && loc - s.start < 0x1_0000 && i < |s.locs|
    ensures LocsFit(s.locs, loc, VTableSize(s))
    ensures Entry(VTable(s, loc, start), s.locs[i].id) == loc - s.locs[i].off
  {
    OpenLocs(s, loc);
    hide OpenTable, WriteLocs, BlankVTable, Entry;
    FieldEntryValue(BlankVTable(VTableSize(s), loc - start), s.locs, loc, i);
  }

  // ---- Reading through the vtable ----

  /** The bytes `vt` are at `at`, so its entries can be read there. */
  lemma EntryRead(buf: seq<byte>, at: int, vt: seq<byte>, f: nat)
    requires ReadBytes(buf, at, |vt|) == Some(vt) && f + 2 <= |vt|
    ensures ReadScalar(buf, at + f, 2) == Some(Entry(vt, f))
  {
    var whole := buf[at..at + |vt|];
    assert whole[f] == buf[at + f] && whole[f + 1] == buf[at + f + 1];
    assert buf[at + f..at + f + 2] == whole[f..f + 2];
  }

  /** A table at `pos` that leads to the vtable of the open table `s`, with its fields still in place. */
  ghost predicate LeadsToVTable(s: State, buf: seq<byte>, pos: int, at: int, loc: nat, start: nat) {
    && OpenTable(s) && start <= loc && s.Size() <= loc && loc - s.start < 0x1_0000
    && LocsFit(s.locs, loc, VTableSize(s))
    && pos == |buf| - loc && GetVTable(buf, pos) == Some(at)
    && (|buf| - at) % 2 == 0 && Apart(pos, at)
    && ReadBytes(buf, at, VTableSize(s)) == Some(VTable(s, loc, start))
  }

  ghost predicate FieldsInPlace(s: State, buf: seq<byte>, minalign: nat) {
    forall i :: 0 <= i < |s.locs| ==>
      && s.locs[i].id in s.pending
      && ValueAt(buf, |buf| - s.locs[i].off, s.pending[s.locs[i].id], minalign)
  }

  lemma VTableSound(s: State, buf: seq<byte>, pos: int, at: int, loc: nat, start: nat)
    requires LeadsToVTable(s, buf, pos, at, loc, start)
    ensures VTableAt(buf, at) && ReadScalar(buf, at, 2) == Some(VTableSize(s))
    ensures GetVTable(buf, pos) == Some(at) && pos == |buf| - loc && Apart(pos, at)
  {
    VTableEntry(s, loc, start, 0);
    OpenLocs(s, loc);
    hide OpenTable;
    EntryRead(buf, at, VTable(s, loc, start), 0);
  }

  /** A vtable entry, once read, is what the field accessor returns. */
  lemma EntryIsField(buf: seq<byte>, pos: int, at: int, size: nat, f: nat, e: nat, fields: map<nat, FieldVal>, minalign: nat)
    requires GetVTable(buf, pos) == Some(at) && ReadScalar(buf, at, 2) == Some(size)
    requires f < size ==> ReadScalar(buf, at + f, 2) == Some(e)
    requires if f in fields then f < size && e != 0 && ValueAt(buf, pos + e, fields[f], minalign) else f < size ==> e == 0
    ensures FieldAt(buf, pos, fields, f, minalign)
  {
    hide ValueAt, ReadScalar, GetVTable;
  }

  lemma PresentEntry(s: State, buf: seq<byte>, pos: int, at: int, loc: nat, start: nat, i: nat)
    requires LeadsToVTable(s, buf, pos, at, loc, start) && i < |s.locs|
    ensures s.locs[i].id < VTableSize(s) && s.locs[i].off <= s.Size()
    ensures ReadScalar(buf, at + s.locs[i].id, 2) == Some(loc - s.locs[i].off)
  {
    hide OpenTable, VTable, VTableAt, Entry, ReadScalar, ReadBytes, GetVTable, VTableSize;
    VTableField(s, loc, start, i);
    OffBeforeTable(s, i);
    EntryRead(buf, at, VTable(s, loc, start), s.locs[i].id);
  }

  lemma PresentField(s: State, buf: seq<byte>, pos: int, at: int, loc: nat, start: nat, minalign: nat, i: nat)
    requires LeadsToVTable(s, buf, pos, at, loc, start) && FieldsInPlace(s, buf, minalign)
    requires i < |s.locs| && s.Size() < loc
    ensures FieldAt(buf, pos, s.pending, s.locs[i].id, minalign)
  {
    hide *;
    var l := s.locs[i];
    VTableSound(s, buf, pos, at, loc, start);
    PresentEntry(s, buf, pos, at, loc, start, i);
    InPlace(s, buf, minalign, i);
    assert pos + (loc - l.off) == |buf| - l.off;
    EntryIsField(buf, pos, at, VTableSize(s), l.id, loc - l.off, s.pending, minalign);
  }

  lemma InPlace(s: State, buf: seq<byte>, minalign: nat, i: nat)
    requires FieldsInPlace(s, buf, minalign) && i < |s.locs|
    ensures s.locs[i].id in s.pending
    ensures ValueAt(buf, |buf| - s.locs[i].off, s.pending[s.locs[i].id], minalign)
  {
    hide ValueAt;
  }

  lemma AbsentField(s: State, buf: seq<byte>, pos: int, at: int, loc: nat, start: nat, minalign: nat, f: nat)
    requires LeadsToVTable(s, buf, pos, at, loc, start)
    requires IsSlot(f) && !HasLoc(s.locs, f)
    ensures FieldAt(buf, pos, s.pending, f, minalign)
  {
    VTableSound(s, buf, pos, at, loc, start);
    OpenLocs(s, loc);
    hide OpenTable, ValueAt, VTable, VTableAt, Entry, FieldAt, ReadScalar, ReadBytes, GetVTable;
    if f < VTableSize(s) {
      VTableEntry(s, loc, start, f);
      EntryRead(buf, at, VTable(s, loc, start), f);
    }
    EntryIsField(buf, pos, at, VTableSize(s), f, 0, s.pending, minalign);
  }

  lemma OffBeforeTable(s: State, i: nat)
    requires OpenTable(s) && i < |s.locs|
    ensures s.locs[i].off <= s.Size()
  {
    assert LocOk(s, s.locs[i]);
  }

  lemma TableReads(s: State, buf: seq<byte>, pos: int, at: int, loc: nat, start: nat, minalign: nat)
    requires LeadsToVTable(s, buf, pos, at, loc, start) && FieldsInPlace(s, buf, minalign)
    requires s.Size() < loc
    ensures TableAt(buf, pos, s.pending, minalign)
  {
    hide FieldAt;
    VTableSound(s, buf, pos, at, loc, start);
    OpenLocs(s, loc);
    forall f: nat | IsSlot(f)
      ensures FieldAt(buf, pos, s.pending, f, minalign)
    {
      if i :| 0 <= i < |s.locs| && s.locs[i].id == f {
        PresentField(s, buf, pos, at, loc, start, minalign, i);
      } else {
        AbsentField(s, buf, pos, at, loc, start, minalign, f);
      }
    }
    forall f | f in s.pending
      ensures IsSlot(f)
    {
      var i :| 0 <= i < |s.locs| && s.locs[i].id == f;
    }
  }

  // ---- EndTable ----

  /** A table may be ended: started at `start`, and its distances fit 16 bits. */
  predicate CanEnd(s: State, start: nat) {
    && CanEndTable(s, start) && !s.finished && s.temps == [] && start == s.start
    && PushElement(s, 0, 4).Size() - start < 0x1_0000
    && WithVTable(s, start).Size() <= MAX_SIZE
  }

  lemma PendingRefs(s: State, loc: nat)
    requires Inv(s) && s.nested && s.Size() < loc
    ensures Refs(Tbl(s.pending), s.objs, loc)
  {
    hide Holds, ValueAt;
    forall f | f in s.pending
      ensures FieldRefs(s.pending[f], s.objs, loc)
    {
      var i :| 0 <= i < |s.locs| && s.locs[i].id == f;
      assert LocOk(s, s.locs[i]);
      if s.pending[f].Ref? { ObjBound(s, s.pending[f].target); }
    }
  }

  lemma ObjBound(s: State, o: nat)
    requires Inv(s) && o in s.objs
    ensures 4 <= o <= s.Size()
  {
    assert ObjAt(s.data, s.Size() - o, s.objs[o], s.minalign);
  }

  lemma StillInPlace(s: State, b: State)
    requires Inv(b) && b.nested && b.locs == s.locs && b.pending == s.pending
    ensures FieldsInPlace(s, b.data, b.minalign)
  {
    hide ValueAt, Holds;
    forall i | 0 <= i < |s.locs|
      ensures s.locs[i].id in s.pending && ValueAt(b.data, |b.data| - s.locs[i].off, s.pending[s.locs[i].id], b.minalign)
    {
      assert LocOk(b, b.locs[i]);
    }
  }

  predicate TableHead(b: State, loc: nat) {
    4 <= loc <= b.Size() && loc % 4 == 0
  }

  lemma ClosedInv(b: State, t: State, v: nat)
    requires Inv(b) && t == b.(locs := [], maxVoffset := 0, nested := false, vtables := t.vtables)
    requires v <= b.Size() && VTableAt(b.data, b.Size() - v)
    requires forall u :: u in t.vtables ==> u in b.vtables || u == v
    ensures Inv(t)
  {
    hide Holds, VTableAt, OpenTable;
  }

  lemma VTableInside(buf: seq<byte>, at: int)
    requires VTableAt(buf, at)
    ensures at <= |buf|
  {
  }

  lemma TableObj(buf: seq<byte>, pos: nat, fields: map<nat, FieldVal>, minalign: nat)
    requires TableAt(buf, pos, fields, minalign) && pos + 4 <= |buf| && (|buf| - pos) % 4 == 0
    ensures ObjAt(buf, pos, Tbl(fields), minalign)
  {
    hide TableAt;
  }

  /** With the vtable reference in place, closing the table records it. */
  lemma CloseKeeps(s: State, b: State, at: int, loc: nat, vtables: seq<nat>)
    requires Inv(s) && s.nested && Inv(b) && s.Size() < loc
    requires Grew(s, b, 4) && TableHead(b, loc)
    requires LeadsToVTable(s, b.data, b.Size() - loc, at, loc, s.start) && at >= 0
    requires forall v :: v in vtables ==> v in s.vtables || v == b.Size() - at
    ensures Inv(CloseTable(s, b.(vtables := vtables), loc)) && loc !in s.objs
  {
    hide Inv, OpenTable, LeadsToVTable, Holds, TableAt, VTableAt, Refs, FieldsInPlace, ObjAt;
    StillInPlace(s, b);
    PendingRefs(s, loc);
    TableReads(s, b.data, b.Size() - loc, at, loc, s.start, b.minalign);
    VTableSound(s, b.data, b.Size() - loc, at, loc, s.start);
    var t := b.(locs := [], maxVoffset := 0, nested := false, vtables := vtables);
    VTableInside(b.data, at);
    ClosedInv(b, t, b.Size() - at);
    TableObj(b.data, b.Size() - loc, s.pending, b.minalign);
    RecordKeeps(s, t, loc, Tbl(s.pending));
  }

  /** Where the closed table starts, and the vtable it needs. */
  lemma TableShape(s: State, start: nat)
    requires Inv(s) && CanEnd(s, start)
    ensures OpenTable(s) && LocsFit(s.locs, Align(s, 4).Size() + 4, VTableSize(s))
    ensures PushElement(s, 0, 4).Size() == Align(s, 4).Size() + 4 && Align(s, 4).Size() % 4 == 0
    ensures 4 <= VTableSize(s) < 0x1_0000 && VTableSize(s) % 2 == 0
    ensures s.start <= s.Size() && Align(s, 4).Size() + 4 + VTableSize(s) <= MAX_SIZE
    ensures Inv(Align(s, 4))
  {
    AlignKeeps(s, 4);
    hide Holds;
    OpenLocs(s, Align(s, 4).Size() + 4);
  }

  /** The signed distance from a table at `loc` back to its vtable at `v` reads back as it was written. */
  lemma BackToVTable(buf: seq<byte>, pos: int, loc: nat, v: nat)
    requires pos == |buf| - loc && loc <= MAX_SIZE && v <= MAX_SIZE
    requires ReadScalar(buf, pos, 4) == Some(Unsigned32(v - loc))
    ensures GetVTable(buf, pos) == Some(|buf| - v)
  {
  }

  lemma NewVTableLeads(s: State, start: nat, a: seq<byte>, loc: nat, vt: seq<byte>)
    requires OpenTable(s) && start <= s.Size() && s.Size() <= |a| && loc == |a| + 4 && loc % 4 == 0
    requires loc - s.start < 0x1_0000 && loc + |vt| <= MAX_SIZE
    requires LocsFit(s.locs, loc, VTableSize(s)) && vt == VTable(s, loc, start) && |vt| % 2 == 0
    requires |vt| == VTableSize(s) >= 4
    ensures LeadsToVTable(s, vt + (Encode(Unsigned32(|vt|), 4) + a), |vt|, 0, loc, start)
  {
    hide OpenTable, VTable, VTableSize, Decode, Encode;
    Pow256Values();
    var ref := Encode(Unsigned32(|vt|), 4);
    DecodeEncode(Unsigned32(|vt|), 4);
    ReadFront(ref, a);
    ReadShift(vt, ref + a, 0, 4);
    ReadFront(vt, ref + a);
    AlignedSum(|vt|, loc, 2);
    AlignedDown(loc, 4, 2);
    var buf := vt + (ref + a);
    assert |buf| == |vt| + loc;
    BackToVTable(buf, |vt|, loc, loc + |vt|);
  }

  lemma OldVTableLeads(s: State, start: nat, a: seq<byte>, loc: nat, v: nat)
    requires OpenTable(s) && start <= s.Size() && s.Size() <= |a| && loc == |a| + 4 && loc % 4 == 0
    requires loc - s.start < 0x1_0000 && loc <= MAX_SIZE && v % 2 == 0
    requires LocsFit(s.locs, loc, VTableSize(s)) && SameVTable(a, v, VTable(s, loc, start))
    ensures LeadsToVTable(s, Encode(Unsigned32(v - loc), 4) + a, 0, loc - v, loc, start)
  {
    hide OpenTable, VTable, VTableSize, Decode, Encode;
    Pow256Values();
    var ref := Encode(Unsigned32(v - loc), 4);
    DecodeEncode(Unsigned32(v - loc), 4);
    ReadFront(ref, a);
    BackToVTable(ref + a, 0, loc, v);
    ReadShift(ref, a, |a| - v, |VTable(s, loc, start)|);
  }

  lemma EndTableKeeps(s: State, start: nat)
    requires Inv(s) && CanEnd(s, start)
    ensures Inv(EndTable(s, start))
    ensures var loc := Align(s, 4).Size() + 4;
            loc !in s.objs && EndTable(s, start).objs == s.objs[loc := Tbl(s.pending)]
  {
    hide Inv, OpenTable, LocsFit, VTable, SameVTable, Align, PushElement, WithVTable;
    TableShape(s, start);
    var a := Align(s, 4);
    var loc := a.Size() + 4;
    var vt := VTable(s, loc, start);
    var found := if s.dedup then FindVTable(a.data, s.vtables, vt) else None;
    if found.Some? {
      EndWithOldVTable(s, start, a, loc, found.value);
    } else {
      EndWithNewVTable(s, start, a, loc);
    }
  }

  lemma EndWithOldVTable(s: State, start: nat, a: State, loc: nat, v: nat)
    requires Inv(s) && s.nested && start == s.start <= s.Size() && LocsFit(s.locs, loc, VTableSize(s))
    requires Inv(a) && Grew(s, a, 0) && loc == a.Size() + 4 && loc % 4 == 0
    requires loc - s.start < 0x1_0000 && loc <= MAX_SIZE
    requires v in s.vtables && SameVTable(a.data, v, VTable(s, loc, start))
    ensures v <= MAX_SIZE && Inv(UseVTable(s, a, loc, v)) && loc !in s.objs
  {
    hide Holds, OpenTable, LeadsToVTable, VTable, VTableSize;
    var ref := Encode(Unsigned32(v - loc), 4);
    OldVTableLeads(s, start, a.data, loc, v);
    PushKeeps(a, ref, a.minalign);
    hide Inv;
    CloseKeeps(s, Push(a, ref), loc - v, loc, s.vtables);
  }

  lemma EndWithNewVTable(s: State, start: nat, a: State, loc: nat)
    requires Inv(s) && s.nested && start == s.start <= s.Size() && LocsFit(s.locs, loc, VTableSize(s))
    requires Inv(a) && Grew(s, a, 0) && loc == a.Size() + 4 && loc % 4 == 0
    requires loc - s.start < 0x1_0000 && loc + VTableSize(s) <= MAX_SIZE && 4 <= VTableSize(s) && VTableSize(s) % 2 == 0
    ensures Inv(AppendVTable(s, a, loc, VTable(s, loc, start))) && loc !in s.objs
  {
    hide Holds, OpenTable, LeadsToVTable, VTable, VTableSize, Encode, Unsigned32, VTableAt;
    var vt := VTable(s, loc, start);
    var ref := Encode(Unsigned32(|vt|), 4);
    NewVTableLeads(s, start, a.data, loc, vt);
    PushKeeps(a, ref, a.minalign);
    PushKeeps(Push(a, ref), vt, a.minalign);
    hide Inv;
    CloseKeeps(s, Push(Push(a, ref), vt), 0, loc, s.vtables + [loc + |vt|]);
  }

  /** With sharing on, a table takes a vtable recorded before if there is one with the same bytes, and writes
      no other; otherwise it writes and records its own. */
  lemma EndTableShares(s: State, start: nat)
    requires Inv(s) && CanEnd(s, start)
    ensures var a, loc := Align(s, 4), Align(s, 4).Size() + 4;
            LocsFit(s.locs, loc, VTableSize(s)) && start <= loc &&
            var vt := VTable(s, loc, start);
            if s.dedup && exists v :: v in s.vtables && SameVTable(a.data, v, vt) then
              EndTable(s, start).vtables == s.vtables && EndTable(s, start).Size() == loc
            else
              EndTable(s, start).vtables == s.vtables + [loc + |vt|] && EndTable(s, start).Size() == loc + |vt|
  {
    hide Inv, OpenTable, LocsFit, VTable, SameVTable, PushElement;
    TableShape(s, start);
  }
}
