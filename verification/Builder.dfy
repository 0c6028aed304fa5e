/** `FlatBufferBuilder`: the calls as they update the vector, its scratch pad and the builder's fields,
    each proved to be the step of BuilderSpec of the same name. */
module Builder {
  import opened Wrappers
  import opened BuilderInv
  import opened BuilderMemory
  import opened BuilderTables
  import opened Bytes
  import opened VectorDownward
  import opened Layout
  import Spec = BuilderSpec

  const MAX_SIZE := Spec.MAX_SIZE

  class FlatBufferBuilder {
    const vec: Vector
    var numFieldLoc: nat
    var maxVoffset: nat
    var nested: bool
    var finished: bool
    var minalign: nat
    var forceDefaults: bool
    var dedupVtables: bool
    var stringPool: map<seq<byte>, nat>
    ghost var st: Spec.State

    ghost predicate Valid()
      reads this, vec, vec.buf
    {
      && vec.Valid() && vec.maxSize == MAX_SIZE
      && vec.Data() == st.data && vec.Scratch() == ScratchBytes(st)
      && numFieldLoc == |st.locs| && maxVoffset == st.maxVoffset
      && nested == st.nested && finished == st.finished && minalign == st.minalign
      && forceDefaults == st.forceDefaults && dedupVtables == st.dedup && stringPool == st.pool
    }

    constructor (initialSize: nat, bufferMinalign: nat)
      requires IsWidth(bufferMinalign)
      ensures Valid() && fresh(vec) && vec.buf == null && st == Spec.Init(false, true)
    {
      vec := new Vector(initialSize, bufferMinalign, MAX_SIZE);
      numFieldLoc, maxVoffset, nested, finished, minalign := 0, 0, false, false, 1;
      forceDefaults, dedupVtables, stringPool := false, true, map[];
      st := Spec.Init(false, true);
    }

    method ClearOffsets()
      requires vec.Valid() && 8 * numFieldLoc <= vec.scratch
      modifies this`numFieldLoc, this`maxVoffset, vec`scratch
      ensures vec.Valid() && vec.Data() == old(vec.Data()) && numFieldLoc == maxVoffset == 0
      ensures vec.Scratch() == old(vec.Scratch())[..old(vec.scratch) - 8 * old(numFieldLoc)]
    {
      vec.ScratchPop(8 * numFieldLoc);
      numFieldLoc := 0;
      maxVoffset := 0;
    }

    /** Afterwards the builder is as new, but for the memory it keeps. */
    method Clear()
      requires Valid()
      modifies this, vec
      ensures Valid() && vec.buf == old(vec.buf) && st == Spec.Init(forceDefaults, dedupVtables)
      ensures forceDefaults == old(forceDefaults) && dedupVtables == old(dedupVtables)
    {
      hide ScratchBytes, ScratchSize, vec.Valid, vec.Data, vec.Scratch;
      HoldsLocs(st);
      ClearOffsets();
      vec.Clear();
      nested, finished, minalign, stringPool := false, false, 1, map[];
      st := Spec.Init(forceDefaults, dedupVtables);
      EmptyScratch(st);
    }

    method TrackMinAlign(w: nat)
      requires Valid()
      modifies this
      ensures Valid() && st == old(st).(minalign := Spec.Max(old(st).minalign, w))
    {
      if w > minalign { minalign := w; }
      st := st.(minalign := Spec.Max(st.minalign, w));
    }

    method Fill(n: nat)
      requires Valid() && st.Size() + n <= MAX_SIZE
      modifies this, vec, vec.buf
      ensures Valid() && (vec.buf == old(vec.buf) || fresh(vec.buf))
      ensures st == Spec.Push(old(st), Zeros(n))
    {
      vec.Fill(n);
      st := Spec.Push(st, Zeros(n));
    }

    method PushBytes(bytes: seq<byte>)
      requires Valid() && st.Size() + |bytes| <= MAX_SIZE
      modifies this, vec, vec.buf
      ensures Valid() && (vec.buf == old(vec.buf) || fresh(vec.buf))
      ensures st == Spec.Push(old(st), bytes)
    {
      vec.Push(bytes);
      st := Spec.Push(st, bytes);
    }

    method Align(w: nat)
      requires Valid() && IsWidth(w) && Spec.Align(st, w).Size() <= MAX_SIZE
      modifies this, vec, vec.buf
      ensures Valid() && (vec.buf == old(vec.buf) || fresh(vec.buf))
      ensures st == Spec.Align(old(st), w)
    {
      TrackMinAlign(w);
      Fill(PaddingBytes(vec.size, w));
    }

    method PreAlign(len: nat, w: nat)
      requires Valid() && IsWidth(w) && Spec.PreAlign(st, len, w).Size() <= MAX_SIZE
      modifies this, vec, vec.buf
      ensures Valid() && (vec.buf == old(vec.buf) || fresh(vec.buf))
      ensures st == Spec.PreAlign(old(st), len, w)
    {
      if len == 0 { return; }
      TrackMinAlign(w);
      Fill(PaddingBytes(vec.size + len, w));
    }

    method PushElement(n: nat, w: nat) returns (off: nat)
      requires Valid() && IsWidth(w) && Spec.PushElement(st, n, w).Size() <= MAX_SIZE
      modifies this, vec, vec.buf
      ensures Valid() && (vec.buf == old(vec.buf) || fresh(vec.buf))
      ensures st == Spec.PushElement(old(st), n, w) && off == st.Size()
      ensures |vec.Data()| >= w && forall i :: 0 <= i < w ==> vec.Data()[i] == n / Pow256(i) % 256
    {
      ElementBytes(st, n, w);
      Align(w);
      PushBytes(Encode(n, w));
      off := vec.size;
    }

    // ---- Tables ----

    method StartTable() returns (start: nat)
      requires Valid() && st.NotNested()
      modifies this
      ensures Valid() && st == Spec.StartTable(old(st)) && start == st.start
    {
      nested := true;
      start := vec.size;
      st := Spec.StartTable(st);
    }

    method TrackField(field: nat, off: nat)
      requires Valid() && off == st.Size() < MAX_SIZE && ScratchSize(st) + 8 < SIZE_T32
      modifies this, vec, vec.buf
      ensures Valid() && (vec.buf == old(vec.buf) || fresh(vec.buf))
      ensures st == Spec.TrackField(old(st), field)
    {
      hide ScratchBytes, LocBytes;
      ScratchTrack(st, field);
      vec.ScratchPush(LocBytes(Spec.FieldLoc(off, field)));
      numFieldLoc := numFieldLoc + 1;
      if field > maxVoffset { maxVoffset := field; }
      st := Spec.TrackField(st, field);
    }

    method AddElement(field: nat, w: nat, e: nat, default: nat)
      requires Valid() && IsWidth(w) && st.nested
      requires Spec.AddElement(st, field, w, e, default).Size() < MAX_SIZE && ScratchSize(st) + 8 < SIZE_T32
      modifies this, vec, vec.buf
      ensures Valid() && (vec.buf == old(vec.buf) || fresh(vec.buf))
      ensures st == Spec.AddElement(old(st), field, w, e, default)
      ensures e == default && !forceDefaults ==> vec.Data() == old(vec.Data())
      ensures e != default || forceDefaults ==>
                |vec.Data()| >= w && forall i :: 0 <= i < w ==> vec.Data()[i] == e / Pow256(i) % 256
    {
      hide ScratchBytes, Spec.PushElement;
      if e == default && !forceDefaults { return; }
      var off := PushElement(e, w);
      TrackField(field, off);
      SameScratch(st, st.(pending := old(st).pending[field := Scalar(w, e)]));
      st := st.(pending := old(st).pending[field := Scalar(w, e)]);
    }

    method ReferTo(off: nat) returns (distance: nat)
      requires Valid() && 0 < off <= st.Size() && Spec.Align(st, 4).Size() <= MAX_SIZE
      modifies this, vec, vec.buf
      ensures Valid() && (vec.buf == old(vec.buf) || fresh(vec.buf))
      ensures st == Spec.Align(old(st), 4) && distance == Spec.ReferTo(old(st), off)
    {
      Align(4);
      distance := vec.size - off + 4;
    }

    method AddOffset(field: nat, off: nat)
      requires Valid() && off <= st.Size() && st.nested
      requires Spec.AddOffset(st, field, off).Size() < MAX_SIZE && ScratchSize(st) + 8 < SIZE_T32
      modifies this, vec, vec.buf
      ensures Valid() && (vec.buf == old(vec.buf) || fresh(vec.buf))
      ensures st == Spec.AddOffset(old(st), field, off)
    {
      hide ScratchBytes, Spec.PushElement, Spec.Align;
      if off == 0 { return; }
      var distance := ReferTo(off);
      AddElement(field, 4, distance, 0);
      SameScratch(st, st.(pending := old(st).pending[field := Ref(off)]));
      st := st.(pending := old(st).pending[field := Ref(off)]);
    }

    /** Writes over bytes of finished data. */
    method Patch(at: nat, bytes: seq<byte>)
      requires vec.Valid() && vec.buf != null && at + |bytes| <= vec.size
      modifies vec.buf
      ensures vec.Valid() && vec.Scratch() == old(vec.Scratch())
      ensures vec.Data() == Spec.Splice(old(vec.Data()), at, bytes)
    {
      vec.WriteAt(vec.size - at, bytes);
    }

    /** A vtable with all fields absent, in front of the table at `loc`. */
    method WriteBlank(loc: nat, start: nat)
      requires Valid() && start <= loc == st.Size() && loc + Spec.VTableSize(st) <= MAX_SIZE
      modifies this`maxVoffset, vec, vec.buf
      ensures vec.Valid() && (vec.buf == old(vec.buf) || fresh(vec.buf)) && vec.buf != null
      ensures maxVoffset == Spec.VTableSize(st)
      ensures vec.Data() == Spec.BlankVTable(Spec.VTableSize(st), loc - start) + st.data
      ensures vec.Scratch() == ScratchBytes(st)
    {
      hide ScratchBytes, Encode, Spec.BlankVTable, Zeros;
      maxVoffset := Spec.Max((maxVoffset + 2) % 0x1_0000, 4);
      vec.Fill(maxVoffset);
      WriteSizes(maxVoffset, loc - start, st.data);
    }

    /** The two sizes at the front of a vtable. */
    method WriteSizes(size: nat, tableSize: nat, ghost back: seq<byte>)
      requires vec.Valid() && vec.buf != null && size >= 4 && vec.Data() == Zeros(size) + back
      modifies vec.buf
      ensures vec.Valid() && vec.Scratch() == old(vec.Scratch())
      ensures vec.Data() == Spec.BlankVTable(size, tableSize) + back
    {
      hide Encode, Spec.BlankVTable, Zeros;
      BlankBuilt(size, tableSize, back);
      vec.WriteAt(vec.size - 2, Encode(tableSize, 2));
      vec.WriteAt(vec.size, Encode(size, 2));
    }

    /** The vtable of the fields on the scratch pad. */
    method WriteVTable(loc: nat, start: nat)
      requires Valid() && start <= loc == st.Size() && Spec.LocsFit(st.locs, loc, Spec.VTableSize(st))
      requires loc + Spec.VTableSize(st) <= MAX_SIZE
      modifies this`maxVoffset, vec, vec.buf
      ensures vec.Valid() && (vec.buf == old(vec.buf) || fresh(vec.buf)) && vec.buf != null
      ensures vec.Data() == Spec.VTable(st, loc, start) + st.data && vec.Scratch() == ScratchBytes(st)
    {
      hide ScratchBytes, Encode, Spec.BlankVTable, Spec.WriteLocs, Spec.LocsFit, Spec.VTableSize;
      FewFields(st);
      WriteBlank(loc, start);
      WriteEntries(loc, Spec.BlankVTable(Spec.VTableSize(st), loc - start));
    }

    method WriteEntries(loc: nat, ghost blank: seq<byte>)
      requires vec.Valid() && vec.buf != null && numFieldLoc == |st.locs| && vec.Scratch() == ScratchBytes(st)
      requires |blank| < 0x1_0000 && Spec.LocsFit(st.locs, loc, |blank|) && loc <= MAX_SIZE
      requires vec.Data() == blank + st.data
      modifies vec.buf
      ensures vec.Valid() && vec.Scratch() == ScratchBytes(st)
      ensures vec.Data() == Spec.WriteLocs(blank, st.locs, |st.locs|, loc) + st.data
    {
      hide ScratchBytes, Encode, Spec.WriteLocs, Spec.LocsFit;
      NoLocs(blank, st.locs, loc);
      for i := 0 to numFieldLoc
        modifies vec.buf
        invariant vec.Valid() && vec.Data() == Spec.WriteLocs(blank, st.locs, i, loc) + st.data
        invariant vec.Scratch() == ScratchBytes(st)
      {
        WriteEntry(i, loc, Spec.WriteLocs(blank, st.locs, i, loc));
        OneMoreLoc(blank, st.locs, i, loc);
      }
    }

    /** The `i`-th field location, as the scratch pad has it. */
    method FieldLocation(i: nat) returns (off: nat, id: nat)
      requires vec.Valid() && i < numFieldLoc == |st.locs| && vec.Scratch() == ScratchBytes(st)
      requires st.locs[i].off < 0x1_0000_0000 && st.locs[i].id < 0x1_0000
      ensures off == st.locs[i].off && id == st.locs[i].id
    {
      hide ScratchBytes, Encode, Decode;
      LocRead(st, i);
      var fieldLocation := vec.ScratchAt(vec.scratch - 8 * (numFieldLoc - i), 8);
      off, id := Decode(fieldLocation[..4]), Decode(fieldLocation[4..6]);
    }

    /** The vtable entry of the `i`-th field location. */
    method WriteEntry(i: nat, loc: nat, ghost vt: seq<byte>)
      requires vec.Valid() && vec.buf != null && i < numFieldLoc == |st.locs| && vec.Scratch() == ScratchBytes(st)
      requires |vt| < 0x1_0000 && Spec.LocsFit(st.locs, loc, |vt|) && loc <= MAX_SIZE
      requires vec.Data() == vt + st.data
      modifies vec.buf
      ensures vec.Valid() && vec.Scratch() == ScratchBytes(st)
      ensures vec.Data() == Spec.Splice(vt, st.locs[i].id, Encode(loc - st.locs[i].off, 2)) + st.data
    {
      hide ScratchBytes, Encode, Spec.LocsFit, Spec.Splice;
      LocFits(st.locs, loc, |vt|, i);
      var off, id := FieldLocation(i);
      var entry := Encode(loc - off, 2);
      WriteInFront(vt, st.data, id, entry);
      assert id + |entry| <= |vec.Data()|;
      hide vec.Scratch;
      Patch(id, entry);
    }

    /** The number in two bytes of the buffer. */
    method ReadU16(off: nat, ghost data: seq<byte>) returns (n: nat)
      requires vec.Valid() && vec.buf != null && vec.Data() == data && 2 <= off <= |data|
      ensures n == Decode(data[|data| - off..|data| - off + 2])
    {
      hide Decode;
      var bytes := vec.ReadAt(off, 2);
      n := Decode(bytes);
    }

    method SameBytes(off1: nat, off2: nat, n: nat, ghost data: seq<byte>) returns (same: bool)
      requires vec.Valid() && vec.buf != null && vec.Data() == data && n <= off1 <= |data| && n <= off2 <= |data|
      ensures same == (data[|data| - off1..|data| - off1 + n] == data[|data| - off2..|data| - off2 + n])
    {
      var bytes1 := vec.ReadAt(off1, n);
      var bytes2 := vec.ReadAt(off2, n);
      same := bytes1 == bytes2;
    }

    /** Compares the vtable in front with the one recorded at `vtOffset`. */
    method IsSameVTable(vtOffset: nat, ghost vt: seq<byte>, ghost back: seq<byte>) returns (same: bool)
      requires vec.Valid() && vec.buf != null && vec.Data() == vt + back
      requires 4 <= |vt| && Decode(vt[..2]) == |vt|
      requires vtOffset <= |back| && VTableAt(back, |back| - vtOffset)
      ensures same == Spec.SameVTable(vt + back, vtOffset, vt)
    {
      hide Decode, VTableAt, Spec.SameVTable;
      ghost var data := vt + back;
      VTableThere(vt, back, vtOffset);
      Compared(data, vtOffset, vt);
      FrontOf(vt, back, 2);
      FrontOf(vt, back, |vt|);
      var size1 := ReadU16(vec.size, data);
      var size2 := ReadU16(vtOffset, data);
      if size1 != size2 { return false; }
      same := SameBytes(vec.size, vtOffset, size1, data);
    }

    /** The vtable recorded before that has the same bytes as the one in front, if any. */
    method FindVTable(ghost vt: seq<byte>, ghost back: seq<byte>, ghost vtables: seq<nat>) returns (found: Option<nat>)
      requires vec.Valid() && vec.buf != null && vec.Data() == vt + back && vec.Scratch() == Words(vtables)
      requires 4 <= |vt| && Decode(vt[..2]) == |vt| && |back| <= MAX_SIZE
      requires forall v :: v in vtables ==> v <= |back| && VTableAt(back, |back| - v)
      ensures found == Spec.FindVTable(vt + back, vtables, vt)
    {
      hide Words, Decode, VTableAt, Spec.SameVTable, Spec.FindVTable;
      Pow256Values();
      assert vtables[0..] == vtables;
      for k := 0 to vec.scratch / 4
        invariant Spec.FindVTable(vt + back, vtables, vt) == Spec.FindVTable(vt + back, vtables[k..], vt)
      {
        assert vtables[k] in vtables;
        WordRead(vtables, k);
        var word := vec.ScratchAt(4 * k, 4);
        var vtOffset := Decode(word);
        FindNext(vt + back, vtables, k, vt);
        var same := IsSameVTable(vtOffset, vt, back);
        if same { return Some(vtOffset); }
      }
      FindNothing(vt + back, vtables, vt);
      found := None;
    }

    /** Writes the vtable and forgets the field locations; what is left to do is to link the two. */
    method BeginEnd(start: nat, ghost s: Spec.State) returns (loc: nat)
      requires Valid() && s == st && Ending(s, start)
      modifies this, vec, vec.buf
      ensures vec.Valid() && (vec.buf == old(vec.buf) || fresh(vec.buf)) && vec.buf != null
      ensures loc == Spec.Align(s, 4).Size() + 4 && Ending(s, start) && st == Spec.PushElement(s, 0, 4)
      ensures vec.Data() == Spec.VTable(s, loc, start) + st.data && vec.Scratch() == Words(s.vtables)
      ensures dedupVtables == s.dedup && finished == s.finished && forceDefaults == s.forceDefaults
      ensures minalign == st.minalign && stringPool == s.pool && numFieldLoc == maxVoffset == 0
    {
      hide ScratchBytes, Spec.VTable, Spec.VTableSize, Spec.LocsFit;
      EndingSizes(s, start);
      loc := PushElement(0, 4);
      SameVTableFor(s, st, loc, start);
      SameScratch(s, st);
      OnlyVTables(s);
      WriteVTable(loc, start);
      ClearOffsets();
    }

    /** Records a vtable not seen before. */
    method RecordVTable(vtUse: nat)
      requires vec.Valid() && vec.size < vec.maxSize && vec.scratch + 4 < SIZE_T32
      modifies vec, vec.buf
      ensures vec.Valid() && (vec.buf == old(vec.buf) || fresh(vec.buf)) && vec.Data() == old(vec.Data())
      ensures vec.Scratch() == old(vec.Scratch()) + if vtUse == vec.size then Encode(vtUse, 4) else []
      ensures old(vec.buf) != null ==> vec.buf != null
    {
      if vtUse == vec.size {
        vec.ScratchPush(Encode(vtUse, 4));
      }
    }

    method PatchVTable(loc: nat, vtUse: nat)
      requires vec.Valid() && vec.buf != null && vec.maxSize == MAX_SIZE && 4 <= loc <= vec.size < MAX_SIZE && vtUse <= vec.size
      requires vec.scratch + 4 < SIZE_T32
      modifies vec, vec.buf
      ensures vec.Valid() && (vec.buf == old(vec.buf) || fresh(vec.buf)) && vec.buf != null
      ensures vec.Data() == Spec.Splice(old(vec.Data()), old(vec.size) - loc, Encode(Spec.Unsigned32(vtUse - loc), 4))
      ensures vec.Scratch() == old(vec.Scratch()) + if vtUse == old(vec.size) then Encode(vtUse, 4) else []
    {
      hide Encode, Spec.Unsigned32, Spec.Splice;
      RecordVTable(vtUse);
      Patch(vec.size - loc, Encode(Spec.Unsigned32(vtUse - loc), 4));
    }

    /** Lets the table at `loc` refer to the vtable it uses. */
    method Link(loc: nat, vtUse: nat, ghost t: Spec.State)
      requires vec.Valid() && vec.buf != null && vec.maxSize == MAX_SIZE && 4 <= loc <= vec.size < MAX_SIZE && vtUse <= vec.size
      requires vec.scratch + 4 < SIZE_T32
      requires t.data == Spec.Splice(vec.Data(), vec.size - loc, Encode(Spec.Unsigned32(vtUse - loc), 4))
      requires ScratchBytes(t) == vec.Scratch() + if vtUse == vec.size then Encode(vtUse, 4) else []
      requires numFieldLoc == 0 == |t.locs| && maxVoffset == t.maxVoffset && !t.nested
      requires finished == t.finished && minalign == t.minalign && forceDefaults == t.forceDefaults
      requires dedupVtables == t.dedup && stringPool == t.pool
      modifies this, vec, vec.buf
      ensures Valid() && (vec.buf == old(vec.buf) || fresh(vec.buf)) && st == t
    {
      hide ScratchBytes, Encode, Spec.Unsigned32, Spec.Splice;
      PatchVTable(loc, vtUse);
      nested := false;
      st := t;
    }

    /** The recorded vtable that equals the new one in front, if sharing is on and there is one. */
    method LookForVTable(loc: nat, start: nat, ghost s: Spec.State) returns (found: Option<nat>)
      requires vec.Valid() && vec.buf != null && dedupVtables == s.dedup && Ending(s, start) && Inv(s) && CanEnd(s, start)
      requires loc == Spec.Align(s, 4).Size() + 4 && vec.Scratch() == Words(s.vtables)
      requires vec.Data() == Spec.VTable(s, loc, start) + Spec.PushElement(s, 0, 4).data
      ensures found == if s.dedup then Spec.FindVTable(Spec.Align(s, 4).data, s.vtables, Spec.VTable(s, loc, start)) else None
      ensures found.Some? ==> found.value < loc
    {
      hide Inv, Ending, Spec.VTable, Spec.LocsFit, Spec.PushElement, Spec.FindVTable, Spec.Align, Encode, Decode, Words,
           vec.Valid, vec.Data, vec.Scratch;
      EndingSizes(s, start);
      OldVTables(s);
      VTableSized(s, start);
      found := None;
      if dedupVtables {
        found := FindVTable(Spec.VTable(s, loc, start), Spec.PushElement(s, 0, 4).data, s.vtables);
        FoundBefore(s, start);
      }
    }

    /** The vtable to refer to: the new one, or an equal one found earlier, and then the new one is popped. */
    method ChooseVTable(loc: nat, start: nat, ghost s: Spec.State) returns (vtUse: nat)
      requires vec.Valid() && vec.buf != null && dedupVtables == s.dedup && Ending(s, start) && Inv(s) && CanEnd(s, start)
      requires loc == Spec.Align(s, 4).Size() + 4 && vec.Scratch() == Words(s.vtables)
      requires vec.Data() == Spec.VTable(s, loc, start) + Spec.PushElement(s, 0, 4).data
      modifies vec
      ensures vec.Valid() && vec.buf == old(vec.buf) && vec.Scratch() == old(vec.Scratch())
      ensures vtUse <= vec.size <= old(vec.size) && loc <= vec.size
      ensures var t := Spec.EndTable(s, start);
              && t == s.(data := t.data, minalign := Spec.Align(s, 4).minalign, locs := [], maxVoffset := 0, nested := false,
                         objs := t.objs, vtables := if vtUse == vec.size then s.vtables + [vtUse] else s.vtables)
              && t.data == Spec.Splice(vec.Data(), vec.size - loc, Encode(Spec.Unsigned32(vtUse - loc), 4))
    {
      hide Inv, Ending, Spec.VTable, Spec.LocsFit, Spec.EndTable, Spec.PushElement, Spec.FindVTable, Spec.Splice,
           Spec.Align, Encode, Words, vec.Valid, vec.Data, vec.Scratch;
      EndingSizes(s, start);
      var found := LookForVTable(loc, start, s);
      if found.Some? {
        vtUse := found.value;
        UsesOld(s, start, vtUse);
        PopTo(loc, Spec.PushElement(s, 0, 4).data);
      } else {
        vtUse := vec.size;
        UsesNew(s, start);
      }
    }

    method EndTable(start: nat) returns (loc: nat)
      requires Valid() && Inv(st) && CanEnd(st, start)
      requires Spec.WithVTable(st, start).Size() < MAX_SIZE && ScratchSize(st) + 4 < SIZE_T32
      modifies this, vec, vec.buf
      ensures Valid() && (vec.buf == old(vec.buf) || fresh(vec.buf))
      ensures st == Spec.EndTable(old(st), start) && loc == Spec.Align(old(st), 4).Size() + 4
    {
      hide Inv, CanEnd, Ending, ScratchBytes, Spec.VTable, Spec.LocsFit, Spec.EndTable, Spec.WithVTable, Spec.PushElement,
           Spec.Align, Encode, Spec.Splice;
      ghost var s := st;
      ReadyToEnd(s, start);
      EndingSizes(s, start);
      AlignedAlready(s);
      loc := BeginEnd(start, s);
      var vtUse := ChooseVTable(loc, start, s);
      ScratchEnded(s, Spec.EndTable(s, start));
      Link(loc, vtUse, Spec.EndTable(s, start));
    }

    // ---- Strings and vectors ----

    method CreateString(chars: seq<byte>) returns (off: nat)
      requires Valid() && st.NotNested() && Spec.CreateString(st, chars).Size() <= MAX_SIZE
      modifies this, vec, vec.buf
      ensures Valid() && (vec.buf == old(vec.buf) || fresh(vec.buf))
      ensures st == Spec.CreateString(old(st), chars) && off == st.Size()
    {
      hide Valid, Spec.PreAlign, Spec.PushElement;
      PreAlign(|chars| + 1, 4);
      Fill(1);
      PushBytes(chars);
      off := PushElement(|chars|, 4);
      Remember(Str(chars));
    }

    method SetNested(b: bool)
      requires Valid()
      modifies this
      ensures Valid() && st == old(st).(nested := b)
    {
      nested := b;
      SameScratch(st, st.(nested := b));
      st := st.(nested := b);
    }

    /** Notes in the record that an object was finished. */
    ghost method Remember(obj: Obj)
      requires Valid()
      modifies `st
      ensures Valid() && st == Spec.Record(old(st), obj)
    {
      SameScratch(st, Spec.Record(st, obj));
      st := Spec.Record(st, obj);
    }

    /** Room for `n` bytes of elements of width `w`. */
    method StartVector(n: nat, w: nat)
      requires Valid() && st.NotNested() && IsWidth(w) && Spec.StartVector(st, n, w).Size() <= MAX_SIZE
      modifies this, vec, vec.buf
      ensures Valid() && (vec.buf == old(vec.buf) || fresh(vec.buf))
      ensures st == Nest(Spec.StartVector(old(st), n, w))
    {
      hide Valid;
      SetNested(true);
      PreAlign(n, 4);
      PreAlign(n, w);
    }

    method EndVector(len: nat) returns (off: nat)
      requires Valid() && st.nested && Spec.PushElement(st.(nested := false), len, 4).Size() <= MAX_SIZE
      modifies this, vec, vec.buf
      ensures Valid() && (vec.buf == old(vec.buf) || fresh(vec.buf))
      ensures st == Spec.PushElement(old(st).(nested := false), len, 4) && off == st.Size()
    {
      hide Valid;
      SetNested(false);
      off := PushElement(len, 4);
    }

    /** A vector of scalars of width `w`, copied as they lie in memory. */
    method CreateVector(w: nat, elems: seq<nat>) returns (off: nat)
      requires Valid() && st.NotNested() && IsWidth(w) && Spec.CreateVector(st, w, elems).Size() <= MAX_SIZE
      modifies this, vec, vec.buf
      ensures Valid() && (vec.buf == old(vec.buf) || fresh(vec.buf))
      ensures st == Spec.CreateVector(old(st), w, elems) && off == st.Size()
    {
      hide Valid, Spec.StartVector, Spec.PushElement, Spec.EncodeAll, IsWidth;
      EncodedNothing(elems, w);
      var bytes := Spec.EncodeAll(elems, w);
      StartVector(|bytes|, w);
      if |elems| > 0 {
        PushBytes(bytes);
      }
      assert st.(nested := false) == Spec.Push(Spec.StartVector(old(st), |bytes|, w), bytes);
      off := EndVector(|elems|);
      Remember(Vec(w, elems));
    }

    method PushOffset(target: nat)
      requires Valid() && 0 < target <= st.Size() && Spec.PushOffset(st, target).Size() <= MAX_SIZE
      modifies this, vec, vec.buf
      ensures Valid() && (vec.buf == old(vec.buf) || fresh(vec.buf))
      ensures st == Spec.PushOffset(old(st), target)
    {
      var distance := ReferTo(target);
      var _ := PushElement(distance, 4);
    }

    method CreateVectorOfOffsets(targets: seq<nat>) returns (off: nat)
      requires Valid() && st.NotNested() && forall t :: t in targets ==> 0 < t <= st.Size()
      requires Spec.CreateVectorOfOffsets(st, targets).Size() <= MAX_SIZE
      modifies this, vec, vec.buf
      ensures Valid() && (vec.buf == old(vec.buf) || fresh(vec.buf))
      ensures st == Spec.CreateVectorOfOffsets(old(st), targets) && off == st.Size()
    {
      hide Valid, Spec.StartVector, Spec.PushOffset, Spec.PushOffsets, Spec.PushElement;
      NestedOffsets(Spec.StartVector(st, 4 * |targets|, 4), targets);
      StartVector(4 * |targets|, 4);
      ghost var begun := st;
      assert targets[|targets|..] == [];
      PushedNothing(begun);
      var i := |targets|;
      while i > 0
        invariant 0 <= i <= |targets| && Valid() && (vec.buf == old(vec.buf) || fresh(vec.buf))
        invariant Below(targets[i..], begun.Size())
        invariant st == Spec.PushOffsets(begun, targets[i..])
      {
        i := i - 1;
        NextOffset(begun, targets, i);
        PushOffset(targets[i]);
      }
      assert targets[0..] == targets;
      assert st.(nested := false) == Spec.PushOffsets(Spec.StartVector(old(st), 4 * |targets|, 4), targets);
      off := EndVector(|targets|);
      Remember(OffVec(targets));
    }

    /** Makes the strings one by one, keeping their offsets on the scratch pad. */
    method CreateStrings(strings: seq<seq<byte>>)
      requires Valid() && st.NotNested() && Spec.CreateStrings(st, strings).Size() < MAX_SIZE
      requires ScratchSize(st) + 4 * |strings| < SIZE_T32
      modifies this, vec, vec.buf
      ensures Valid() && (vec.buf == old(vec.buf) || fresh(vec.buf))
      ensures st == Spec.CreateStrings(old(st), strings) && st.NotNested() && st.vtables == old(st).vtables
    {
      hide Valid, Spec.CreateString, Spec.CreateStrings, ScratchBytes;
      ghost var begun := st;
      NoStrings(begun, strings);
      for k := 0 to |strings|
        invariant Valid() && (vec.buf == old(vec.buf) || fresh(vec.buf))
        invariant st == Spec.CreateStrings(begun, strings[..k]) && st.NotNested()
        invariant |st.temps| == |begun.temps| + k && st.vtables == begun.vtables
      {
        OneMoreString(begun, strings, k);
        StringsGrow(begun, strings, k + 1);
        StringGrows(st, strings[k]);
        var off := CreateString(strings[k]);
        PushTemp(off);
      }
      assert strings[..|strings|] == strings;
    }

    method PushTemp(off: nat)
      requires Valid() && st.NotNested() && st.Size() < MAX_SIZE && ScratchSize(st) + 4 < SIZE_T32
      modifies this, vec, vec.buf
      ensures Valid() && (vec.buf == old(vec.buf) || fresh(vec.buf))
      ensures st == old(st).(temps := old(st).temps + [off])
    {
      hide ScratchBytes;
      ScratchTemp(st, off);
      vec.ScratchPush(Encode(off, 4));
      st := st.(temps := st.temps + [off]);
    }

    /** Pushes references to the last `n` offsets on the scratch pad, the very last one first. */
    method PushTemps(n: nat, ghost targets: seq<nat>)
      requires Valid() && st.locs == [] && |targets| == n && EndsWith(st.temps, targets)
      requires Below(targets, st.Size()) && 0 !in targets
      requires Spec.PushOffsets(st, targets).Size() <= MAX_SIZE
      modifies this, vec, vec.buf
      ensures Valid() && (vec.buf == old(vec.buf) || fresh(vec.buf))
      ensures st == Spec.PushOffsets(old(st), targets)
    {
      hide Valid, Spec.PushOffset, Spec.PushOffsets, ScratchBytes;
      ghost var begun := st;
      assert targets[n..] == [];
      PushedNothing(begun);
      for i := 1 to n + 1
        invariant Valid() && (vec.buf == old(vec.buf) || fresh(vec.buf))
        invariant Below(targets[n + 1 - i..], begun.Size())
        invariant st == Spec.PushOffsets(begun, targets[n + 1 - i..])
      {
        NextOffset(begun, targets, n - i);
        var target := Temp(i);
        PushOffset(target);
      }
      assert targets[0..] == targets;
    }

    /** The `i`-th offset from the end of the scratch pad. */
    method Temp(i: nat) returns (off: nat)
      requires Valid() && st.locs == [] && 0 < i <= |st.temps| && st.temps[|st.temps| - i] <= MAX_SIZE
      ensures off == st.temps[|st.temps| - i]
    {
      hide ScratchBytes, Decode;
      Pow256Values();
      TempAt(st, |st.temps| - i);
      var bytes := vec.ScratchAt(vec.scratch - 4 * i, 4);
      off := Decode(bytes);
    }

    method PopTemps(n: nat)
      requires Valid() && st.locs == [] && n <= |st.temps|
      modifies this, vec
      ensures Valid() && vec.buf == old(vec.buf)
      ensures st == old(st).(temps := old(st).temps[..|old(st).temps| - n])
    {
      hide ScratchBytes;
      ghost var temps := st.temps[..|st.temps| - n];
      ScratchUntemp(st, temps);
      vec.ScratchPop(4 * n);
      st := st.(temps := temps);
    }

    method CreateVectorOfStrings(strings: seq<seq<byte>>) returns (off: nat)
      requires Valid() && st.NotNested() && Spec.CreateVectorOfStrings(st, strings).Size() < MAX_SIZE
      requires ScratchSize(st) + 4 * |strings| < SIZE_T32
      modifies this, vec, vec.buf
      ensures Valid() && (vec.buf == old(vec.buf) || fresh(vec.buf))
      ensures st == Spec.CreateVectorOfStrings(old(st), strings) && off == st.Size()
    {
      hide Valid, Spec.CreateStrings, Spec.CreateVectorOfOffsets;
      VectorGrows(Spec.CreateStrings(st, strings), Spec.CreateStrings(st, strings).temps[|st.temps|..]);
      EnsureScratch(4 * |strings|);
      CreateStrings(strings);
      off := ReferToTemps(|strings|, old(st).temps, st.temps[|old(st).temps|..]);
    }

    /** A vector of references to the last `n` offsets on the scratch pad, which are removed from it. */
    method ReferToTemps(n: nat, ghost temps: seq<nat>, ghost targets: seq<nat>) returns (off: nat)
      requires Valid() && st.NotNested() && |targets| == n && st.temps == temps + targets
      requires Below(targets, st.Size()) && 0 !in targets
      requires Spec.CreateVectorOfOffsets(st, targets).Size() <= MAX_SIZE
      modifies this, vec, vec.buf
      ensures Valid() && (vec.buf == old(vec.buf) || fresh(vec.buf))
      ensures st == Spec.CreateVectorOfOffsets(old(st), targets).(temps := temps) && off == st.Size()
    {
      hide Valid, Spec.StartVector, Spec.PushOffset, Spec.PushOffsets, Spec.PushElement;
      ghost var begun := Spec.StartVector(st, 4 * n, 4);
      NestedOffsets(begun, targets);
      StartVector(4 * n, 4);
      PushTemps(n, targets);
      OffsetsKeepScratch(begun, targets);
      PopTemps(n);
      UntempLater(Spec.PushOffsets(begun, targets), n, temps);
      off := EndVector(n);
      Remember(OffVec(targets));
    }

    method EnsureScratch(n: nat)
      requires Valid() && st.Size() < MAX_SIZE
      modifies this, vec
      ensures Valid() && (vec.buf == old(vec.buf) || fresh(vec.buf)) && st == old(st)
    {
      vec.EnsureSpace(n);
    }

    /** A string equal to one made before is popped again. */
    method CreateSharedString(chars: seq<byte>) returns (off: nat)
      requires Valid() && st.NotNested() && Spec.CreateString(st, chars).Size() <= MAX_SIZE
      modifies this, vec, vec.buf
      ensures Valid() && (vec.buf == old(vec.buf) || fresh(vec.buf))
      ensures (st, off) == Spec.CreateSharedString(old(st), chars)
    {
      hide Spec.CreateString, ScratchBytes;
      var sizeBeforeString := vec.size;
      StringGrows(st, chars);
      off := CreateString(chars);
      if chars in stringPool {
        TakeBack(sizeBeforeString, old(st));
        return stringPool[chars];
      }
      Share(chars, off);
    }

    method PopTo(size: nat, ghost data: seq<byte>)
      requires vec.Valid() && size == |data| <= vec.size && vec.Data()[vec.size - size..] == data
      modifies vec
      ensures vec.Valid() && vec.buf == old(vec.buf) && vec.Data() == data && vec.Scratch() == old(vec.Scratch())
    {
      vec.Pop(vec.size - size);
    }

    /** Pops what was pushed since the state `s`. */
    method TakeBack(size: nat, ghost s: Spec.State)
      requires Valid() && size == s.Size() <= st.Size() && st.data[st.Size() - s.Size()..] == s.data
      requires st == s.(data := st.data, minalign := st.minalign, objs := st.objs)
      modifies this`st, vec
      ensures Valid() && vec.buf == old(vec.buf) && st == s.(minalign := old(st).minalign)
    {
      hide ScratchBytes, vec.Valid, vec.Data, vec.Scratch;
      ghost var t := s.(minalign := st.minalign);
      SameScratch(st, t);
      PopTo(size, s.data);
      st := t;
    }

    method Share(chars: seq<byte>, off: nat)
      requires Valid()
      modifies this`stringPool, this`st
      ensures Valid() && st == old(st).(pool := old(st).pool[chars := off])
    {
      hide ScratchBytes;
      stringPool := stringPool[chars := off];
      SameScratch(st, st.(pool := stringPool));
      st := st.(pool := stringPool);
    }

    method Finish(root: nat)
      requires Valid() && st.NotNested() && !st.finished && 0 < root <= st.Size() && IsWidth(st.minalign)
      requires Spec.Finish(st, root).Size() <= MAX_SIZE
      modifies this, vec, vec.buf
      ensures Valid() && (vec.buf == old(vec.buf) || fresh(vec.buf))
      ensures st == Spec.Finish(old(st), root)
    {
      vec.ClearScratch();
      st := st.(vtables := [], temps := []);
      assert Valid();
      hide Valid;
      PreAlignAll(4);
      PushOffset(root);
      MarkFinished();
    }

    method PreAlignAll(len: nat)
      requires Valid() && IsWidth(st.minalign) && Spec.PreAlign(st, len, st.minalign).Size() <= MAX_SIZE
      modifies this, vec, vec.buf
      ensures Valid() && (vec.buf == old(vec.buf) || fresh(vec.buf))
      ensures st == Spec.PreAlign(old(st), len, old(st).minalign)
    {
      PreAlign(len, minalign);
    }

    method MarkFinished()
      requires Valid()
      modifies this
      ensures Valid() && st == old(st).(finished := true)
    {
      finished := true;
      SameScratch(st, st.(finished := true));
      st := st.(finished := true);
    }
  }
}
