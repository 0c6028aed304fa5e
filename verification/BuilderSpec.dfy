/** Each FlatBufferBuilder call as a function from the builder's state to its next state. */
module BuilderSpec {
  import opened Wrappers
  import opened Bytes
  import opened Layout

  /** Where a field of the table under construction was stored. */
  datatype FieldLoc = FieldLoc(off: nat, id: nat)

  /** The builder's fields, and three that only record history: the objects finished so far, the
      fields of the open table, and where that table started. */
  datatype State = State(
    data: seq<byte>,
    vtables: seq<nat>,
    temps: seq<nat>,
    locs: seq<FieldLoc>,
    maxVoffset: nat,
    minalign: nat,
    nested: bool,
    finished: bool,
    forceDefaults: bool,
    dedup: bool,
    pool: map<seq<byte>, nat>,
    objs: Objects,
    pending: map<nat, FieldVal>,
    start: nat)
  {
    function Size(): nat {
      |data|
    }

    predicate NotNested() {
      !nested && locs == []
    }
  }

  /** FLATBUFFERS_MAX_BUFFER_SIZE */
  const MAX_SIZE: nat := 0x7fff_ffff

  function Init(forceDefaults: bool, dedup: bool): State {
    State([], [], [], [], 0, 1, false, false, forceDefaults, dedup, map[], map[], map[], 0)
  }

  function Max(a: nat, b: nat): nat {
    if a < b then b else a
  }

  function Push(s: State, bytes: seq<byte>): State {
    s.(data := bytes + s.data)
  }

  /** Only new bytes in front, and a stricter alignment. */
  predicate Grew(s: State, t: State, least: nat) {
    && t == s.(data := t.data, minalign := t.minalign)
    && s.Size() + least <= t.Size() && s.minalign <= t.minalign
  }

  function Align(s: State, w: nat): (t: State)
    requires IsWidth(w)
    ensures Grew(s, t, 0)
  {
    Push(s.(minalign := Max(s.minalign, w)), Zeros(PaddingBytes(s.Size(), w)))
  }

  /** Pads so that after `len` more bytes the buffer is aligned. */
  function PreAlign(s: State, len: nat, w: nat): (t: State)
    requires IsWidth(w)
    ensures Grew(s, t, 0)
  {
    if len == 0 then s
    else Push(s.(minalign := Max(s.minalign, w)), Zeros(PaddingBytes(s.Size() + len, w)))
  }

  function PushElement(s: State, n: nat, w: nat): (t: State)
    requires IsWidth(w)
    ensures Grew(s, t, w)
  {
    Push(Align(s, w), Encode(n, w))
  }

  // ---- Tables ----

  function StartTable(s: State): State {
    s.(nested := true, start := s.Size(), pending := map[])
  }

  function TrackField(s: State, field: nat): State {
    s.(locs := s.locs + [FieldLoc(s.Size(), field)], maxVoffset := Max(s.maxVoffset, field))
  }

  function AddElement(s: State, field: nat, w: nat, e: nat, default: nat): State
    requires IsWidth(w)
  {
    if e == default && !s.forceDefaults then s
    else TrackField(PushElement(s, e, w), field).(pending := s.pending[field := Scalar(w, e)])
  }

  /** The distance from the next 4-byte element to the object at `off`. */
  function ReferTo(s: State, off: nat): nat
    requires off <= Align(s, 4).Size()
  {
    Align(s, 4).Size() - off + 4
  }

  function AddOffset(s: State, field: nat, off: nat): State
    requires off <= s.Size()
  {
    if off == 0 then s
    else AddElement(Align(s, 4), field, 4, ReferTo(s, off), 0).(pending := s.pending[field := Ref(off)])
  }

  function Splice(s: seq<byte>, at: nat, bytes: seq<byte>): (r: seq<byte>)
    requires at + |bytes| <= |s|
    ensures |r| == |s|
  {
    s[..at] + bytes + s[at + |bytes|..]
  }

  /** The fields lie before `loc` and their slots lie in a vtable of `size` bytes. */
  predicate LocsFit(locs: seq<FieldLoc>, loc: nat, size: nat) {
    forall i :: 0 <= i < |locs| ==> locs[i].off <= loc && locs[i].id + 2 <= size
  }

  /** Writes the distances of the first `k` fields from the start of the table, at `loc`. */
  function WriteLocs(vt: seq<byte>, locs: seq<FieldLoc>, k: nat, loc: nat): (r: seq<byte>)
    requires k <= |locs| && LocsFit(locs, loc, |vt|)
    ensures |r| == |vt|
  {
    if k == 0 then vt
    else Splice(WriteLocs(vt, locs, k - 1, loc), locs[k - 1].id, Encode(loc - locs[k - 1].off, 2))
  }

  /** The sum is cast back to 16 bits before the comparison. */
  function VTableSize(s: State): nat {
    Max((s.maxVoffset + 2) % 0x1_0000, 4)
  }

  /** A vtable of the right size with all fields absent. */
  function BlankVTable(size: nat, tableSize: nat): (r: seq<byte>)
    requires size >= 4
    ensures |r| == size
  {
    Encode(size, 2) + Encode(tableSize, 2) + Zeros(size - 4)
  }

  function VTable(s: State, loc: nat, start: nat): (r: seq<byte>)
    requires start <= loc && LocsFit(s.locs, loc, VTableSize(s))
    ensures |r| == VTableSize(s)
  {
    WriteLocs(BlankVTable(VTableSize(s), loc - start), s.locs, |s.locs|, loc)
  }

  /** Whether the vtable recorded at `v` has the bytes `vt`. */
  predicate SameVTable(data: seq<byte>, v: nat, vt: seq<byte>) {
    |vt| <= v <= |data| && data[|data| - v..|data| - v + |vt|] == vt
  }

  function FindVTable(data: seq<byte>, vtables: seq<nat>, vt: seq<byte>): (r: Option<nat>)
    ensures r.Some? ==> r.value in vtables && SameVTable(data, r.value, vt)
    ensures r.None? ==> forall v :: v in vtables ==> !SameVTable(data, v, vt)
  {
    if vtables == [] then None
    else if SameVTable(data, vtables[0], vt) then Some(vtables[0])
    else FindVTable(data, vtables[1..], vt)
  }

  predicate CanEndTable(s: State, start: nat) {
    && s.nested && start <= s.Size()
    && LocsFit(s.locs, s.Size(), VTableSize(s))
  }

  /** `int32` as stored in four bytes. */
  function Unsigned32(i: int): nat
    requires -0x8000_0000 <= i < 0x8000_0000
  {
    if i >= 0 then i else i + 0x1_0000_0000
  }

  /** Everything EndTable has written before it looks for an equal vtable. */
  function WithVTable(s: State, start: nat): State
    requires CanEndTable(s, start)
  {
    var t := PushElement(s, 0, 4);
    Push(t, VTable(s, t.Size(), start))
  }

  function EndTable(s: State, start: nat): State
    requires CanEndTable(s, start) && WithVTable(s, start).Size() <= MAX_SIZE
  {
    var a := Align(s, 4);
    var loc := a.Size() + 4;
    var vt := VTable(s, loc, start);
    var found := if s.dedup then FindVTable(a.data, s.vtables, vt) else None;
    match found
    case Some(v) => UseVTable(s, a, loc, v)
    case None => AppendVTable(s, a, loc, vt)
  }

  /** The table ends up referring back to an equal vtable written earlier ... */
  function UseVTable(s: State, a: State, loc: nat, v: nat): State
    requires loc <= MAX_SIZE && v <= MAX_SIZE
  {
    CloseTable(s, Push(a, Encode(Unsigned32(v - loc), 4)), loc)
  }

  /** ... or to its own, right in front of it. */
  function AppendVTable(s: State, a: State, loc: nat, vt: seq<byte>): State
    requires |vt| <= MAX_SIZE
  {
    var t := Push(Push(a, Encode(Unsigned32(|vt|), 4)), vt);
    CloseTable(s, t.(vtables := s.vtables + [loc + |vt|]), loc)
  }

  function CloseTable(s: State, t: State, loc: nat): State {
    t.(locs := [], maxVoffset := 0, nested := false, objs := s.objs[loc := Tbl(s.pending)])
  }

  // ---- Strings and vectors ----

  function Record(s: State, obj: Obj): State {
    s.(objs := s.objs[s.Size() := obj])
  }

  function CreateString(s: State, chars: seq<byte>): State {
    var a := Push(PreAlign(s, |chars| + 1, 4), Zeros(1));
    Record(PushElement(Push(a, chars), |chars|, 4), Str(chars))
  }

  function EncodeAll(elems: seq<nat>, w: nat): (r: seq<byte>)
    ensures |r| == w * |elems|
  {
    if elems == [] then []
    else
      assert w * |elems| == w + w * |elems[1..]|;
      Encode(elems[0], w) + EncodeAll(elems[1..], w)
  }

  /** Room for `n` bytes of elements of width `w`. */
  function StartVector(s: State, n: nat, w: nat): (t: State)
    requires IsWidth(w)
    ensures Grew(s, t, 0)
  {
    PreAlign(PreAlign(s, n, 4), n, w)
  }

  function CreateVector(s: State, w: nat, elems: seq<nat>): State
    requires IsWidth(w)
  {
    Record(PushElement(Push(StartVector(s, w * |elems|, w), EncodeAll(elems, w)), |elems|, 4), Vec(w, elems))
  }

  function PushOffset(s: State, off: nat): (t: State)
    requires off <= s.Size()
    ensures Grew(s, t, 4)
  {
    PushElement(Align(s, 4), ReferTo(s, off), 4)
  }

  /** Pushes references to `targets`, the last one first. */
  function PushOffsets(s: State, targets: seq<nat>): (t: State)
    requires forall t :: t in targets ==> t <= s.Size()
    ensures Grew(s, t, 4 * |targets|)
  {
    if targets == [] then s
    else
      assert forall t :: t in targets[1..] ==> t in targets;
      var rest := PushOffsets(s, targets[1..]);
      assert targets[0] in targets;
      PushOffset(rest, targets[0])
  }

  function CreateVectorOfOffsets(s: State, targets: seq<nat>): State
    requires forall t :: t in targets ==> t <= s.Size()
  {
    Record(PushElement(PushOffsets(StartVector(s, 4 * |targets|, 4), targets), |targets|, 4), OffVec(targets))
  }

  function CreateStrings(s: State, strings: seq<seq<byte>>): (t: State)
    ensures t.Size() >= s.Size() && |t.temps| == |s.temps| + |strings| && s.temps <= t.temps
    ensures forall o :: o in t.temps[|s.temps|..] ==> 0 < o <= t.Size()
  {
    if strings == [] then s
    else
      var before := CreateStrings(s, strings[..|strings| - 1]);
      var t := CreateString(before, strings[|strings| - 1]);
      var temps := before.temps + [t.Size()];
      assert temps[|s.temps|..] == before.temps[|s.temps|..] + [t.Size()];
      t.(temps := temps)
  }

  function CreateVectorOfStrings(s: State, strings: seq<seq<byte>>): State {
    var t := CreateStrings(s, strings);
    var made := t.temps[|s.temps|..];
    CreateVectorOfOffsets(t, made).(temps := s.temps)
  }

  /** A string with contents seen before is popped again. */
  function CreateSharedString(s: State, chars: seq<byte>): (State, nat) {
    var t := CreateString(s, chars);
    if chars in s.pool then (s.(minalign := t.minalign), s.pool[chars])
    else (t.(pool := s.pool[chars := t.Size()]), t.Size())
  }

  function Finish(s: State, root: nat): State
    requires root <= s.Size() && IsWidth(s.minalign)
  {
    var a := PreAlign(s.(vtables := [], temps := []), 4, s.minalign);
    PushOffset(a, root).(finished := true)
  }
}
