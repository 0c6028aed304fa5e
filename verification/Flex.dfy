/** FlexBuffers: choosing the width of a vector's elements, and reading back what was written. */
module Flex {
  import opened Wrappers
  import opened Bytes
  import opened Wire

  // ---- Widths of numbers ----

  /** The fewest bytes an unsigned number fits in. */
  function WidthU(u: nat): (w: nat)
    requires u < 0x1_0000_0000_0000_0000
    ensures IsWidth(w) && u < Pow256(w) && forall v: nat :: IsWidth(v) && v < w ==> u >= Pow256(v)
  {
    Pow256Values();
    if u < 0x100 then 1 else if u < 0x1_0000 then 2 else if u < 0x1_0000_0000 then 4 else 8
  }

  /** The 64-bit pattern of a signed number, shifted left by one. */
  function Doubled(i: int): nat {
    (2 * i) % 0x1_0000_0000_0000_0000
  }

  /** The fewest bytes a signed number fits in: the source shifts its sign bit out, after taking the
      complement of a negative one. */
  function WidthI(i: int): (w: nat)
    requires -0x8000_0000_0000_0000 <= i < 0x8000_0000_0000_0000
    ensures IsWidth(w) && FitsSigned(i, w) && forall v: nat :: IsWidth(v) && v < w ==> !FitsSigned(i, v)
  {
    Pow256Values();
    WidthU(if i >= 0 then Doubled(i) else 0xFFFF_FFFF_FFFF_FFFF - Doubled(i))
  }

  predicate FitsSigned(i: int, w: nat) {
    0 - Pow256(w) <= 2 * i < Pow256(w)
  }

  // ---- Values ----

  const FBT_NULL: nat := 0
  const FBT_INT: nat := 1
  const FBT_UINT: nat := 2
  const FBT_FLOAT: nat := 3
  const FBT_KEY: nat := 4
  const FBT_VECTOR_KEY: nat := 14
  const FBT_BOOL: nat := 26

  predicate IsInline(ty: nat) {
    ty <= FBT_FLOAT || ty == FBT_BOOL
  }

  /** A value on the builder's stack: a number, or the position of what it refers to. */
  datatype Value = Value(n: int, ty: nat, minWidth: nat)

  predicate IsValid(v: Value, bufSize: nat) {
    && IsWidth(v.minWidth) && v.ty != FBT_FLOAT && v.ty < 64
    && if !IsInline(v.ty) then 0 <= v.n <= bufSize
       else if v.ty == FBT_INT then FitsSigned(v.n, v.minWidth)
       else 0 <= v.n < Pow256(v.minWidth)
  }

  function Aligned(n: nat, w: nat): (r: nat)
    requires IsWidth(w)
    ensures n <= r < n + w && r % w == 0
  {
    n + PaddingBytes(n, w)
  }

  /** The distance back from the element `index` places into a vector of width `w` to position `u`. */
  function Distance(bufSize: nat, u: nat, index: nat, w: nat): (d: nat)
    requires IsWidth(w) && u <= bufSize
  {
    Aligned(bufSize, w) + index * w - u
  }

  /** Far from the end of 64-bit addresses. */
  predicate Roomy(bufSize: nat, elems: nat) {
    bufSize + 8 * elems < 0x4000_0000_0000_0000
  }

  /** Aligning to a larger width never ends up earlier. */
  lemma AlignedGrows(n: nat, w: nat)
    requires w == 1 || w == 2 || w == 4
    ensures Aligned(n, w) <= Aligned(n, 2 * w)
  {
    AlignedDown(Aligned(n, 2 * w), 2 * w, w);
    PaddingIsLeast(n, w, PaddingBytes(n, 2 * w));
  }

  lemma DistanceGrows(bufSize: nat, u: nat, index: nat, w: nat)
    requires (w == 1 || w == 2 || w == 4) && u <= bufSize
    ensures Distance(bufSize, u, index, w) <= Distance(bufSize, u, index, 2 * w)
  {
    AlignedGrows(bufSize, w);
    assert index * (2 * w) == index * w + index * w;
  }

  lemma DistanceFits64(bufSize: nat, u: nat, index: nat, w: nat)
    requires IsWidth(w) && u <= bufSize && Roomy(bufSize, index)
    ensures Distance(bufSize, u, index, w) < 0x1_0000_0000_0000_0000
  {
    assert index * w <= index * 8;
  }

  /** The width a reference needs at its place, if every width before it were the one chosen. */
  predicate NeedsWidth(bufSize: nat, u: nat, index: nat, w: nat)
    requires u <= bufSize
  {
    IsWidth(w) && Distance(bufSize, u, index, w) < Pow256(w)
  }

  /** `ElemWidth` for a reference: tries each width in turn and always finds one, the least that fits. */
  method OffsetWidth(u: nat, bufSize: nat, index: nat) returns (w: nat)
    requires u <= bufSize && Roomy(bufSize, index)
    ensures NeedsWidth(bufSize, u, index, w)
    ensures forall v: nat :: IsWidth(v) && v < w ==> !NeedsWidth(bufSize, u, index, v)
  {
    hide Pow256, Distance, WidthU;
    Pow256Values();
    w := 1;
    while w <= 8
      invariant IsWidth(w)
      invariant forall v: nat :: IsWidth(v) && v < w ==> !NeedsWidth(bufSize, u, index, v)
      invariant w > 1 ==> Distance(bufSize, u, index, w) >= Pow256(w / 2)
      decreases 8 - w
    {
      DistanceFits64(bufSize, u, index, w);
      var fits := WidthU(Distance(bufSize, u, index, w));
      if fits == w { return; }
      NotLess(bufSize, u, index, w, fits);
      DistanceGrows(bufSize, u, index, w);
      w := 2 * w;
    }
    assert false;
  }

  lemma NotLess(bufSize: nat, u: nat, index: nat, w: nat, fits: nat)
    requires IsWidth(w) && u <= bufSize && Roomy(bufSize, index) && IsWidth(fits) && fits != w
    requires w > 1 ==> Distance(bufSize, u, index, w) >= Pow256(w / 2)
    requires Distance(bufSize, u, index, w) < Pow256(fits)
    requires forall v: nat :: IsWidth(v) && v < fits ==> Distance(bufSize, u, index, w) >= Pow256(v)
    ensures w < 8 && fits > w && Distance(bufSize, u, index, w) >= Pow256(w)
  {
    hide Distance;
    Pow256Values();
    DistanceFits64(bufSize, u, index, w);
  }

  method ElemWidth(v: Value, bufSize: nat, index: nat) returns (w: nat)
    requires IsValid(v, bufSize) && Roomy(bufSize, index)
    ensures IsWidth(w)
    ensures if IsInline(v.ty) then w == v.minWidth else NeedsWidth(bufSize, v.n, index, w)
  {
    if IsInline(v.ty) {
      w := v.minWidth;
    } else {
      w := OffsetWidth(v.n, bufSize, index);
    }
  }

  // ---- The chosen width is enough for everyone ----

  /** The value can be written in `w` bytes as element `index` of a vector that starts after `bufSize` bytes. */
  predicate Writable(v: Value, bufSize: nat, index: nat, w: nat)
    requires IsValid(v, bufSize)
  {
    IsWidth(w) && if IsInline(v.ty) then v.minWidth <= w else NeedsWidth(bufSize, v.n, index, w)
  }

  /** A reference that fits in a width fits in every larger one, though it then has further to go. */
  lemma WiderFits(bufSize: nat, u: nat, index: nat, w: nat, wider: nat)
    requires u <= bufSize && NeedsWidth(bufSize, u, index, w) && IsWidth(wider) && w <= wider && Roomy(bufSize, index)
    ensures NeedsWidth(bufSize, u, index, wider)
  {
    Pow256Values();
    if w < wider {
      Doubling(bufSize, u, index, w);
      if 2 * w < wider {
        Doubling(bufSize, u, index, 2 * w);
        if 4 * w < wider { Doubling(bufSize, u, index, 4 * w); }
      }
    }
  }

  lemma Doubling(bufSize: nat, u: nat, index: nat, w: nat)
    requires (w == 1 || w == 2 || w == 4) && u <= bufSize && NeedsWidth(bufSize, u, index, w)
    ensures NeedsWidth(bufSize, u, index, 2 * w)
  {
    Pow256Values();
    assert index * (2 * w) == 2 * (index * w);
    assert index * w >= 0;
  }

  /** An element really written before the place it was measured for has less far to go. */
  lemma EarlierFits(bufSize: nat, u: nat, index: nat, earlier: nat, w: nat)
    requires u <= bufSize && NeedsWidth(bufSize, u, index, w) && earlier <= index
    ensures NeedsWidth(bufSize, u, earlier, w)
  {
    assert index * w == earlier * w + (index - earlier) * w;
    assert (index - earlier) * w >= 0;
  }

  /** The two together: a width at least that of ElemWidth is enough at the place really written to. */
  lemma EnoughThere(v: Value, bufSize: nat, measured: nat, actual: nat, w: nat, chosen: nat)
    requires IsValid(v, bufSize) && Writable(v, bufSize, measured, w) && IsWidth(chosen) && w <= chosen
    requires actual <= measured && Roomy(bufSize, measured)
    ensures Writable(v, bufSize, actual, chosen)
  {
    hide Distance, IsWidth;
    if !IsInline(v.ty) {
      WiderFits(bufSize, v.n, measured, w, chosen);
      EarlierFits(bufSize, v.n, measured, actual, chosen);
    }
  }

  // ---- Writing ----

  /** The bytes a number is stored in, a negative one as its two's complement. */
  function Stored(n: int, w: nat): (s: seq<byte>)
    requires IsWidth(w)
    ensures |s| == w
  {
    Encode(n % Pow256(w), w)
  }

  /** `WriteAny` at the end of the buffer: a number, or the distance back to what is referred to. */
  function Written(buf: seq<byte>, v: Value, w: nat): (r: seq<byte>)
    requires IsWidth(w)
    ensures |r| == |buf| + w && buf <= r
  {
    buf + Stored(if IsInline(v.ty) then v.n else |buf| - v.n, w)
  }

  // ---- Reading ----

  function Signed(u: nat, w: nat): int {
    if 2 * u < Pow256(w) then u else u - Pow256(w)
  }

  /** A reader of the element at `pos`, `w` bytes wide, gets the number, or is led to the place referred to. */
  predicate ReadsAs(buf: seq<byte>, pos: nat, w: nat, v: Value) {
    var got := ReadScalar(buf, pos, w);
    && got.Some?
    && if !IsInline(v.ty) then pos - got.value == v.n
       else if v.ty == FBT_INT then Signed(got.value, w) == v.n
       else got.value == v.n
  }

  lemma ReadStays(buf: seq<byte>, more: seq<byte>, pos: nat, w: nat)
    requires pos + w <= |buf| && buf <= more
    ensures ReadScalar(more, pos, w) == ReadScalar(buf, pos, w)
  {
    assert more[pos..pos + w] == buf[pos..pos + w];
  }

  lemma ReadsAsStays(buf: seq<byte>, more: seq<byte>, pos: nat, w: nat, v: Value)
    requires ReadsAs(buf, pos, w, v) && buf <= more
    ensures ReadsAs(more, pos, w, v)
  {
    ReadStays(buf, more, pos, w);
  }

  lemma StoredReads(buf: seq<byte>, n: int, w: nat)
    requires IsWidth(w)
    ensures ReadScalar(buf + Stored(n, w), |buf|, w) == Some(n % Pow256(w))
  {
    var s := Stored(n, w);
    assert (buf + s)[|buf|..|buf| + w] == s;
    DecodeEncode(n % Pow256(w), w);
  }

  lemma InlineFits(v: Value, bufSize: nat, w: nat)
    requires IsValid(v, bufSize) && IsInline(v.ty) && IsWidth(w) && v.minWidth <= w
    ensures if v.ty == FBT_INT then FitsSigned(v.n, w) else 0 <= v.n < Pow256(w)
  {
    Pow256Values();
  }

  lemma SignedOf(n: int, w: nat)
    requires IsWidth(w) && FitsSigned(n, w)
    ensures Signed(n % Pow256(w), w) == n
  {
    Pow256Values();
    if w == 1 {
    } else if w == 2 {
    } else if w == 4 {
    } else {
    }
  }

  lemma SmallMod(n: int, m: nat)
    requires 0 <= n < m
    ensures n % m == n
  {
  }

  /** Nothing is truncated: what is written where it fits reads back. */
  lemma WrittenReads(buf: seq<byte>, v: Value, bufSize: nat, index: nat, w: nat)
    requires IsValid(v, bufSize) && Writable(v, bufSize, index, w) && |buf| == Aligned(bufSize, w) + index * w
    ensures ReadsAs(Written(buf, v, w), |buf|, w, v)
  {
    hide Decode, Encode, Aligned, IsWidth;
    var n := if IsInline(v.ty) then v.n else |buf| - v.n;
    StoredReads(buf, n, w);
    if IsInline(v.ty) {
      InlineFits(v, bufSize, w);
      if v.ty == FBT_INT { SignedOf(v.n, w); } else { SmallMod(v.n, Pow256(w)); }
    } else {
      SmallMod(n, Pow256(w));
    }
  }

  // ---- Vectors ----

  /** Every `step`-th value of the stack from `start` on. */
  function Elem(stack: seq<Value>, start: nat, step: nat, k: nat): Value
    requires start + step * k < |stack|
  {
    stack[start + step * k]
  }

  predicate HasElems(stack: seq<Value>, start: nat, step: nat, n: nat) {
    1 <= step && start + step * n < |stack| + step && (n > 0 ==> start + step * (n - 1) < |stack|) && |stack| <= start + step * n
  }

  lemma MulMono(step: nat, a: nat, b: nat)
    requires a <= b
    ensures step * a <= step * b
  {
    assert step * b == step * a + step * (b - a);
  }

  lemma MulAtLeast(step: nat, k: nat)
    requires step >= 1
    ensures step * k >= k
  {
    MulMono(k, 1, step);
  }

  lemma ElemInStack(stack: seq<Value>, start: nat, step: nat, n: nat, k: nat)
    requires HasElems(stack, start, step, n) && k < n
    ensures start + step * k < |stack| && k <= step * k
  {
    MulMono(step, k, n - 1);
    MulAtLeast(step, k);
  }

  /** Each element is measured `step * k` places behind the prefix, though it is written `k` places behind. */
  predicate AllWritable(stack: seq<Value>, start: nat, step: nat, n: nat, bufSize: nat, prefix: nat, w: nat)
    requires HasElems(stack, start, step, n) && forall v :: v in stack ==> IsValid(v, bufSize)
  {
    forall k :: 0 <= k < n ==>
      (ElemInStack(stack, start, step, n, k); Writable(Elem(stack, start, step, k), bufSize, prefix + k, w))
  }

  function MaxWidth(a: nat, b: nat): (m: nat)
    requires IsWidth(a) && IsWidth(b)
    ensures IsWidth(m) && a <= m && b <= m
  {
    if a < b then b else a
  }

  /** The width of a vector: large enough for its length, for the keys' reference, and for every element at
      the place where it will be. */
  method VectorWidth(bufSize: nat, stack: seq<Value>, start: nat, n: nat, step: nat, keys: Option<Value>, force: nat)
    returns (w: nat)
    requires IsWidth(force) && HasElems(stack, start, step, n) && Roomy(bufSize, |stack| + 8)
    requires forall v :: v in stack ==> IsValid(v, bufSize)
    requires keys.Some? ==> IsValid(keys.value, bufSize) && !IsInline(keys.value.ty)
    ensures IsWidth(w) && force <= w && n < Pow256(w)
    ensures keys.Some? ==> Writable(keys.value, bufSize, 0, w)
    ensures AllWritable(stack, start, step, n, bufSize, if keys.Some? then 3 else 1, w)
  {
    hide Writable, Pow256;
    LengthFits(stack, start, step, n);
    w := MaxWidth(force, WidthU(n));
    var prefix := 1;
    if keys.Some? {
      var kw := ElemWidth(keys.value, bufSize, 0);
      WidthIsEnough(keys.value, bufSize, 0, kw);
      w := MaxWidth(w, kw);
      EnoughThere(keys.value, bufSize, 0, 0, kw, w);
      prefix := prefix + 2;
    }
    LengthFitsIn(n, WidthU(n), w);
    var k := 0;
    while k < n
      invariant 0 <= k <= n && IsWidth(w) && force <= w && n < Pow256(w)
      invariant keys.Some? ==> Writable(keys.value, bufSize, 0, w)
      invariant forall j :: 0 <= j < k ==>
        (ElemInStack(stack, start, step, n, j); Writable(Elem(stack, start, step, j), bufSize, prefix + j, w))
    {
      ElemInStack(stack, start, step, n, k);
      var v := Elem(stack, start, step, k);
      var ew := ElemWidth(v, bufSize, step * k + prefix);
      WidthIsEnough(v, bufSize, step * k + prefix, ew);
      ghost var before := w;
      w := MaxWidth(w, ew);
      EnoughThere(v, bufSize, step * k + prefix, prefix + k, ew, w);
      forall j | 0 <= j < k
        ensures (ElemInStack(stack, start, step, n, j); Writable(Elem(stack, start, step, j), bufSize, prefix + j, w))
      {
        ElemInStack(stack, start, step, n, j);
        EnoughThere(Elem(stack, start, step, j), bufSize, prefix + j, prefix + j, before, w);
      }
      if keys.Some? { EnoughThere(keys.value, bufSize, 0, 0, before, w); }
      LengthFitsIn(n, before, w);
      k := k + 1;
    }
  }

  lemma LengthFits(stack: seq<Value>, start: nat, step: nat, n: nat)
    requires HasElems(stack, start, step, n)
    ensures n <= |stack|
  {
    if n > 0 { ElemInStack(stack, start, step, n, n - 1); }
  }

  lemma LengthFitsIn(n: nat, w: nat, wider: nat)
    requires IsWidth(w) && IsWidth(wider) && w <= wider && n < Pow256(w)
    ensures n < Pow256(wider)
  {
    Pow256Values();
  }

  lemma WidthIsEnough(v: Value, bufSize: nat, index: nat, w: nat)
    requires IsValid(v, bufSize) && IsWidth(w)
    requires if IsInline(v.ty) then w == v.minWidth else NeedsWidth(bufSize, v.n, index, w)
    ensures Writable(v, bufSize, index, w)
  {
  }

  /** `PackedType` of an element as its vector stores it. */
  function PackedType(v: Value, w: nat): nat {
    var stored := if IsInline(v.ty) && v.minWidth < w then w else v.minWidth;
    4 * v.ty + (if stored == 1 then 0 else if stored == 2 then 1 else if stored == 4 then 2 else 3)
  }

  /** One type byte an element, in the same order. */
  predicate TypesAt(buf: seq<byte>, at: nat, w: nat, stack: seq<Value>, start: nat, step: nat, n: nat)
    requires HasElems(stack, start, step, n)
  {
    at + n <= |buf| && forall k :: 0 <= k < n ==>
      (ElemInStack(stack, start, step, n, k); buf[at + k] == PackedType(Elem(stack, start, step, k), w))
  }

  /** What a reader of the vector at `vloc` relies on. */
  predicate VectorReads(buf: seq<byte>, vloc: nat, w: nat, stack: seq<Value>, start: nat, step: nat, n: nat)
    requires HasElems(stack, start, step, n)
  {
    forall k :: 0 <= k < n ==>
      (ElemInStack(stack, start, step, n, k); ReadsAs(buf, vloc + k * w, w, Elem(stack, start, step, k)))
  }

  /** The places in front of the elements that the header takes. */
  function HeaderSize(fixed: bool, keys: Option<Value>): (h: nat)
    ensures h <= if keys.Some? then 3 else 1
  {
    (if keys.Some? then 2 else 0) + if fixed then 0 else 1
  }

  /** A map's reference to its keys, and their width. */
  predicate KeysRead(buf: seq<byte>, vloc: nat, w: nat, keys: Value) {
    && 3 * w <= vloc && ReadsAs(buf, vloc - 3 * w, w, keys) && ReadScalar(buf, vloc - 2 * w, w) == Some(keys.minWidth)
  }

  method WriteHeader(buf: seq<byte>, n: nat, fixed: bool, keys: Option<Value>, w: nat) returns (out: seq<byte>)
    requires IsWidth(w) && n < Pow256(w)
    requires keys.Some? ==> IsValid(keys.value, |buf|) && !IsInline(keys.value.ty) && Writable(keys.value, |buf|, 0, w) && !fixed
    ensures buf <= out && |out| == Aligned(|buf|, w) + HeaderSize(fixed, keys) * w
    ensures !fixed ==> w <= |out| && ReadScalar(out, |out| - w, w) == Some(n)
    ensures keys.Some? ==> KeysRead(out, |out|, w, keys.value)
  {
    hide Encode, Decode, Writable, ReadsAs, ReadScalar, Pow256;
    out := buf + Zeros(PaddingBytes(|buf|, w));
    if keys.Some? {
      var start := out;
      WrittenReads(start, keys.value, |buf|, 0, w);
      out := Written(start, keys.value, w);
      var afterKeys := out;
      StoredReads(afterKeys, keys.value.minWidth, w);
      WidthFits(keys.value.minWidth, w);
      out := afterKeys + Stored(keys.value.minWidth, w);
      var afterWidth := out;
      StoredReads(afterWidth, n, w);
      SmallMod(n, Pow256(w));
      out := afterWidth + Stored(n, w);
      ReadsAsStays(afterKeys, out, |start|, w, keys.value);
      ReadStays(afterWidth, out, |afterKeys|, w);
    } else if !fixed {
      StoredReads(out, n, w);
      SmallMod(n, Pow256(w));
      out := out + Stored(n, w);
    }
  }

  lemma WidthFits(width: nat, w: nat)
    requires IsWidth(width) && IsWidth(w)
    ensures width % Pow256(w) == width
  {
    Pow256Values();
  }

  lemma PlaceOf(header: nat, k: nat, w: nat)
    ensures (header + k) * w == header * w + k * w && (k + 1) * w == k * w + w
  {
  }

  method WriteElems(buf: seq<byte>, bufSize: nat, stack: seq<Value>, start: nat, step: nat, n: nat, header: nat, w: nat)
    returns (out: seq<byte>)
    requires IsWidth(w) && HasElems(stack, start, step, n) && forall v :: v in stack ==> IsValid(v, bufSize)
    requires |buf| == Aligned(bufSize, w) + header * w && AllWritable(stack, start, step, n, bufSize, header, w)
    ensures buf <= out && |out| == |buf| + n * w && VectorReads(out, |buf|, w, stack, start, step, n)
  {
    hide Encode, Decode, Writable, ReadsAs, Pow256, Written, HasElems, Aligned, IsWidth;
    LengthFits(stack, start, step, n);
    out := buf;
    var k := 0;
    while k < n
      invariant 0 <= k <= n && buf <= out && |out| == |buf| + k * w
      invariant forall j :: 0 <= j < k ==>
        (ElemInStack(stack, start, step, n, j); ReadsAs(out, |buf| + j * w, w, Elem(stack, start, step, j)))
    {
      ElemInStack(stack, start, step, n, k);
      var v := Elem(stack, start, step, k);
      PlaceOf(header, k, w);
      WrittenReads(out, v, bufSize, header + k, w);
      ghost var before := out;
      out := Written(out, v, w);
      forall j | 0 <= j < k
        ensures (ElemInStack(stack, start, step, n, j); ReadsAs(out, |buf| + j * w, w, Elem(stack, start, step, j)))
      {
        ElemInStack(stack, start, step, n, j);
        ReadsAsStays(before, out, |buf| + j * w, w, Elem(stack, start, step, j));
      }
      k := k + 1;
    }
  }

  method WriteTypes(buf: seq<byte>, stack: seq<Value>, start: nat, step: nat, n: nat, w: nat) returns (out: seq<byte>)
    requires IsWidth(w) && HasElems(stack, start, step, n)
    requires forall v :: v in stack ==> IsWidth(v.minWidth) && v.ty < 64
    ensures buf <= out && |out| == |buf| + n && TypesAt(out, |buf|, w, stack, start, step, n)
  {
    out := buf;
    var k := 0;
    while k < n
      invariant 0 <= k <= n && buf <= out && |out| == |buf| + k
      invariant forall j :: 0 <= j < k ==>
        (ElemInStack(stack, start, step, n, j); out[|buf| + j] == PackedType(Elem(stack, start, step, j), w))
    {
      ElemInStack(stack, start, step, n, k);
      out := out + [PackedType(Elem(stack, start, step, k), w)];
      k := k + 1;
    }
  }

  lemma VectorStays(buf: seq<byte>, more: seq<byte>, vloc: nat, w: nat, stack: seq<Value>, start: nat, step: nat, n: nat)
    requires HasElems(stack, start, step, n) && VectorReads(buf, vloc, w, stack, start, step, n) && buf <= more
    ensures VectorReads(more, vloc, w, stack, start, step, n)
  {
    hide ReadsAs;
    forall k | 0 <= k < n
      ensures (ElemInStack(stack, start, step, n, k); ReadsAs(more, vloc + k * w, w, Elem(stack, start, step, k)))
    {
      ElemInStack(stack, start, step, n, k);
      ReadsAsStays(buf, more, vloc + k * w, w, Elem(stack, start, step, k));
    }
  }

  /** Without its length in front, a vector of fixed size is written one place earlier than it was measured. */
  lemma FixedWritable(stack: seq<Value>, start: nat, step: nat, n: nat, bufSize: nat, prefix: nat, header: nat, w: nat)
    requires HasElems(stack, start, step, n) && forall v :: v in stack ==> IsValid(v, bufSize)
    requires AllWritable(stack, start, step, n, bufSize, prefix, w) && header <= prefix && Roomy(bufSize, |stack| + 8) && prefix <= 3
    ensures IsWidth(w) ==> AllWritable(stack, start, step, n, bufSize, header, w)
  {
    hide Writable, IsWidth;
    if IsWidth(w) {
      forall k | 0 <= k < n
        ensures (ElemInStack(stack, start, step, n, k); Writable(Elem(stack, start, step, k), bufSize, header + k, w))
      {
        ElemInStack(stack, start, step, n, k);
        EnoughThere(Elem(stack, start, step, k), bufSize, prefix + k, header + k, w, w);
      }
    }
  }

  /** `CreateVector`: every element, the length, and a map's reference to its keys read back exactly, so no
      reference was ever truncated, and what was in the buffer stays. */
  method CreateVector(buf: seq<byte>, stack: seq<Value>, start: nat, n: nat, step: nat, typed: bool, fixed: bool,
                      keys: Option<Value>, force: nat)
    returns (out: seq<byte>, vloc: nat, w: nat)
    requires IsWidth(force) && HasElems(stack, start, step, n) && Roomy(|buf|, |stack| + 8)
    requires forall v :: v in stack ==> IsValid(v, |buf|)
    requires keys.Some? ==> IsValid(keys.value, |buf|) && !IsInline(keys.value.ty)
    requires fixed ==> typed && keys.None?
    ensures buf <= out && |buf| <= vloc <= |out| && IsWidth(w) && force <= w
    ensures VectorReads(out, vloc, w, stack, start, step, n)
    ensures !fixed ==> w <= vloc && ReadScalar(out, vloc - w, w) == Some(n)
    ensures keys.Some? ==> KeysRead(out, vloc, w, keys.value)
    ensures |out| <= |buf| + 32 + 9 * n
    ensures !typed ==> TypesAt(out, vloc + n * w, w, stack, start, step, n)
  {
    hide Encode, Decode, Writable, ReadsAs, Pow256, AllWritable, VectorReads, ReadScalar, KeysRead, TypesAt, HasElems, Roomy,
         HeaderSize, Aligned;
    w := VectorWidth(|buf|, stack, start, n, step, keys, force);
    var headed := WriteHeader(buf, n, fixed, keys, w);
    vloc := |headed|;
    FixedWritable(stack, start, step, n, |buf|, if keys.Some? then 3 else 1, HeaderSize(fixed, keys), w);
    var filled := WriteElems(headed, |buf|, stack, start, step, n, HeaderSize(fixed, keys), w);
    SizeBound(|buf|, w, HeaderSize(fixed, keys), n);
    out := filled;
    if !typed {
      out := WriteTypes(filled, stack, start, step, n, w);
    }
    VectorStays(filled, out, vloc, w, stack, start, step, n);
    if !fixed { ReadStays(headed, out, vloc - w, w); }
    if keys.Some? { KeysStay(headed, out, vloc, w, keys.value); }
  }

  lemma KeysStay(buf: seq<byte>, more: seq<byte>, vloc: nat, w: nat, keys: Value)
    requires KeysRead(buf, vloc, w, keys) && buf <= more && vloc <= |buf|
    ensures KeysRead(more, vloc, w, keys)
  {
    hide ReadsAs;
    ReadsAsStays(buf, more, vloc - 3 * w, w, keys);
    ReadStays(buf, more, vloc - 2 * w, w);
  }

  lemma InterleavedElems(stack: seq<Value>, start: nat, n: nat)
    requires |stack| == start + 2 * n
    ensures HasElems(stack, start, 2, n) && HasElems(stack, start + 1, 2, n)
  {
  }

  lemma StillValid(stack: seq<Value>, bufSize: nat, larger: nat)
    requires bufSize <= larger && forall v :: v in stack ==> IsValid(v, bufSize)
    ensures forall v :: v in stack ==> IsValid(v, larger)
  {
  }

  lemma SizeBound(bufSize: nat, w: nat, header: nat, n: nat)
    requires IsWidth(w) && header <= 3
    ensures Aligned(bufSize, w) + header * w + n * w + n <= bufSize + 32 + 9 * n
  {
    assert n * w <= n * 8 && header * w <= header * 8;
  }

  /** The two vectors of a map whose entries are sorted: the keys, then the values with a reference back to them. */
  method CreateMap(buf: seq<byte>, stack: seq<Value>, start: nat, n: nat, force: nat)
    returns (out: seq<byte>, vloc: nat, w: nat, keys: Value)
    requires IsWidth(force) && |stack| == start + 2 * n && Roomy(|buf|, 10 * |stack| + 100)
    requires forall v :: v in stack ==> IsValid(v, |buf|)
    ensures buf <= out && IsWidth(w) && !IsInline(keys.ty) && IsWidth(keys.minWidth) && 0 <= keys.n
    ensures w <= vloc && KeysRead(out, vloc, w, keys) && ReadScalar(out, vloc - w, w) == Some(n)
    ensures keys.minWidth <= keys.n && ReadScalar(out, keys.n - keys.minWidth, keys.minWidth) == Some(n)
    ensures vloc <= |out|
    ensures HasElems(stack, start, 2, n) && VectorReads(out, keys.n, keys.minWidth, stack, start, 2, n)
    ensures HasElems(stack, start + 1, 2, n) && VectorReads(out, vloc, w, stack, start + 1, 2, n)
    ensures TypesAt(out, vloc + n * w, w, stack, start + 1, 2, n)
  {
    hide ReadsAs, VectorReads, Encode, Decode, Pow256, ReadScalar, HasElems, KeysRead, TypesAt, Elem;
    InterleavedElems(stack, start, n);
    var keyed, kloc, kw := CreateVector(buf, stack, start, n, 2, true, false, None, force);
    keys := Value(kloc, FBT_VECTOR_KEY, kw);
    StillValid(stack, |buf|, |keyed|);
    out, vloc, w := CreateVector(keyed, stack, start + 1, n, 2, false, false, Some(keys), force);
    VectorStays(keyed, out, kloc, kw, stack, start, 2, n);
    ReadStays(keyed, out, kloc - kw, kw);
  }

  /** The root as if it were the only element of a vector, then its type and its width. */
  method WriteRoot(buf: seq<byte>, root: Value) returns (out: seq<byte>)
    requires IsValid(root, |buf|) && Roomy(|buf|, 8)
    ensures buf <= out && RootReads(out, root)
  {
    hide Encode, Decode, Writable, ReadsAs, Pow256;
    var w := ElemWidth(root, |buf|, 0);
    WidthIsEnough(root, |buf|, 0, w);
    var start := buf + Zeros(PaddingBytes(|buf|, w));
    WrittenReads(start, root, |buf|, 0, w);
    var written := Written(start, root, w);
    out := written + [PackedType(root, 1), w];
    ReadsAsStays(written, out, |start|, w, root);
  }

  /** `GetRoot` parses backwards: the width, the type, and the root item in front of them. */
  predicate RootReads(buf: seq<byte>, root: Value) {
    && 2 <= |buf|
    && var w := buf[|buf| - 1];
    && w + 2 <= |buf| && buf[|buf| - 2] == PackedType(root, 1) && ReadsAs(buf, |buf| - 2 - w, w, root)
  }
}
