/** The accessors of FlexBuffers, and what it means for a buffer to read as a tree. */
module FlexTree {
  import opened Wrappers
  import opened Bytes
  import opened Wire
  import opened Flex

  const FBT_STRING: nat := 5
  const FBT_MAP: nat := 9
  const FBT_VECTOR: nat := 10
  const FBT_VECTOR_INT: nat := 11
  const FBT_VECTOR_STRING_DEPRECATED: nat := 15
  const FBT_VECTOR_INT2: nat := 16
  const FBT_VECTOR_FLOAT4: nat := 24
  const FBT_VECTOR_BOOL: nat := 36

  predicate IsTypedVectorElementType(ty: nat) {
    FBT_INT <= ty <= FBT_STRING || ty == FBT_BOOL
  }

  predicate IsTypedVector(ty: nat) {
    FBT_VECTOR_INT <= ty <= FBT_VECTOR_STRING_DEPRECATED || ty == FBT_VECTOR_BOOL
  }

  predicate IsFixedTypedVector(ty: nat) {
    FBT_VECTOR_INT2 <= ty <= FBT_VECTOR_FLOAT4
  }

  /** The type of a typed vector, of any length or of a fixed one; `None` is a failed assertion. */
  function ToTypedVector(ty: nat, fixedLen: nat): Option<nat> {
    if !IsTypedVectorElementType(ty) then None
    else if fixedLen == 0 then Some(ty - FBT_INT + FBT_VECTOR_INT)
    else if 2 <= fixedLen <= 4 then Some(ty - FBT_INT + FBT_VECTOR_INT2 + 3 * (fixedLen - 2))
    else None
  }

  /** Strings of a typed vector are read as keys. */
  function ToTypedVectorElementType(ty: nat): nat
    requires IsTypedVector(ty)
  {
    if ty == FBT_VECTOR_STRING_DEPRECATED then FBT_KEY else ty - FBT_VECTOR_INT + FBT_INT
  }

  /** The element type and the length of a typed vector of fixed length. */
  function ToFixedTypedVectorElementType(ty: nat): (nat, nat)
    requires IsFixedTypedVector(ty)
  {
    ((ty - FBT_VECTOR_INT2) % 3 + FBT_INT, (ty - FBT_VECTOR_INT2) / 3 + 2)
  }

  /** A vector of fixed length keeps its element type and its length exactly if it holds numbers; keys,
      strings and booleans, which pass the same assertion, come back as something else. */
  lemma FixedTypes(ty: nat, len: nat)
    requires ToTypedVector(ty, len).Some? && len > 0
    ensures (IsFixedTypedVector(ToTypedVector(ty, len).value)
             && ToFixedTypedVectorElementType(ToTypedVector(ty, len).value) == (ty, len))
       <==> ty <= FBT_FLOAT
  {
  }

  // ---- Accessors ----

  /** `Reference`: where the item is, how wide its vector's elements are, and its own width and type. */
  datatype Ref = Ref(pos: nat, parentWidth: nat, byteWidth: nat, ty: nat)

  function WidthOf(packed: nat): nat {
    [1, 2, 4, 8][packed % 4]
  }

  function Indirect(buf: seq<byte>, r: Ref): Option<nat> {
    var off :- ReadScalar(buf, r.pos, r.parentWidth);
    if off <= r.pos then Some(r.pos - off) else None
  }

  /** `Vector::operator[]` within bounds. */
  function Item(buf: seq<byte>, p: nat, w: nat, size: nat, i: nat): Option<Ref> {
    var at := p + size * w + i;
    if at < |buf| then Some(Ref(p + i * w, w, WidthOf(buf[at]), buf[at] / 4)) else None
  }

  /** A NUL-terminated string. */
  function KeyAt(buf: seq<byte>, p: nat): (key: Option<seq<byte>>)
    decreases |buf| - p
  {
    if p >= |buf| then None
    else if buf[p] == 0 then Some([])
    else
      var rest :- KeyAt(buf, p + 1);
      Some([buf[p]] + rest)
  }

  /** Where the keys of the map at `p` are, and how wide the references to them. */
  function Keys(buf: seq<byte>, p: nat, w: nat): Option<(nat, nat)> {
    if p < 3 * w then None
    else
      var at :- Indirect(buf, Ref(p - 3 * w, w, 1, FBT_VECTOR_KEY));
      var kw :- ReadScalar(buf, p - 2 * w, w);
      Some((at, kw % 256))
  }

  /** The text of the `i`-th key, `KeyCompare`'s view of it. */
  function KeyText(buf: seq<byte>, at: nat, kw: nat, i: nat): Option<seq<byte>> {
    var p :- Indirect(buf, Ref(at + i * kw, kw, 1, FBT_KEY));
    KeyAt(buf, p)
  }

  /** `read_size` of what starts at `p`. */
  predicate SizeAt(buf: seq<byte>, p: nat, w: nat, n: nat) {
    w <= p && ReadScalar(buf, p - w, w) == Some(n)
  }

  function GetRoot(buf: seq<byte>): Option<Ref> {
    if |buf| < 2 then None
    else
      var w: nat, packed: nat := buf[|buf| - 1], buf[|buf| - 2];
      if |buf| < 2 + w then None else Some(Ref(|buf| - 2 - w, w, WidthOf(packed), packed / 4))
  }

  // ---- Trees ----

  /** What a builder is given, and a reader finds; a map's entries are in the order of their keys. */
  datatype Tree =
    | Null
    | Bool(b: bool)
    | Int(i: int)
    | UInt(u: nat)
    | Key(key: seq<byte>)
    | Str(chars: seq<byte>)
    | Vec(items: seq<Tree>)
    | Map(keys: seq<seq<byte>>, values: seq<Tree>)

  /** The accessors, started at `r`, find `t`. */
  predicate Reads(buf: seq<byte>, r: Ref, t: Tree)
    decreases t, 1
  {
    match t
    case Null => r.ty == FBT_NULL
    case Bool(b) => r.ty == FBT_BOOL && ReadScalar(buf, r.pos, r.parentWidth) == Some(if b then 1 else 0)
    case Int(i) =>
      var got := ReadScalar(buf, r.pos, r.parentWidth);
      r.ty == FBT_INT && got.Some? && Signed(got.value, r.parentWidth) == i
    case UInt(u) => r.ty == FBT_UINT && ReadScalar(buf, r.pos, r.parentWidth) == Some(u)
    case _ => !IsInline(r.ty) && Indirect(buf, r).Some? && At(buf, Indirect(buf, r).value, r.byteWidth, r.ty, t)
  }

  /** What a reference of width `w` and type `ty` leads to. */
  predicate At(buf: seq<byte>, p: nat, w: nat, ty: nat, t: Tree)
    decreases t, 0
  {
    match t
    case Key(key) => ty == FBT_KEY && KeyAt(buf, p) == Some(key)
    case Str(chars) => ty == FBT_STRING && SizeAt(buf, p, w, |chars|) && ReadBytes(buf, p, |chars| + 1) == Some(chars + [0])
    case Vec(items) =>
      if ty == FBT_VECTOR then SizeAt(buf, p, w, |items|) && ItemsRead(buf, p, w, items)
      else if IsTypedVector(ty) then SizeAt(buf, p, w, |items|) && TypedRead(buf, p, w, ToTypedVectorElementType(ty), items)
      else IsFixedTypedVector(ty) && |items| == ToFixedTypedVectorElementType(ty).1
           && TypedRead(buf, p, w, ToFixedTypedVectorElementType(ty).0, items)
    case Map(keys, values) =>
      ty == FBT_MAP && |keys| == |values| && SizeAt(buf, p, w, |values|) && KeysAt(buf, p, w, keys) && ItemsRead(buf, p, w, values)
    case _ => false
  }

  predicate ItemsRead(buf: seq<byte>, p: nat, w: nat, items: seq<Tree>)
    decreases items, 0
  {
    forall k :: 0 <= k < |items| ==>
      Item(buf, p, w, |items|, k).Some? && Reads(buf, Item(buf, p, w, |items|, k).value, items[k])
  }

  predicate TypedRead(buf: seq<byte>, p: nat, w: nat, ty: nat, items: seq<Tree>)
    decreases items, 0
  {
    forall k :: 0 <= k < |items| ==> Reads(buf, Ref(p + k * w, w, 1, ty), items[k])
  }

  predicate KeysAt(buf: seq<byte>, p: nat, w: nat, keys: seq<seq<byte>>) {
    var found := Keys(buf, p, w);
    && found.Some? && IsWidth(found.value.1) && SizeAt(buf, found.value.0, found.value.1, |keys|)
    && forall k :: 0 <= k < |keys| ==> KeyText(buf, found.value.0, found.value.1, k) == Some(keys[k])
  }

  // ---- A longer buffer reads the same ----

  lemma BytesStay(buf: seq<byte>, more: seq<byte>, pos: int, n: nat)
    requires ReadBytes(buf, pos, n).Some? && buf <= more
    ensures ReadBytes(more, pos, n) == ReadBytes(buf, pos, n)
  {
    assert more[pos..pos + n] == buf[pos..pos + n];
  }

  lemma ScalarStays(buf: seq<byte>, more: seq<byte>, pos: int, w: nat)
    requires ReadScalar(buf, pos, w).Some? && buf <= more
    ensures ReadScalar(more, pos, w) == ReadScalar(buf, pos, w)
  {
    BytesStay(buf, more, pos, w);
  }

  lemma {:induction false} KeyStays(buf: seq<byte>, more: seq<byte>, p: nat)
    requires KeyAt(buf, p).Some? && buf <= more
    ensures KeyAt(more, p) == KeyAt(buf, p)
    decreases |buf| - p
  {
    if buf[p] != 0 { KeyStays(buf, more, p + 1); }
  }

  lemma IndirectStays(buf: seq<byte>, more: seq<byte>, r: Ref)
    requires Indirect(buf, r).Some? && buf <= more
    ensures Indirect(more, r) == Indirect(buf, r)
  {
    ScalarStays(buf, more, r.pos, r.parentWidth);
  }

  lemma SizeStays(buf: seq<byte>, more: seq<byte>, p: nat, w: nat, n: nat)
    requires SizeAt(buf, p, w, n) && buf <= more
    ensures SizeAt(more, p, w, n)
  {
    ScalarStays(buf, more, p - w, w);
  }

  lemma KeysAtStay(buf: seq<byte>, more: seq<byte>, p: nat, w: nat, keys: seq<seq<byte>>)
    requires KeysAt(buf, p, w, keys) && buf <= more
    ensures KeysAt(more, p, w, keys)
  {
    hide KeyAt, ReadScalar;
    IndirectStays(buf, more, Ref(p - 3 * w, w, 1, FBT_VECTOR_KEY));
    ScalarStays(buf, more, p - 2 * w, w);
    var (at, kw) := Keys(buf, p, w).value;
    SizeStays(buf, more, at, kw, |keys|);
    forall k | 0 <= k < |keys|
      ensures KeyText(more, at, kw, k) == Some(keys[k])
    {
      assert KeyText(buf, at, kw, k) == Some(keys[k]);
      var r := Ref(at + k * kw, kw, 1, FBT_KEY);
      IndirectStays(buf, more, r);
      KeyStays(buf, more, Indirect(buf, r).value);
    }
  }

  lemma {:induction false} ReadsStays(buf: seq<byte>, more: seq<byte>, r: Ref, t: Tree)
    requires Reads(buf, r, t) && buf <= more
    ensures Reads(more, r, t)
    decreases t, 1
  {
    hide ReadScalar, At;
    match t
    case Null =>
    case Bool(_) => ScalarStays(buf, more, r.pos, r.parentWidth);
    case Int(_) => ScalarStays(buf, more, r.pos, r.parentWidth);
    case UInt(_) => ScalarStays(buf, more, r.pos, r.parentWidth);
    case _ =>
      IndirectStays(buf, more, r);
      AtStays(buf, more, Indirect(buf, r).value, r.byteWidth, r.ty, t);
  }

  lemma {:induction false} AtStays(buf: seq<byte>, more: seq<byte>, p: nat, w: nat, ty: nat, t: Tree)
    requires At(buf, p, w, ty, t) && buf <= more
    ensures At(more, p, w, ty, t)
    decreases t, 0
  {
    hide ReadScalar, ReadBytes, KeyAt, ItemsRead, TypedRead, KeysAt, SizeAt;
    match t
    case Key(_) => KeyStays(buf, more, p);
    case Str(chars) =>
      SizeStays(buf, more, p, w, |chars|);
      BytesStay(buf, more, p, |chars| + 1);
    case Vec(items) =>
      if ty == FBT_VECTOR {
        SizeStays(buf, more, p, w, |items|);
        ItemsStay(buf, more, p, w, items);
      } else if IsTypedVector(ty) {
        SizeStays(buf, more, p, w, |items|);
        TypedStays(buf, more, p, w, ToTypedVectorElementType(ty), items);
      } else {
        TypedStays(buf, more, p, w, ToFixedTypedVectorElementType(ty).0, items);
      }
    case Map(keys, values) =>
      SizeStays(buf, more, p, w, |values|);
      KeysAtStay(buf, more, p, w, keys);
      ItemsStay(buf, more, p, w, values);
  }

  lemma {:induction false} ItemsStay(buf: seq<byte>, more: seq<byte>, p: nat, w: nat, items: seq<Tree>)
    requires ItemsRead(buf, p, w, items) && buf <= more
    ensures ItemsRead(more, p, w, items)
    decreases items, 0
  {
    hide Reads, Item;
    forall k | 0 <= k < |items|
      ensures Item(more, p, w, |items|, k).Some? && Reads(more, Item(more, p, w, |items|, k).value, items[k])
    {
      ItemStays(buf, more, p, w, |items|, k);
      ReadsStays(buf, more, Item(buf, p, w, |items|, k).value, items[k]);
    }
  }

  lemma ItemStays(buf: seq<byte>, more: seq<byte>, p: nat, w: nat, size: nat, k: nat)
    requires Item(buf, p, w, size, k).Some? && buf <= more
    ensures Item(more, p, w, size, k) == Item(buf, p, w, size, k)
  {
  }

  lemma {:induction false} TypedStays(buf: seq<byte>, more: seq<byte>, p: nat, w: nat, ty: nat, items: seq<Tree>)
    requires TypedRead(buf, p, w, ty, items) && buf <= more
    ensures TypedRead(more, p, w, ty, items)
    decreases items, 0
  {
    hide Reads;
    forall k | 0 <= k < |items|
      ensures Reads(more, Ref(p + k * w, w, 1, ty), items[k])
    {
      ReadsStays(buf, more, Ref(p + k * w, w, 1, ty), items[k]);
    }
  }

  // ---- A buffer reads as one tree at most ----

  lemma {:induction false} ReadsOne(buf: seq<byte>, r: Ref, t: Tree, u: Tree)
    requires Reads(buf, r, t) && Reads(buf, r, u)
    ensures t == u
    decreases t, 1
  {
    hide ReadScalar, Decode, At, Signed, Indirect;
    if t.Null? || t.Bool? || t.Int? || t.UInt? {
    } else {
      AtOne(buf, Indirect(buf, r).value, r.byteWidth, r.ty, t, u);
    }
  }

  lemma {:induction false} AtOne(buf: seq<byte>, p: nat, w: nat, ty: nat, t: Tree, u: Tree)
    requires At(buf, p, w, ty, t) && At(buf, p, w, ty, u)
    ensures t == u
    decreases t, 0
  {
    hide ReadScalar, KeyAt, ItemsRead, TypedRead, KeysAt;
    match t
    case Key(_) =>
    case Str(chars) =>
      assert (chars + [0])[..|chars|] == chars && (u.chars + [0])[..|u.chars|] == u.chars;
    case Vec(items) =>
      if ty == FBT_VECTOR {
        ItemsOne(buf, p, w, items, u.items);
      } else if IsTypedVector(ty) {
        TypedOne(buf, p, w, ToTypedVectorElementType(ty), items, u.items);
      } else {
        TypedOne(buf, p, w, ToFixedTypedVectorElementType(ty).0, items, u.items);
      }
    case Map(keys, values) =>
      ItemsOne(buf, p, w, values, u.values);
      KeysOne(buf, p, w, keys, u.keys);
  }

  lemma {:induction false} ItemsOne(buf: seq<byte>, p: nat, w: nat, items: seq<Tree>, others: seq<Tree>)
    requires ItemsRead(buf, p, w, items) && ItemsRead(buf, p, w, others) && |items| == |others|
    ensures items == others
    decreases items, 0
  {
    hide Reads, Item;
    forall k | 0 <= k < |items|
      ensures items[k] == others[k]
    {
      ReadsOne(buf, Item(buf, p, w, |items|, k).value, items[k], others[k]);
    }
  }

  lemma {:induction false} TypedOne(buf: seq<byte>, p: nat, w: nat, ty: nat, items: seq<Tree>, others: seq<Tree>)
    requires TypedRead(buf, p, w, ty, items) && TypedRead(buf, p, w, ty, others) && |items| == |others|
    ensures items == others
    decreases items, 0
  {
    hide Reads;
    forall k | 0 <= k < |items|
      ensures items[k] == others[k]
    {
      ReadsOne(buf, Ref(p + k * w, w, 1, ty), items[k], others[k]);
    }
  }

  lemma KeysOne(buf: seq<byte>, p: nat, w: nat, keys: seq<seq<byte>>, others: seq<seq<byte>>)
    requires KeysAt(buf, p, w, keys) && KeysAt(buf, p, w, others) && |keys| == |others|
    ensures keys == others
  {
    hide Keys, KeyText;
    var (at, kw) := Keys(buf, p, w).value;
    forall k | 0 <= k < |keys|
      ensures keys[k] == others[k]
    {
      assert KeyText(buf, at, kw, k) == Some(keys[k]);
    }
  }

  // ---- Values on the builder's stack ----

  predicate InlineIs(v: Value, t: Tree) {
    match t
    case Null => v.ty == FBT_NULL
    case Bool(b) => v.ty == FBT_BOOL && v.n == if b then 1 else 0
    case Int(i) => v.ty == FBT_INT && v.n == i
    case UInt(u) => v.ty == FBT_UINT && v.n == u
    case _ => false
  }

  /** A value stands for a tree: it is it, or what it refers to reads as it. */
  predicate Holds(buf: seq<byte>, v: Value, t: Tree) {
    if IsInline(v.ty) then InlineIs(v, t) else 0 <= v.n && At(buf, v.n, v.minWidth, v.ty, t)
  }

  lemma HoldsStays(buf: seq<byte>, more: seq<byte>, v: Value, t: Tree)
    requires Holds(buf, v, t) && buf <= more
    ensures Holds(more, v, t)
  {
    hide At;
    if !IsInline(v.ty) { AtStays(buf, more, v.n, v.minWidth, v.ty, t); }
  }

  /** Where a value was written, a reader finds its tree. */
  lemma RefReads(buf: seq<byte>, v: Value, t: Tree, pos: nat, w: nat, bw: nat)
    requires Holds(buf, v, t) && ReadsAs(buf, pos, w, v) && (IsInline(v.ty) || bw == v.minWidth)
    ensures Reads(buf, Ref(pos, w, bw, v.ty), t)
  {
    hide ReadScalar;
    if !IsInline(v.ty) {
      assert Indirect(buf, Ref(pos, w, bw, v.ty)) == Some(v.n);
    }
  }

  /** The packed type of a value gives its type back, and its width if it is a reference. */
  lemma Unpacks(v: Value, w: nat)
    requires IsWidth(v.minWidth) && v.ty < 64
    ensures PackedType(v, w) / 4 == v.ty && (!IsInline(v.ty) ==> WidthOf(PackedType(v, w)) == v.minWidth)
  {
  }

  /** Its lower two bits are the logarithm of the width; a number is as wide as its vector at least. */
  lemma PackedWidth(v: Value, w: nat)
    requires IsWidth(v.minWidth) && IsWidth(w)
    ensures var width := if IsInline(v.ty) && v.minWidth < w then w else v.minWidth;
            && WidthOf(PackedType(v, w)) == width
            && (PackedType(v, w) % 4 == 0 <==> width == 1) && (PackedType(v, w) % 4 == 1 <==> width == 2)
            && (PackedType(v, w) % 4 == 2 <==> width == 4) && (PackedType(v, w) % 4 == 3 <==> width == 8)
  {
  }
}
