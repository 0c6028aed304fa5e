/** The FlexBuffers builder: whatever is built, the finished buffer reads back as exactly that. */
module FlexBuilder {
  import opened Wrappers
  import opened Bytes
  import opened Wire
  import opened Flex
  import opened FlexTree
  import opened FlexMaps

  /** What C code sees of a character sequence. */
  function CString(s: seq<byte>): seq<byte> {
    if s == [] || s[0] == 0 then [] else [s[0]] + CString(s[1..])
  }

  lemma {:induction false} TerminatedKey(buf: seq<byte>, p: nat, chars: seq<byte>)
    requires ReadBytes(buf, p, |chars| + 1) == Some(chars + [0])
    ensures KeyAt(buf, p) == Some(CString(chars))
    decreases |chars|
  {
    var n := |chars|;
    assert buf[p..p + n + 1] == chars + [0];
    assert buf[p] == (chars + [0])[0];
    if n > 0 && chars[0] != 0 {
      assert buf[p + 1..p + 1 + n] == buf[p..p + n + 1][1..];
      assert (chars + [0])[1..] == chars[1..] + [0];
      TerminatedKey(buf, p + 1, chars[1..]);
    }
  }

  /** In a typed vector a string is read as a key. */
  function TypedItem(t: Tree): Tree {
    if t.Str? then Key(CString(t.chars)) else t
  }

  function TypedItems(items: seq<Tree>): (r: seq<Tree>)
    ensures |r| == |items| && forall i :: 0 <= i < |r| ==> r[i] == TypedItem(items[i])
  {
    seq(|items|, i requires 0 <= i < |items| => TypedItem(items[i]))
  }

  /** The values of a typed vector have one type, one that typed vectors can have; numbers if its length
      is part of its type. */
  predicate TypedOk(values: seq<Value>, fixed: bool) {
    && (forall v :: v in values ==> v.ty == VectorType(values) && IsTypedVectorElementType(v.ty))
    && (fixed ==> 2 <= |values| <= 4 && VectorType(values) <= FBT_FLOAT)
  }

  /** An empty typed vector is one of keys. */
  function VectorType(values: seq<Value>): nat {
    if values == [] then FBT_KEY else values[0].ty
  }

  predicate AllTrees(buf: seq<byte>, values: seq<Value>, trees: seq<Tree>) {
    |values| == |trees| && forall i :: 0 <= i < |values| ==> IsValid(values[i], |buf|) && Holds(buf, values[i], trees[i])
  }

  predicate PoolOk(buf: seq<byte>, pool: map<seq<byte>, nat>) {
    forall key :: key in pool ==> pool[key] < |buf| && KeyAt(buf, pool[key]) == Some(key)
  }

  /** The value of a string at an offset. */
  function StringAt(str: seq<byte>, at: nat): Value
    requires |str| < 0x1_0000_0000_0000_0000
  {
    Value(at, FBT_STRING, WidthU(|str|))
  }

  predicate StringsOk(buf: seq<byte>, pool: map<seq<byte>, nat>) {
    forall str :: str in pool ==>
      && |str| < 0x1_0000_0000_0000_0000
      && IsValid(StringAt(str, pool[str]), |buf|) && Holds(buf, StringAt(str, pool[str]), Tree.Str(str))
  }

  lemma StringsStay(buf: seq<byte>, more: seq<byte>, pool: map<seq<byte>, nat>)
    requires StringsOk(buf, pool) && buf <= more
    ensures StringsOk(more, pool)
  {
    hide Holds;
    forall str | str in pool
      ensures IsValid(StringAt(str, pool[str]), |more|) && Holds(more, StringAt(str, pool[str]), Tree.Str(str))
    {
      HoldsStays(buf, more, StringAt(str, pool[str]), Tree.Str(str));
    }
  }

  lemma AllStay(buf: seq<byte>, more: seq<byte>, values: seq<Value>, trees: seq<Tree>)
    requires AllTrees(buf, values, trees) && buf <= more
    ensures AllTrees(more, values, trees)
  {
    hide Holds;
    forall i | 0 <= i < |values|
      ensures IsValid(values[i], |more|) && Holds(more, values[i], trees[i])
    {
      HoldsStays(buf, more, values[i], trees[i]);
    }
  }

  lemma PoolStays(buf: seq<byte>, more: seq<byte>, pool: map<seq<byte>, nat>)
    requires PoolOk(buf, pool) && buf <= more
    ensures PoolOk(more, pool)
  {
    hide KeyAt;
    forall key | key in pool
      ensures pool[key] < |more| && KeyAt(more, pool[key]) == Some(key)
    {
      KeyStays(buf, more, pool[key]);
    }
  }

  lemma PushTree(buf: seq<byte>, values: seq<Value>, trees: seq<Tree>, v: Value, t: Tree)
    requires AllTrees(buf, values, trees) && IsValid(v, |buf|) && Holds(buf, v, t)
    ensures AllTrees(buf, values + [v], trees + [t])
  {
    hide Holds, IsValid;
  }

  lemma Prefix(buf: seq<byte>, values: seq<Value>, trees: seq<Tree>, start: nat)
    requires AllTrees(buf, values, trees) && start <= |values|
    ensures AllTrees(buf, values[..start], trees[..start]) && AllTrees(buf, values[start..], trees[start..])
  {
    hide Holds, IsValid;
  }

  lemma ValidValues(buf: seq<byte>, values: seq<Value>, trees: seq<Tree>)
    requires AllTrees(buf, values, trees)
    ensures forall v :: v in values ==> IsValid(v, |buf|)
  {
    hide Holds, IsValid;
  }

  lemma SameLength(buf: seq<byte>, values: seq<Value>, trees: seq<Tree>)
    requires AllTrees(buf, values, trees)
    ensures |values| == |trees|
  {
  }

  // ---- Vectors ----

  predicate ElemsHold(buf: seq<byte>, stack: seq<Value>, start: nat, step: nat, n: nat, items: seq<Tree>)
    requires HasElems(stack, start, step, n)
  {
    |items| == n && forall k :: 0 <= k < n ==>
      (ElemInStack(stack, start, step, n, k);
       var v := Elem(stack, start, step, k); IsWidth(v.minWidth) && v.ty < 64 && Holds(buf, v, items[k]))
  }

  /** The elements, with their types behind them, read as the trees they stand for. */
  lemma ItemsBuilt(buf: seq<byte>, p: nat, w: nat, stack: seq<Value>, start: nat, step: nat, n: nat, items: seq<Tree>)
    requires HasElems(stack, start, step, n) && ElemsHold(buf, stack, start, step, n, items)
    requires VectorReads(buf, p, w, stack, start, step, n) && TypesAt(buf, p + n * w, w, stack, start, step, n)
    ensures ItemsRead(buf, p, w, items)
  {
    hide Holds, ReadsAs, Reads, HasElems, PackedType, WidthOf;
    forall k | 0 <= k < n
      ensures Item(buf, p, w, n, k).Some? && Reads(buf, Item(buf, p, w, n, k).value, items[k])
    {
      ElemInStack(stack, start, step, n, k);
      var v := Elem(stack, start, step, k);
      Unpacks(v, w);
      RefReads(buf, v, items[k], p + k * w, w, WidthOf(PackedType(v, w)));
    }
  }

  /** A typed vector stores no types: its elements are read with the type its own type tells. */
  lemma TypedBuilt(buf: seq<byte>, p: nat, w: nat, values: seq<Value>, items: seq<Tree>, ty: nat)
    requires VectorReadsAt(buf, p, w, values) && AllTrees(buf, values, items)
    requires ty != FBT_STRING
    requires forall v :: v in values ==> (v.ty == ty || (ty == FBT_KEY && v.ty == FBT_STRING))
                                         && IsTypedVectorElementType(v.ty) && v.ty != FBT_FLOAT
    ensures TypedRead(buf, p, w, ty, TypedItems(items))
  {
    hide Holds, ReadsAs, Reads, IsValid;
    forall k | 0 <= k < |values|
      ensures Reads(buf, Ref(p + k * w, w, 1, ty), TypedItem(items[k]))
    {
      assert values[k] in values;
      TypedItemReads(buf, values[k], items[k], p + k * w, w, ty);
    }
  }

  lemma TypedItemReads(buf: seq<byte>, v: Value, t: Tree, pos: nat, w: nat, ty: nat)
    requires ReadsAs(buf, pos, w, v) && Holds(buf, v, t) && IsTypedVectorElementType(v.ty) && v.ty != FBT_FLOAT
    requires ty != FBT_STRING && (v.ty == ty || (ty == FBT_KEY && v.ty == FBT_STRING))
    ensures Reads(buf, Ref(pos, w, 1, ty), TypedItem(t))
  {
    hide ReadScalar, KeyAt;
    if IsInline(v.ty) {
      RefReads(buf, v, t, pos, w, 1);
    } else {
      assert Indirect(buf, Ref(pos, w, 1, ty)) == Some(v.n);
      if t.Str? { TerminatedKey(buf, v.n, t.chars); }
    }
  }

  predicate VectorReadsAt(buf: seq<byte>, p: nat, w: nat, values: seq<Value>) {
    forall k :: 0 <= k < |values| ==> ReadsAs(buf, p + k * w, w, values[k])
  }

  lemma SingleSteps(buf: seq<byte>, p: nat, w: nat, stack: seq<Value>, start: nat)
    requires start <= |stack| && HasElems(stack, start, 1, |stack| - start)
    requires VectorReads(buf, p, w, stack, start, 1, |stack| - start)
    ensures VectorReadsAt(buf, p, w, stack[start..])
  {
    hide ReadsAs;
    forall k | 0 <= k < |stack| - start
      ensures ReadsAs(buf, p + k * w, w, stack[start..][k])
    {
      ElemInStack(stack, start, 1, |stack| - start, k);
      assert Elem(stack, start, 1, k) == stack[start..][k];
    }
  }

  lemma UntypedItems(buf: seq<byte>, p: nat, w: nat, stack: seq<Value>, start: nat, items: seq<Tree>)
    requires start <= |stack| && HasElems(stack, start, 1, |stack| - start)
    requires VectorReads(buf, p, w, stack, start, 1, |stack| - start)
    requires TypesAt(buf, p + (|stack| - start) * w, w, stack, start, 1, |stack| - start)
    requires AllTrees(buf, stack[start..], items)
    ensures ItemsRead(buf, p, w, items)
  {
    hide Holds, ReadsAs, VectorReads, TypesAt, HasElems;
    var n := |stack| - start;
    forall k | 0 <= k < n
      ensures (ElemInStack(stack, start, 1, n, k);
               var v := Elem(stack, start, 1, k); IsWidth(v.minWidth) && v.ty < 64 && Holds(buf, v, items[k]))
    {
      ElemInStack(stack, start, 1, n, k);
      assert Elem(stack, start, 1, k) == stack[start..][k];
    }
    assert ElemsHold(buf, stack, start, 1, n, items);
    ItemsBuilt(buf, p, w, stack, start, 1, n, items);
  }

  /** The type of the vector CreateVector makes. */
  function MadeType(values: seq<Value>, typed: bool, fixed: bool): nat
    requires typed ==> TypedOk(values, fixed)
  {
    if !typed then FBT_VECTOR
    else if fixed then VectorType(values) - FBT_INT + FBT_VECTOR_INT2 + 3 * (|values| - 2)
    else VectorType(values) - FBT_INT + FBT_VECTOR_INT
  }

  /** What a vector on the stack stands for. */
  function MadeItems(items: seq<Tree>, typed: bool): seq<Tree> {
    if typed then TypedItems(items) else items
  }

  lemma VectorHolds(buf: seq<byte>, p: nat, w: nat, values: seq<Value>, items: seq<Tree>, typed: bool, fixed: bool)
    requires (typed ==> TypedOk(values, fixed)) && (fixed ==> typed) && AllTrees(buf, values, items)
    requires VectorReadsAt(buf, p, w, values) && (!fixed ==> SizeAt(buf, p, w, |values|))
    requires !typed ==> ItemsRead(buf, p, w, items)
    ensures Holds(buf, Value(p, MadeType(values, typed, fixed), w), Vec(MadeItems(items, typed)))
  {
    hide ItemsRead, TypedRead, VectorReadsAt, SizeAt;
    if typed {
      NoFloats(buf, values, items);
      if fixed {
        TypedBuilt(buf, p, w, values, items, VectorType(values));
      } else {
        TypedBuilt(buf, p, w, values, items, if VectorType(values) == FBT_STRING then FBT_KEY else VectorType(values));
      }
    }
  }

  lemma NoFloats(buf: seq<byte>, values: seq<Value>, items: seq<Tree>)
    requires AllTrees(buf, values, items)
    ensures forall v :: v in values ==> v.ty != FBT_FLOAT
  {
    hide Holds;
  }

  // ---- Maps ----

  /** Keys and values alternate on the stack. */
  predicate Alternates(values: seq<Value>) {
    |values| % 2 == 0 && forall i :: 0 <= i < |values| && i % 2 == 0 ==> values[i].ty == FBT_KEY
  }

  predicate KeysAlternate(trees: seq<Tree>) {
    |trees| % 2 == 0 && forall i :: 0 <= i < |trees| && i % 2 == 0 ==> trees[i].Key?
  }

  lemma KeysAreKeys(buf: seq<byte>, values: seq<Value>, trees: seq<Tree>)
    requires AllTrees(buf, values, trees) && Alternates(values)
    ensures KeysAlternate(trees)
  {
    hide KeyAt, ItemsRead, TypedRead;
  }

  function Entries(trees: seq<Tree>): (entries: seq<Entry>)
    requires KeysAlternate(trees)
    ensures |entries| == |trees| / 2
  {
    seq(|trees| / 2, i requires 0 <= i < |trees| / 2 => Entry(trees[2 * i].key, trees[2 * i + 1]))
  }

  /** The stack seen as an array of entries. */
  function Dict(values: seq<Value>): (dict: seq<TwoValue>)
    requires Alternates(values)
    ensures |dict| == |values| / 2
  {
    seq(|values| / 2, i requires 0 <= i < |values| / 2 => TwoValue(values[2 * i], values[2 * i + 1]))
  }

  function Interleaved(dict: seq<TwoValue>): (values: seq<Value>)
    ensures |values| == 2 * |dict|
  {
    seq(2 * |dict|, i requires 0 <= i < 2 * |dict| => if i % 2 == 0 then dict[i / 2].key else dict[i / 2].val)
  }

  lemma DictHolds(buf: seq<byte>, values: seq<Value>, trees: seq<Tree>)
    requires AllTrees(buf, values, trees) && Alternates(values) && KeysAlternate(trees)
    ensures AllHold(buf, Dict(values), Entries(trees))
  {
    hide Holds, IsValid;
    forall i | 0 <= i < |values| / 2
      ensures EntryHolds(buf, Dict(values)[i], Entries(trees)[i])
    {
      assert Holds(buf, values[2 * i], trees[2 * i]) && Holds(buf, values[2 * i + 1], trees[2 * i + 1]);
      assert trees[2 * i].Key? && values[2 * i].ty == FBT_KEY;
    }
  }

  lemma InterleavedValid(buf: seq<byte>, below: seq<Value>, dict: seq<TwoValue>, entries: seq<Entry>)
    requires AllHold(buf, dict, entries) && forall v :: v in below ==> IsValid(v, |buf|)
    ensures forall v :: v in below + Interleaved(dict) ==> IsValid(v, |buf|)
  {
    hide IsValid, Holds;
    forall v | v in Interleaved(dict)
      ensures IsValid(v, |buf|)
    {
      var i :| 0 <= i < 2 * |dict| && v == Interleaved(dict)[i];
      assert EntryHolds(buf, dict[i / 2], entries[i / 2]);
    }
  }

  lemma EntryAt(below: seq<Value>, dict: seq<TwoValue>, k: nat)
    requires k < |dict|
    ensures var stack := below + Interleaved(dict);
            && |below| + 1 + 2 * k < |stack|
            && Elem(stack, |below|, 2, k) == dict[k].key && Elem(stack, |below| + 1, 2, k) == dict[k].val
  {
  }

  lemma EntryStays(buf: seq<byte>, more: seq<byte>, two: TwoValue, e: Entry)
    requires EntryHolds(buf, two, e) && buf <= more
    ensures EntryHolds(more, two, e)
  {
    hide Holds;
    HoldsStays(buf, more, two.key, Key(e.key));
    HoldsStays(buf, more, two.val, e.tree);
  }

  /** The two vectors CreateMap writes, read as a map. */
  lemma MapHolds(before: seq<byte>, buf: seq<byte>, p: nat, w: nat, keys: Value, below: seq<Value>, dict: seq<TwoValue>, entries: seq<Entry>)
    requires before <= buf && AllHold(before, dict, entries) && w <= p && IsWidth(keys.minWidth) && IsWidth(w)
    requires 0 <= keys.n && keys.minWidth <= keys.n && !IsInline(keys.ty)
    requires KeysRead(buf, p, w, keys) && ReadScalar(buf, p - w, w) == Some(|dict|)
    requires ReadScalar(buf, keys.n - keys.minWidth, keys.minWidth) == Some(|dict|)
    requires var stack := below + Interleaved(dict);
             && HasElems(stack, |below|, 2, |dict|) && VectorReads(buf, keys.n, keys.minWidth, stack, |below|, 2, |dict|)
             && HasElems(stack, |below| + 1, 2, |dict|) && VectorReads(buf, p, w, stack, |below| + 1, 2, |dict|)
             && TypesAt(buf, p + |dict| * w, w, stack, |below| + 1, 2, |dict|)
    ensures Holds(buf, Value(p, FBT_MAP, w), Map(KeysOf(entries), ValuesOf(entries)))
  {
    hide ItemsRead, KeysAt, VectorReads, TypesAt, HasElems, KeysRead, AllHold, IsWidth, ReadScalar;
    assert SizeAt(buf, p, w, |dict|);
    MapValues(before, buf, p, w, below, dict, entries);
    MapKeys(before, buf, p, w, keys, below, dict, entries);
    AllHoldLength(before, dict, entries);
  }

  lemma AllHoldLength(buf: seq<byte>, dict: seq<TwoValue>, entries: seq<Entry>)
    requires AllHold(buf, dict, entries)
    ensures |dict| == |entries|
  {
  }

  lemma MapValues(before: seq<byte>, buf: seq<byte>, p: nat, w: nat, below: seq<Value>, dict: seq<TwoValue>, entries: seq<Entry>)
    requires before <= buf && AllHold(before, dict, entries)
    requires var stack := below + Interleaved(dict);
             && HasElems(stack, |below| + 1, 2, |dict|) && VectorReads(buf, p, w, stack, |below| + 1, 2, |dict|)
             && TypesAt(buf, p + |dict| * w, w, stack, |below| + 1, 2, |dict|)
    ensures ItemsRead(buf, p, w, ValuesOf(entries))
  {
    hide ItemsRead, VectorReads, TypesAt, HasElems, Holds, Interleaved;
    var stack, first, n, values := below + Interleaved(dict), |below| + 1, |dict|, ValuesOf(entries);
    forall k | 0 <= k < n
      ensures (ElemInStack(stack, first, 2, n, k);
               var v := Elem(stack, first, 2, k); IsWidth(v.minWidth) && v.ty < 64 && Holds(buf, v, values[k]))
    {
      EntryAt(below, dict, k);
      EntryStays(before, buf, dict[k], entries[k]);
    }
    assert ElemsHold(buf, stack, first, 2, n, values);
    ItemsBuilt(buf, p, w, stack, first, 2, n, values);
  }

  lemma MapKeys(before: seq<byte>, buf: seq<byte>, p: nat, w: nat, keys: Value, below: seq<Value>, dict: seq<TwoValue>, entries: seq<Entry>)
    requires before <= buf && AllHold(before, dict, entries) && IsWidth(keys.minWidth) && IsWidth(w)
    requires 0 <= keys.n && keys.minWidth <= keys.n && !IsInline(keys.ty) && KeysRead(buf, p, w, keys)
    requires ReadScalar(buf, keys.n - keys.minWidth, keys.minWidth) == Some(|dict|)
    requires var stack := below + Interleaved(dict);
             HasElems(stack, |below|, 2, |dict|) && VectorReads(buf, keys.n, keys.minWidth, stack, |below|, 2, |dict|)
    ensures KeysAt(buf, p, w, KeysOf(entries))
  {
    hide ReadScalar, HasElems, KeyAt, Elem, Interleaved;
    assert Indirect(buf, Ref(p - 3 * w, w, 1, FBT_VECTOR_KEY)) == Some(keys.n);
    assert Keys(buf, p, w) == Some((keys.n, keys.minWidth));
    var stack, n := below + Interleaved(dict), |dict|;
    forall k | 0 <= k < n
      ensures KeyText(buf, keys.n, keys.minWidth, k) == Some(KeysOf(entries)[k])
    {
      ElemInStack(stack, |below|, 2, n, k);
      EntryAt(below, dict, k);
      EntryStays(before, buf, dict[k], entries[k]);
      KeyTextIs(buf, keys.n, keys.minWidth, k, dict[k].key, entries[k].key);
    }
  }

  lemma KeyTextIs(buf: seq<byte>, at: nat, kw: nat, k: nat, v: Value, key: seq<byte>)
    requires ReadsAs(buf, at + k * kw, kw, v) && v.ty == FBT_KEY && Holds(buf, v, Key(key))
    ensures KeyText(buf, at, kw, k) == Some(key)
  {
    hide ReadScalar, KeyAt;
    assert Indirect(buf, Ref(at + k * kw, kw, 1, FBT_KEY)) == Some(v.n);
  }

  // ---- The builder ----

  class Builder {
    const shareKeys: bool
    const shareStrings: bool
    var buf: seq<byte>
    var stack: seq<Value>
    var finished: bool
    var hasDuplicateKeys: bool
    var forceMinWidth: nat
    var keyPool: map<seq<byte>, nat>
    var stringPool: map<seq<byte>, nat>
    ghost var trees: seq<Tree>

    /** Every value on the stack stands for the tree that was built. */
    ghost predicate Valid()
      reads this
    {
      IsWidth(forceMinWidth) && AllTrees(buf, stack, trees) && PoolOk(buf, keyPool) && StringsOk(buf, stringPool)
    }

    constructor (shareKeys: bool, shareStrings: bool)
      ensures Valid() && buf == [] && trees == [] && !finished && !hasDuplicateKeys && forceMinWidth == 1
    {
      this.shareKeys, this.shareStrings := shareKeys, shareStrings;
      buf, stack, finished, hasDuplicateKeys, forceMinWidth, trees := [], [], false, false, 1, [];
      keyPool, stringPool := map[], map[];
    }

    /** Forgets everything but that there were duplicate keys. */
    method Clear()
      requires Valid()
      modifies this
      ensures Valid() && buf == [] && trees == [] && !finished && forceMinWidth == 1
      ensures hasDuplicateKeys == old(hasDuplicateKeys)
    {
      buf, stack, finished, forceMinWidth, trees := [], [], false, 1, [];
      keyPool, stringPool := map[], map[];
    }

    method ForceMinimumBitWidth(w: nat)
      requires Valid() && IsWidth(w)
      modifies this`forceMinWidth
      ensures Valid() && forceMinWidth == w
    {
      forceMinWidth := w;
    }

    method PushValue(v: Value, ghost t: Tree)
      requires Valid() && IsValid(v, |buf|) && Holds(buf, v, t)
      modifies this`stack, this`trees
      ensures Valid() && trees == old(trees) + [t] && stack == old(stack) + [v]
    {
      PushTree(buf, stack, trees, v, t);
      stack, trees := stack + [v], trees + [t];
    }

    method PushNull()
      requires Valid()
      modifies this`stack, this`trees
      ensures Valid() && trees == old(trees) + [Tree.Null]
    {
      PushValue(Value(0, FBT_NULL, 1), Tree.Null);
    }

    method PushBool(b: bool)
      requires Valid()
      modifies this`stack, this`trees
      ensures Valid() && trees == old(trees) + [Tree.Bool(b)]
    {
      PushValue(Value(if b then 1 else 0, FBT_BOOL, 1), Tree.Bool(b));
    }

    method PushInt(i: int)
      requires Valid() && -0x8000_0000_0000_0000 <= i < 0x8000_0000_0000_0000
      modifies this`stack, this`trees
      ensures Valid() && trees == old(trees) + [Tree.Int(i)]
    {
      PushValue(Value(i, FBT_INT, WidthI(i)), Tree.Int(i));
    }

    method PushUInt(u: nat)
      requires Valid() && u < 0x1_0000_0000_0000_0000
      modifies this`stack, this`trees
      ensures Valid() && trees == old(trees) + [Tree.UInt(u)]
    {
      PushValue(Value(u, FBT_UINT, WidthU(u)), Tree.UInt(u));
    }

    /** Only new bytes at the end. */
    method Grow(bytes: seq<byte>)
      requires Valid()
      modifies this`buf
      ensures Valid() && buf == old(buf) + bytes
    {
      AllStay(buf, buf + bytes, stack, trees);
      PoolStays(buf, buf + bytes, keyPool);
      StringsStay(buf, buf + bytes, stringPool);
      buf := buf + bytes;
    }

    /** A key with a text known already is not written again. */
    method PushKey(str: seq<byte>)
      requires Valid()
      modifies this`buf, this`stack, this`keyPool, this`trees
      ensures Valid() && trees == old(trees) + [Tree.Key(CString(str))] && old(buf) <= buf
      ensures stack == old(stack) + [Value(stack[|stack| - 1].n, FBT_KEY, 1)]
      ensures buf == if shareKeys && CString(str) in old(keyPool) then old(buf) else old(buf) + str + [0]
    {
      hide KeyAt, AllTrees;
      var text := CString(str);
      var sloc := |buf|;
      if shareKeys && text in keyPool {
        sloc := keyPool[text];
      } else {
        Grow(str + [0]);
        assert buf == old(buf) + str + [0];
        WrittenKey(old(buf), str);
        if shareKeys { keyPool := keyPool[text := sloc]; }
      }
      PushValue(Value(sloc, FBT_KEY, 1), Tree.Key(text));
    }

    /** The length, the characters, a terminator; a string known already is not written again. */
    method PushString(str: seq<byte>)
      requires Valid() && |str| < 0x1_0000_0000_0000_0000
      modifies this`buf, this`stack, this`stringPool, this`trees
      ensures Valid() && trees == old(trees) + [Tree.Str(str)] && old(buf) <= buf
      ensures |stack| == old(|stack|) + 1 && old(stack) <= stack
      ensures shareStrings && str in old(stringPool) ==> buf == old(buf) && stack[|stack| - 1].n == old(stringPool)[str]
      ensures !(shareStrings && str in old(stringPool)) ==> |buf| > old(|buf|)
      ensures stringPool == if shareStrings then old(stringPool)[str := stack[|stack| - 1].n] else old(stringPool)
    {
      hide AllTrees, Holds;
      var sloc;
      if shareStrings && str in stringPool {
        sloc := stringPool[str];
      } else {
        sloc := WriteString(str);
        if shareStrings { stringPool := stringPool[str := sloc]; }
      }
      PushValue(StringAt(str, sloc), Tree.Str(str));
    }

    method WriteString(str: seq<byte>) returns (sloc: nat)
      requires Valid() && |str| < 0x1_0000_0000_0000_0000
      modifies this`buf
      ensures Valid() && old(buf) <= buf && |buf| > old(|buf|)
      ensures IsValid(StringAt(str, sloc), |buf|) && Holds(buf, StringAt(str, sloc), Tree.Str(str))
    {
      hide AllTrees, Encode, Decode, ReadScalar, ReadBytes;
      var w := WidthU(|str|);
      var start := buf + Zeros(PaddingBytes(|buf|, w));
      Grow(Zeros(PaddingBytes(|buf|, w)) + Stored(|str|, w) + str + [0]);
      assert buf == start + Stored(|str|, w) + (str + [0]);
      WrittenString(start, str, w);
      sloc := |start| + w;
    }

    /** The values from `start` on make way for one that stands for them all. */
    method EndVector(start: nat, typed: bool, fixed: bool) returns (vloc: nat)
      requires Valid() && start <= |stack| && Roomy(|buf|, |stack| + 8)
      requires (fixed ==> typed) && (typed ==> TypedOk(stack[start..], fixed))
      modifies this`buf, this`stack, this`trees
      ensures Valid() && old(buf) <= buf
      ensures trees == old(trees)[..start] + [Tree.Vec(MadeItems(old(trees)[start..], typed))]
    {
      hide AllTrees, VectorReads, TypesAt, ReadScalar, HasElems, Holds, TypedOk, IsValid;
      var n := |stack| - start;
      SameLength(buf, stack, trees);
      OneByOne(stack, start);
      ValidValues(buf, stack, trees);
      var out, p, w := CreateVector(buf, stack, start, n, 1, typed, fixed, None, forceMinWidth);
      AllStay(buf, out, stack, trees);
      PoolStays(buf, out, keyPool);
      StringsStay(buf, out, stringPool);
      Prefix(out, stack, trees, start);
      SingleSteps(out, p, w, stack, start);
      if !typed { UntypedItems(out, p, w, stack, start, trees[start..]); }
      VectorHolds(out, p, w, stack[start..], trees[start..], typed, fixed);
      ghost var made := Tree.Vec(MadeItems(trees[start..], typed));
      var vec := Value(p, MadeType(stack[start..], typed, fixed), w);
      MadeValid(stack[start..], typed, fixed, p, w, |out|);
      PushTree(out, stack[..start], trees[..start], vec, made);
      buf, stack, trees := out, stack[..start] + [vec], trees[..start] + [made];
      vloc := p;
    }

    /** Entries sorted by key, equal keys noticed, and put into a map that reads as these entries. */
    method EndMap(start: nat) returns (vloc: nat, ghost order: seq<Entry>)
      requires Valid() && start <= |stack| && Alternates(stack[start..]) && Roomy(|buf|, 10 * |stack| + 100)
      modifies this`buf, this`stack, this`hasDuplicateKeys, this`trees
      ensures Valid() && old(buf) <= buf
      ensures KeysAlternate(old(trees)[start..])
      ensures multiset(order) == multiset(Entries(old(trees)[start..])) && InOrder(KeysOf(order))
      ensures trees == old(trees)[..start] + [Tree.Map(KeysOf(order), ValuesOf(order))]
      ensures hasDuplicateKeys <==> old(hasDuplicateKeys) || Repeats(Entries(old(trees)[start..]))
    {
      hide AllTrees, VectorReads, TypesAt, ReadScalar, HasElems, Holds, IsValid, KeysRead, AllHold, Alternates, KeysAlternate,
           Entries, Dict, Interleaved, InOrder, Repeats;
      SameLength(buf, stack, trees);
      Prefix(buf, stack, trees, start);
      KeysAreKeys(buf, stack[start..], trees[start..]);
      DictHolds(buf, stack[start..], trees[start..]);
      var sorted, repeats;
      sorted, repeats, order := Sort(buf, Dict(stack[start..]), Entries(trees[start..]));
      hasDuplicateKeys := hasDuplicateKeys || repeats;
      ValidValues(buf, stack[..start], trees[..start]);
      InterleavedValid(buf, stack[..start], sorted, order);
      var arranged := stack[..start] + Interleaved(sorted);
      SizeOfDict(stack[start..]);
      var out, p, w, keys := CreateMap(buf, arranged, start, |sorted|, forceMinWidth);
      MapHolds(buf, out, p, w, keys, stack[..start], sorted, order);
      AllStay(buf, out, stack[..start], trees[..start]);
      PoolStays(buf, out, keyPool);
      StringsStay(buf, out, stringPool);
      ghost var made := Tree.Map(KeysOf(order), ValuesOf(order));
      var mapValue := Value(p, FBT_MAP, w);
      MapValid(p, w, |out|);
      PushTree(out, stack[..start], trees[..start], mapValue, made);
      buf, stack, trees := out, stack[..start] + [mapValue], trees[..start] + [made];
      vloc := p;
    }

    /** The round trip: the accessors, started at the root of the finished buffer, find the tree built. */
    method Finish()
      requires Valid() && |stack| == 1 && Roomy(|buf|, 8)
      modifies this`buf, this`finished
      ensures Valid() && finished && old(buf) <= buf && trees == old(trees) && |trees| == 1
      ensures FlexTree.GetRoot(buf).Some? && Reads(buf, FlexTree.GetRoot(buf).value, trees[0])
    {
      hide Holds, Reads, ReadsAs;
      var root := stack[0];
      var out := WriteRoot(buf, root);
      AllStay(buf, out, stack, trees);
      PoolStays(buf, out, keyPool);
      StringsStay(buf, out, stringPool);
      RootIs(out, root, trees[0]);
      buf, finished := out, true;
    }
  }

  lemma WrittenKey(buf: seq<byte>, str: seq<byte>)
    ensures KeyAt(buf + str + [0], |buf|) == Some(CString(str))
  {
    var out := buf + str + [0];
    assert out[|buf|..|buf| + |str| + 1] == str + [0];
    TerminatedKey(out, |buf|, str);
  }

  lemma WrittenString(start: seq<byte>, str: seq<byte>, w: nat)
    requires IsWidth(w) && |str| < Pow256(w)
    ensures var out := start + Stored(|str|, w) + (str + [0]);
            At(out, |start| + w, w, FBT_STRING, Tree.Str(str))
  {
    hide ReadScalar, Stored, Pow256;
    var sized := start + Stored(|str|, w);
    var out := sized + (str + [0]);
    StoredReads(start, |str|, w);
    SmallMod(|str|, Pow256(w));
    ScalarStays(sized, out, |start|, w);
    assert SizeAt(out, |start| + w, w, |str|);
    Behind(sized, str + [0]);
  }

  lemma Behind(front: seq<byte>, bytes: seq<byte>)
    ensures ReadBytes(front + bytes, |front|, |bytes|) == Some(bytes)
  {
    assert (front + bytes)[|front|..|front| + |bytes|] == bytes;
  }

  lemma OneByOne(stack: seq<Value>, start: nat)
    requires start <= |stack|
    ensures HasElems(stack, start, 1, |stack| - start)
  {
  }

  lemma MadeValid(values: seq<Value>, typed: bool, fixed: bool, p: nat, w: nat, size: nat)
    requires (typed ==> TypedOk(values, fixed)) && IsWidth(w) && p <= size
    ensures IsValid(Value(p, MadeType(values, typed, fixed), w), size)
  {
    if typed && values != [] { assert values[0] in values; }
  }

  lemma MapValid(p: nat, w: nat, size: nat)
    requires IsWidth(w) && p <= size
    ensures IsValid(Value(p, FBT_MAP, w), size)
  {
  }

  lemma SizeOfDict(values: seq<Value>)
    requires Alternates(values)
    ensures 2 * |Dict(values)| == |values|
  {
  }

  lemma RootIs(buf: seq<byte>, root: Value, t: Tree)
    requires RootReads(buf, root) && IsWidth(root.minWidth) && root.ty < 64 && Holds(buf, root, t)
    ensures FlexTree.GetRoot(buf).Some? && Reads(buf, FlexTree.GetRoot(buf).value, t)
  {
    hide Holds, Reads, ReadsAs, PackedType, WidthOf;
    Unpacks(root, 1);
    RefReads(buf, root, t, FlexTree.GetRoot(buf).value.pos, FlexTree.GetRoot(buf).value.parentWidth, WidthOf(PackedType(root, 1)));
  }
}
