/** Maps of FlexBuffers: the order of their keys, sorting them, and looking a key up. */
module FlexMaps {
  import opened Wrappers
  import opened Bytes
  import opened Wire
  import opened Flex
  import opened FlexTree

  // ---- strcmp ----

  function StrCmp(a: seq<byte>, b: seq<byte>): int {
    if a == [] then if b == [] then 0 else -1
    else if b == [] then 1
    else if a[0] != b[0] then a[0] - b[0]
    else StrCmp(a[1..], b[1..])
  }

  lemma {:induction false} CmpZero(a: seq<byte>, b: seq<byte>)
    ensures StrCmp(a, b) == 0 <==> a == b
  {
    if a != [] && b != [] && a[0] == b[0] {
      CmpZero(a[1..], b[1..]);
      assert a == [a[0]] + a[1..] && b == [b[0]] + b[1..];
    }
  }

  lemma {:induction false} CmpSwap(a: seq<byte>, b: seq<byte>)
    ensures StrCmp(b, a) == 0 - StrCmp(a, b)
  {
    if a != [] && b != [] && a[0] == b[0] { CmpSwap(a[1..], b[1..]); }
  }

  lemma {:induction false} CmpTrans(a: seq<byte>, b: seq<byte>, c: seq<byte>)
    requires StrCmp(a, b) <= 0 && StrCmp(b, c) <= 0
    ensures StrCmp(a, c) <= 0 && (StrCmp(a, b) < 0 || StrCmp(b, c) < 0 ==> StrCmp(a, c) < 0)
  {
    if a != [] && b != [] && c != [] && a[0] == b[0] == c[0] { CmpTrans(a[1..], b[1..], c[1..]); }
  }

  /** The texts agree up to `i`, where the first one ends or has the smaller byte. */
  predicate SmallerAt(a: seq<byte>, b: seq<byte>, i: nat) {
    i <= |a| && i < |b| && a[..i] == b[..i] && (i == |a| || a[i] < b[i])
  }

  /** The order of keys is that of a dictionary. */
  lemma {:induction false} CmpIsDictionary(a: seq<byte>, b: seq<byte>)
    ensures StrCmp(a, b) < 0 <==> exists i: nat :: SmallerAt(a, b, i)
  {
    if a != [] && b != [] && a[0] == b[0] {
      CmpIsDictionary(a[1..], b[1..]);
      if i: nat :| SmallerAt(a[1..], b[1..], i) {
        assert a[..i + 1] == [a[0]] + a[1..][..i] && b[..i + 1] == [b[0]] + b[1..][..i];
        assert SmallerAt(a, b, i + 1);
      }
      if i: nat :| SmallerAt(a, b, i) {
        assert a[1..][..i - 1] == a[..i][1..] && b[1..][..i - 1] == b[..i][1..];
        assert SmallerAt(a[1..], b[1..], i - 1);
      }
    } else if StrCmp(a, b) < 0 {
      assert SmallerAt(a, b, 0);
    } else {
      forall i: nat | 0 < i <= |a| && i < |b|
        ensures a[..i] != b[..i]
      {
        assert a[..i][0] != b[..i][0];
      }
    }
  }

  // ---- Entries ----

  /** An entry as it lies on the builder's stack, and what it stands for. */
  datatype TwoValue = TwoValue(key: Value, val: Value)
  datatype Entry = Entry(key: seq<byte>, tree: Tree)

  predicate EntryHolds(buf: seq<byte>, two: TwoValue, e: Entry) {
    && two.key.ty == FBT_KEY && Holds(buf, two.key, Key(e.key)) && IsValid(two.key, |buf|)
    && Holds(buf, two.val, e.tree) && IsValid(two.val, |buf|)
  }

  predicate AllHold(buf: seq<byte>, dict: seq<TwoValue>, entries: seq<Entry>) {
    |dict| == |entries| && forall i :: 0 <= i < |dict| ==> EntryHolds(buf, dict[i], entries[i])
  }

  function KeysOf(entries: seq<Entry>): (keys: seq<seq<byte>>)
    ensures |keys| == |entries| && forall i :: 0 <= i < |keys| ==> keys[i] == entries[i].key
  {
    seq(|entries|, i requires 0 <= i < |entries| => entries[i].key)
  }

  function ValuesOf(entries: seq<Entry>): (values: seq<Tree>)
    ensures |values| == |entries| && forall i :: 0 <= i < |values| ==> values[i] == entries[i].tree
  {
    seq(|entries|, i requires 0 <= i < |entries| => entries[i].tree)
  }

  predicate InOrder(keys: seq<seq<byte>>) {
    forall i, j :: 0 <= i < j < |keys| ==> StrCmp(keys[i], keys[j]) <= 0
  }

  predicate HasKey(entries: seq<Entry>, key: seq<byte>) {
    exists i :: 0 <= i < |entries| && entries[i].key == key
  }

  /** Two entries have the same key. */
  predicate Repeats(entries: seq<Entry>) {
    exists i, j :: 0 <= i < j < |entries| && entries[i].key == entries[j].key
  }

  // ---- Sorting ----

  function InsertAt<T>(s: seq<T>, i: nat, x: T): (r: seq<T>)
    requires i <= |s|
    ensures |r| == |s| + 1
  {
    s[..i] + [x] + s[i..]
  }

  lemma InsertKeeps<T>(s: seq<T>, i: nat, x: T)
    requires i <= |s|
    ensures multiset(InsertAt(s, i, x)) == multiset(s) + multiset{x}
  {
    assert s == s[..i] + s[i..];
  }

  /** Where an entry belongs: behind all that are not greater.  The comparison notes equal keys. */
  method FindPlace(buf: seq<byte>, sorted: seq<TwoValue>, key: Value, ghost order: seq<Entry>, ghost text: seq<byte>)
    returns (place: nat, equal: bool)
    requires AllHold(buf, sorted, order) && InOrder(KeysOf(order))
    requires key.ty == FBT_KEY && Holds(buf, key, Key(text))
    ensures place <= |sorted| && (equal <==> HasKey(order, text))
    ensures forall i :: 0 <= i < place ==> StrCmp(order[i].key, text) <= 0
    ensures forall i :: place <= i < |order| ==> StrCmp(text, order[i].key) < 0
  {
    hide StrCmp, KeyAt, IsValid;
    place, equal := |sorted|, false;
    while place > 0
      invariant place <= |sorted| && !equal
      invariant forall i :: place <= i < |order| ==> StrCmp(text, order[i].key) < 0
    {
      assert EntryHolds(buf, sorted[place - 1], order[place - 1]);
      var other := KeyAt(buf, sorted[place - 1].key.n).value;
      var comp := StrCmp(KeyAt(buf, key.n).value, other);
      CmpZero(text, other);
      CmpSwap(text, other);
      if comp >= 0 {
        equal := comp == 0;
        break;
      }
      place := place - 1;
    }
    PlaceFound(order, text, place);
  }

  lemma PlaceFound(order: seq<Entry>, text: seq<byte>, place: nat)
    requires place <= |order| && InOrder(KeysOf(order))
    requires place > 0 ==> StrCmp(order[place - 1].key, text) <= 0
    requires forall i :: place <= i < |order| ==> StrCmp(text, order[i].key) < 0
    ensures forall i :: 0 <= i < place ==> StrCmp(order[i].key, text) <= 0
    ensures HasKey(order, text) <==> place > 0 && order[place - 1].key == text
  {
    hide StrCmp;
    var keys := KeysOf(order);
    forall i | 0 <= i < place
      ensures StrCmp(order[i].key, text) <= 0
      ensures order[i].key == text ==> order[place - 1].key == text
    {
      if i < place - 1 {
        assert StrCmp(keys[i], keys[place - 1]) <= 0;
        CmpTrans(keys[i], keys[place - 1], text);
        CmpZero(order[i].key, text);
        CmpZero(order[place - 1].key, text);
      }
    }
    CmpZero(text, text);
  }

  lemma StillInOrder(order: seq<Entry>, place: nat, e: Entry)
    requires place <= |order| && InOrder(KeysOf(order))
    requires forall i :: 0 <= i < place ==> StrCmp(order[i].key, e.key) <= 0
    requires forall i :: place <= i < |order| ==> StrCmp(e.key, order[i].key) < 0
    ensures InOrder(KeysOf(InsertAt(order, place, e)))
  {
    hide StrCmp;
    var keys, news := KeysOf(order), KeysOf(InsertAt(order, place, e));
    forall i, j | 0 <= i < j < |news|
      ensures StrCmp(news[i], news[j]) <= 0
    {
      if i != place && j != place {
        assert StrCmp(keys[if i < place then i else i - 1], keys[if j < place then j else j - 1]) <= 0;
      }
    }
  }

  lemma SameKeys(a: seq<Entry>, b: seq<Entry>, key: seq<byte>)
    requires multiset(a) == multiset(b) && HasKey(a, key)
    ensures HasKey(b, key)
  {
    var i :| 0 <= i < |a| && a[i].key == key;
    assert a[i] in multiset(b);
  }

  lemma RepeatsOneMore(entries: seq<Entry>, i: nat)
    requires i < |entries|
    ensures Repeats(entries[..i + 1]) <==> Repeats(entries[..i]) || HasKey(entries[..i], entries[i].key)
  {
    if Repeats(entries[..i]) {
      var a, b :| 0 <= a < b < i && entries[..i][a].key == entries[..i][b].key;
      assert entries[..i + 1][a].key == entries[..i + 1][b].key;
    }
    if HasKey(entries[..i], entries[i].key) {
      var a :| 0 <= a < i && entries[..i][a].key == entries[i].key;
      assert entries[..i + 1][a].key == entries[..i + 1][i].key;
    }
    if Repeats(entries[..i + 1]) {
      var a, b :| 0 <= a < b < i + 1 && entries[..i + 1][a].key == entries[..i + 1][b].key;
      assert entries[..i][a].key == entries[a].key;
      if b < i { assert entries[..i][b].key == entries[b].key; }
    }
  }

  /** `std::sort` with EndMap's comparison: the same entries by key, and whether some key came up twice. */
  method Sort(buf: seq<byte>, dict: seq<TwoValue>, ghost entries: seq<Entry>)
    returns (sorted: seq<TwoValue>, repeats: bool, ghost order: seq<Entry>)
    requires AllHold(buf, dict, entries)
    ensures AllHold(buf, sorted, order) && multiset(order) == multiset(entries) && |sorted| == |dict|
    ensures InOrder(KeysOf(order)) && (repeats <==> Repeats(entries))
  {
    hide StrCmp, EntryHolds, InOrder, Repeats, HasKey, InsertAt;
    sorted, repeats, order := [], false, [];
    NothingYet(entries);
    for i := 0 to |dict|
      invariant AllHold(buf, sorted, order) && |sorted| == i && multiset(order) == multiset(entries[..i])
      invariant InOrder(KeysOf(order)) && (repeats <==> Repeats(entries[..i]))
    {
      var e := dict[i];
      assert EntryHolds(buf, e, entries[i]);
      KeyHolds(buf, e, entries[i]);
      var place, equal := FindPlace(buf, sorted, e.key, order, entries[i].key);
      StillInOrder(order, place, entries[i]);
      Inserted(buf, sorted, order, place, e, entries[i]);
      InsertKeeps(order, place, entries[i]);
      SameKeysBoth(order, entries[..i], entries[i].key);
      RepeatsOneMore(entries, i);
      assert entries[..i + 1] == entries[..i] + [entries[i]];
      sorted, order, repeats := InsertAt(sorted, place, e), InsertAt(order, place, entries[i]), repeats || equal;
    }
    assert entries[..|dict|] == entries;
  }

  lemma NothingYet(entries: seq<Entry>)
    ensures entries[..0] == [] && !Repeats(entries[..0]) && InOrder(KeysOf([]))
  {
  }

  lemma KeyHolds(buf: seq<byte>, two: TwoValue, e: Entry)
    requires EntryHolds(buf, two, e)
    ensures two.key.ty == FBT_KEY && Holds(buf, two.key, Key(e.key))
  {
  }

  lemma Inserted(buf: seq<byte>, sorted: seq<TwoValue>, order: seq<Entry>, place: nat, two: TwoValue, e: Entry)
    requires AllHold(buf, sorted, order) && place <= |sorted| && EntryHolds(buf, two, e)
    ensures AllHold(buf, InsertAt(sorted, place, two), InsertAt(order, place, e))
  {
    hide EntryHolds;
  }

  lemma SameKeysBoth(a: seq<Entry>, b: seq<Entry>, key: seq<byte>)
    requires multiset(a) == multiset(b)
    ensures HasKey(a, key) <==> HasKey(b, key)
  {
    if HasKey(a, key) { SameKeys(a, b, key); }
    if HasKey(b, key) { SameKeys(b, a, key); }
  }

  // ---- Any other sort ----

  /** Ranks that come out of the comparisons made just as the keys do; entry `i` is the one sorted `i`-th. */
  predicate Agrees(order: seq<Entry>, compared: set<(nat, nat)>, ranks: seq<int>) {
    |ranks| == |order| &&
    forall c :: c in compared && c.0 < |order| && c.1 < |order| ==>
      && (StrCmp(order[c.0].key, order[c.1].key) < 0 <==> ranks[c.0] < ranks[c.1])
      && (StrCmp(order[c.0].key, order[c.1].key) == 0 <==> ranks[c.0] == ranks[c.1])
  }

  predicate Ascending(ranks: seq<int>) {
    forall i, j :: 0 <= i < j < |ranks| ==> ranks[i] <= ranks[j]
  }

  /** The comparisons between different entries that a sort has made are enough for it to know the order. */
  ghost predicate Determines(order: seq<Entry>, compared: set<(nat, nat)>) {
    && (forall c :: c in compared ==> c.0 < |order| && c.1 < |order| && c.0 != c.1)
    && (forall ranks: seq<int> :: Agrees(order, compared, ranks) ==> Ascending(ranks))
  }

  /** Some comparison came out equal. */
  predicate Noted(order: seq<Entry>, compared: set<(nat, nat)>)
    requires forall c :: c in compared ==> c.0 < |order| && c.1 < |order|
  {
    exists c :: c in compared && StrCmp(order[c.0].key, order[c.1].key) == 0
  }

  function Swapped(n: nat, i: nat): (ranks: seq<int>)
    ensures |ranks| == n
  {
    seq(n, j requires 0 <= j < n => if j == i then i + 1 else if j == i + 1 then i else j)
  }

  /** Had two equal neighbours never been compared, they might as well be the other way round. */
  lemma SwappedAgrees(order: seq<Entry>, compared: set<(nat, nat)>, i: nat)
    requires InOrder(KeysOf(order)) && i + 1 < |order| && order[i].key == order[i + 1].key
    requires forall c :: c in compared ==> c.0 < |order| && c.1 < |order| && c.0 != c.1
    requires !Noted(order, compared)
    ensures Agrees(order, compared, Swapped(|order|, i))
  {
    hide StrCmp;
    var keys, ranks := KeysOf(order), Swapped(|order|, i);
    forall c | c in compared
      ensures StrCmp(order[c.0].key, order[c.1].key) != 0 && ranks[c.0] != ranks[c.1]
      ensures StrCmp(order[c.0].key, order[c.1].key) < 0 <==> ranks[c.0] < ranks[c.1]
    {
      var a, b := c.0, c.1;
      CmpSwap(keys[a], keys[b]);
      CmpZero(keys[a], keys[b]);
      if a < b { assert StrCmp(keys[a], keys[b]) <= 0; } else { assert StrCmp(keys[b], keys[a]) <= 0; }
    }
  }

  lemma NotDetermined(order: seq<Entry>, compared: set<(nat, nat)>, i: nat)
    requires InOrder(KeysOf(order)) && i + 1 < |order| && order[i].key == order[i + 1].key
    requires forall c :: c in compared ==> c.0 < |order| && c.1 < |order| && c.0 != c.1
    requires !Noted(order, compared)
    ensures !Determines(order, compared)
  {
    hide StrCmp, InOrder, Agrees, Noted;
    SwappedAgrees(order, compared, i);
    var ranks := Swapped(|order|, i);
    assert ranks[i] > ranks[i + 1];
  }

  lemma EqualNeighbours(order: seq<Entry>) returns (i: nat)
    requires InOrder(KeysOf(order)) && Repeats(order)
    ensures i + 1 < |order| && order[i].key == order[i + 1].key
  {
    hide StrCmp;
    var a, b :| 0 <= a < b < |order| && order[a].key == order[b].key;
    var keys := KeysOf(order);
    i := a;
    assert StrCmp(keys[a], keys[a + 1]) <= 0 && (a + 1 < b ==> StrCmp(keys[a + 1], keys[b]) <= 0);
    CmpSwap(keys[a], keys[a + 1]);
    CmpZero(keys[a], keys[a + 1]);
  }

  lemma {:induction false} TwoPlaces<T>(s: seq<T>, x: T) returns (i: nat, j: nat)
    requires multiset(s)[x] >= 2
    ensures i < j < |s| && s[i] == x && s[j] == x
  {
    var n := |s| - 1;
    assert s == s[..n] + [s[n]];
    if s[n] == x {
      assert x in multiset(s[..n]);
      i :| 0 <= i < n && s[..n][i] == x;
      j := n;
    } else {
      i, j := TwoPlaces(s[..n], x);
    }
  }

  lemma CountsTwo<T>(s: seq<T>, i: nat, j: nat)
    requires i < j < |s| && s[i] == s[j]
    ensures multiset(s)[s[i]] >= 2
  {
    assert s == s[..j] + [s[j]] + s[j + 1..];
    assert s[..j][i] == s[i];
  }

  /** Sorting does not change whether a key comes up twice. */
  lemma RepeatsToo(a: seq<Entry>, b: seq<Entry>)
    requires multiset(a) == multiset(b) && Repeats(a)
    ensures Repeats(b)
  {
    var i, j :| 0 <= i < j < |a| && a[i].key == a[j].key;
    if a[i] == a[j] {
      CountsTwo(a, i, j);
      var p, q := TwoPlaces(b, a[i]);
    } else {
      assert a[i] in multiset(b) && a[j] in multiset(b);
      var p :| 0 <= p < |b| && b[p] == a[i];
      var q :| 0 <= q < |b| && b[q] == a[j];
      assert p != q && (if p < q then b[p].key == b[q].key else b[q].key == b[p].key);
    }
  }

  /** Whatever comparisons a sort makes, as long as they determine the order, the flag is set exactly if some
      key comes up twice. */
  lemma AnySortNotes(entries: seq<Entry>, order: seq<Entry>, compared: set<(nat, nat)>)
    requires multiset(order) == multiset(entries) && InOrder(KeysOf(order)) && Determines(order, compared)
    ensures Noted(order, compared) <==> Repeats(entries)
  {
    hide StrCmp, InOrder;
    if Noted(order, compared) {
      var c :| c in compared && StrCmp(order[c.0].key, order[c.1].key) == 0;
      CmpZero(order[c.0].key, order[c.1].key);
      assert if c.0 < c.1 then order[c.0].key == order[c.1].key else order[c.1].key == order[c.0].key;
      RepeatsToo(order, entries);
    } else if Repeats(entries) {
      RepeatsToo(entries, order);
      var i := EqualNeighbours(order);
      NotDetermined(order, compared, i);
    }
  }

  // ---- Looking up ----

  /** `Map::operator[]`: finds a key exactly if the map has it, and then the value of an entry with that key. */
  method Lookup(buf: seq<byte>, r: Ref, key: seq<byte>, ghost keys: seq<seq<byte>>, ghost values: seq<Tree>)
    returns (found: Option<Ref>)
    requires Reads(buf, r, Map(keys, values)) && InOrder(keys)
    ensures found.Some? <==> key in keys
    ensures found.Some? ==> exists i :: 0 <= i < |keys| && keys[i] == key && i < |values| && Reads(buf, found.value, values[i])
  {
    hide StrCmp, Reads, KeyAt, ReadScalar, IsWidth;
    MapParts(buf, r, keys, values);
    var p, w := Indirect(buf, r).value, r.byteWidth;
    var (at, kw) := Keys(buf, p, w).value;
    var n := ReadScalar(buf, at - kw, kw).value;
    var size := ReadScalar(buf, p - w, w).value;
    var lo, hi := 0, n;
    while lo < hi
      invariant 0 <= lo <= hi <= n
      invariant forall i :: 0 <= i < lo ==> StrCmp(key, keys[i]) > 0
      invariant forall i :: hi <= i < n ==> StrCmp(key, keys[i]) < 0
    {
      var mid := (lo + hi) / 2;
      assert KeyText(buf, at, kw, mid) == Some(keys[mid]);
      var comp := StrCmp(key, KeyText(buf, at, kw, mid).value);
      CmpZero(key, keys[mid]);
      if comp < 0 {
        BelowAll(keys, key, mid);
        hi := mid;
      } else if comp > 0 {
        AboveAll(keys, key, mid);
        lo := mid + 1;
      } else {
        return Some(Item(buf, p, w, size, mid).value);
      }
    }
    forall i | 0 <= i < |keys|
      ensures keys[i] != key
    {
      CmpZero(key, keys[i]);
    }
    found := None;
  }

  lemma MapParts(buf: seq<byte>, r: Ref, keys: seq<seq<byte>>, values: seq<Tree>)
    requires Reads(buf, r, Map(keys, values))
    ensures Indirect(buf, r).Some?
    ensures var p, w := Indirect(buf, r).value, r.byteWidth;
            && |keys| == |values| && SizeAt(buf, p, w, |values|) && KeysAt(buf, p, w, keys) && ItemsRead(buf, p, w, values)
  {
  }

  lemma BelowAll(keys: seq<seq<byte>>, key: seq<byte>, mid: nat)
    requires InOrder(keys) && mid < |keys| && StrCmp(key, keys[mid]) < 0
    ensures forall i :: mid <= i < |keys| ==> StrCmp(key, keys[i]) < 0
  {
    hide StrCmp;
    forall i | mid < i < |keys|
      ensures StrCmp(key, keys[i]) < 0
    {
      CmpTrans(key, keys[mid], keys[i]);
    }
  }

  lemma AboveAll(keys: seq<seq<byte>>, key: seq<byte>, mid: nat)
    requires InOrder(keys) && mid < |keys| && StrCmp(key, keys[mid]) > 0
    ensures forall i :: 0 <= i <= mid ==> StrCmp(key, keys[i]) > 0
  {
    hide StrCmp;
    CmpSwap(key, keys[mid]);
    forall i | 0 <= i < mid
      ensures StrCmp(key, keys[i]) > 0
    {
      CmpTrans(keys[i], keys[mid], key);
      CmpSwap(keys[i], key);
    }
  }

  /** What is looked up in the sorted entries was among those given, and without repeated keys it is the
      one that was given with this key. */
  lemma FoundWasGiven(buf: seq<byte>, found: Ref, key: seq<byte>, entries: seq<Entry>, order: seq<Entry>, at: nat)
    requires multiset(order) == multiset(entries) && at < |order| && KeysOf(order)[at] == key
    requires Reads(buf, found, ValuesOf(order)[at])
    ensures exists i :: 0 <= i < |entries| && entries[i].key == key && Reads(buf, found, entries[i].tree)
    ensures !Repeats(entries) ==> forall i :: 0 <= i < |entries| && entries[i].key == key ==> Reads(buf, found, entries[i].tree)
  {
    hide Reads, Repeats;
    assert order[at] in multiset(entries);
    var g :| 0 <= g < |entries| && entries[g] == order[at];
    if !Repeats(entries) {
      forall i | 0 <= i < |entries| && entries[i].key == key
        ensures Reads(buf, found, entries[i].tree)
      {
        if i != g { TwoOfAKey(entries, i, g); }
      }
    }
  }

  lemma TwoOfAKey(entries: seq<Entry>, i: nat, g: nat)
    requires i < |entries| && g < |entries| && i != g && entries[i].key == entries[g].key
    ensures Repeats(entries)
  {
    assert if i < g then entries[i].key == entries[g].key else entries[g].key == entries[i].key;
  }
}
