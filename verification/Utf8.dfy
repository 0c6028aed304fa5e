/** UTF-8: the encoder and the decoder are inverse to each other on the code points of RFC 3629. */
module Utf8 {
  import opened Wrappers
  import opened Bytes

  /** Unicode code points without the surrogates, section 3 of RFC 3629. */
  predicate IsScalarValue(c: int) {
    0 <= c <= 0x10FFFF && !(0xD800 <= c <= 0xDFFF)
  }

  function Pow64(i: nat): (p: nat)
    ensures p > 0
  {
    if i == 0 then 1 else 64 * Pow64(i - 1)
  }

  /** `max_bits` of the encoding with `i` continuation bytes, as a bound. */
  function Limit(i: nat): nat
    requires i < 6
  {
    [0x80, 0x800, 0x1_0000, 0x20_0000, 0x400_0000, 0x8000_0000][i]
  }

  /** The marker bits of the first byte. */
  function Marker(i: nat): nat
    requires i < 6
  {
    [0, 0xC0, 0xE0, 0xF0, 0xF8, 0xFC][i]
  }

  // ---- Encoding ----

  /** The last `i` groups of six bits, most significant first. */
  function Tail(c: nat, i: nat): (s: seq<byte>)
    ensures |s| == i
  {
    if i == 0 then [] else [0x80 + (c / Pow64(i - 1)) % 64] + Tail(c, i - 1)
  }

  /** How many continuation bytes a code point needs. */
  function Continuations(c: nat): (i: nat)
    requires c < 0x8000_0000
    ensures i < 6 && c < Limit(i) && (i > 0 ==> c >= Limit(i - 1))
  {
    if c < 0x80 then 0
    else if c < 0x800 then 1
    else if c < 0x1_0000 then 2
    else if c < 0x20_0000 then 3
    else if c < 0x400_0000 then 4
    else 5
  }

  lemma Powers()
    ensures Pow64(0) == 1 && Pow64(1) == 64 && Pow64(2) == 0x1000 && Pow64(3) == 0x4_0000
    ensures Pow64(4) == 0x100_0000 && Pow64(5) == 0x4000_0000
  {
    assert Pow64(1) == 64 * Pow64(0);
    assert Pow64(2) == 64 * Pow64(1);
    assert Pow64(3) == 64 * Pow64(2);
    assert Pow64(4) == 64 * Pow64(3);
    assert Pow64(5) == 64 * Pow64(4);
  }

  /** The first byte has room for what the continuation bytes leave over. */
  lemma FirstFits(c: nat, i: nat)
    requires i < 6 && c < Limit(i)
    ensures 0 <= Marker(i) + c / Pow64(i) < 256
  {
    Powers();
    hide Pow64;
  }

  function Encoded(c: nat): (s: seq<byte>)
    requires c < 0x8000_0000
    ensures 1 <= |s| <= 6
  {
    var i := Continuations(c);
    FirstFits(c, i);
    [Marker(i) + c / Pow64(i)] + Tail(c, i)
  }

  /** The encodings byte by byte: up to four bytes as the table of section 3 of RFC 3629 has them, and the two
      longer forms in the same way. */
  lemma EncodedBytes(c: nat)
    requires c < 0x8000_0000
    ensures Encoded(c) ==
            if c < 0x80 then [c]
            else if c < 0x800 then [0xC0 + c / 64] + Groups(c, 1)
            else if c < 0x1_0000 then [0xE0 + c / 0x1000] + Groups(c, 2)
            else if c < 0x20_0000 then [0xF0 + c / 0x4_0000] + Groups(c, 3)
            else if c < 0x400_0000 then [0xF8 + c / 0x100_0000] + Groups(c, 4)
            else [0xFC + c / 0x4000_0000] + Groups(c, 5)
  {
    Powers();
    Tails(c);
    hide Pow64, Tail;
  }

  /** The last groups of six bits, written out. */
  function Groups(c: nat, n: nat): seq<byte>
    requires 1 <= n <= 5
  {
    var all := [0x80 + c / 0x100_0000 % 64, 0x80 + c / 0x4_0000 % 64, 0x80 + c / 0x1000 % 64, 0x80 + c / 64 % 64, 0x80 + c % 64];
    all[5 - n..]
  }

  lemma Tails(c: nat)
    ensures Tail(c, 0) == []
    ensures Tail(c, 1) == Groups(c, 1) && Tail(c, 2) == Groups(c, 2) && Tail(c, 3) == Groups(c, 3)
    ensures Tail(c, 4) == Groups(c, 4) && Tail(c, 5) == Groups(c, 5)
  {
    Powers();
    assert Tail(c, 1) == [0x80 + c % 64] + Tail(c, 0);
    assert Tail(c, 2) == [0x80 + c / 64 % 64] + Tail(c, 1);
    assert Tail(c, 3) == [0x80 + c / 0x1000 % 64] + Tail(c, 2);
    assert Tail(c, 4) == [0x80 + c / 0x4_0000 % 64] + Tail(c, 3);
    assert Tail(c, 5) == [0x80 + c / 0x100_0000 % 64] + Tail(c, 4);
  }

  /** The continuation bytes, most significant group first. */
  method AppendTail(first: seq<byte>, ucc: nat, i: nat) returns (out: seq<byte>)
    ensures out == first + Tail(ucc, i)
  {
    out := first;
    var j := i;
    while j > 0
      invariant 0 <= j <= i && out + Tail(ucc, j) == first + Tail(ucc, i)
    {
      j := j - 1;
      ghost var group: seq<byte> := [0x80 + (ucc / Pow64(j)) % 64];
      assert (out + group) + Tail(ucc, j) == out + (group + Tail(ucc, j));
      out := out + [0x80 + (ucc / Pow64(j)) % 64];
    }
  }

  /** Tries the encodings from the shortest on. */
  method ToUTF8(ucc: nat) returns (out: seq<byte>, count: nat)
    requires ucc < 0x8000_0000
    ensures out == Encoded(ucc) && count == |out|
  {
    hide Tail, Pow64, Marker;
    out, count := [], 0;
    var i := 0;
    while i < 6
      invariant 0 <= i <= 5 && out == [] && (i > 0 ==> ucc >= Limit(i - 1))
    {
      if ucc < Limit(i) {
        FirstFits(ucc, i);
        out := AppendTail([Marker(i) + ucc / Pow64(i)], ucc, i);
        return out, i + 1;
      }
      i := i + 1;
    }
    assert false;
  }

  // ---- Decoding ----

  predicate IsContinuation(b: byte) {
    0x80 <= b < 0xC0
  }

  /** `n` continuation bytes from position `at` on, added to what was read before. */
  function Continued(s: seq<byte>, at: nat, n: nat, acc: nat): Option<nat>
    decreases n
  {
    if n == 0 then Some(acc)
    else if at < |s| && IsContinuation(s[at]) then Continued(s, at + 1, n - 1, acc * 64 + (s[at] - 0x80))
    else None
  }

  /** The number of continuation bytes a first byte announces, of the kinds RFC 3629 allows. */
  function Announced(b: byte): Option<nat> {
    if b < 0x80 then Some(0)
    else if b < 0xC0 then None
    else if b < 0xE0 then Some(1)
    else if b < 0xF0 then Some(2)
    else if b < 0xF8 then Some(3)
    else None
  }

  /** In its shortest form, and not a surrogate. */
  predicate IsShortest(c: nat, i: nat)
    requires i < 4
  {
    IsScalarValue(c) && c < Limit(i) && (i > 0 ==> c >= Limit(i - 1))
  }

  function Decoded(s: seq<byte>): (r: Option<nat>)
    requires s != []
  {
    var i :- Announced(s[0]);
    var c :- Continued(s, 1, i, s[0] - Marker(i));
    if IsShortest(c, i) then Some(c) else None
  }

  /** How many leading ones a byte has, counting no further than six. */
  method CountLeadingOnes(b: byte) returns (len: nat)
    ensures len <= 6
    ensures 256 - [256, 128, 64, 32, 16, 8, 4][len] <= b
    ensures len < 6 ==> b < 256 - [128, 64, 32, 16, 8, 4][len]
  {
    var mask := 0x80;
    len := 0;
    while mask >= 0x04
      invariant len <= 6 && mask == [128, 64, 32, 16, 8, 4, 2][len]
      invariant b >= 256 - 2 * mask
      decreases 6 - len
    {
      if (b / mask) % 2 != 1 { return; }
      len := len + 1;
      mask := mask / 2;
    }
  }

  /** Reads one code point from a NUL-terminated string, never past its terminator. */
  method FromUTF8(s: seq<byte>) returns (ucc: int, used: nat)
    requires s != [] && s[|s| - 1] == 0
    ensures ucc == if Decoded(s).Some? then Decoded(s).value else -1
    ensures ucc >= 0 ==> used <= |s| && used == 1 + Announced(s[0]).value
  {
    hide Continued;
    used := 0;
    var b := s[0];
    var len := CountLeadingOnes(b);
    if len == 6 && b >= 0xFE { return -1, used; }
    if len == 0 {
      NothingContinued(s, b);
      return b, 1;
    }
    if len < 2 || len > 4 { return -1, used; }
    var more;
    more, used := Continue(s, len - 1, b - Marker(len - 1));
    if more.None? { return -1, used; }
    ucc := more.value;
    if 0xD800 <= ucc <= 0xDFFF { return -1, used; }
    if len == 2 {
      if ucc < 0x80 || ucc > 0x7FF { return -1, used; }
    } else if len == 3 {
      if ucc < 0x800 || ucc > 0xFFFF { return -1, used; }
    } else {
      if ucc < 0x1_0000 || ucc > 0x10_FFFF { return -1, used; }
    }
  }

  lemma NothingContinued(s: seq<byte>, b: byte)
    ensures Continued(s, 1, 0, b) == Some(b)
  {
  }

  /** The continuation bytes; the terminator is not one. */
  method Continue(s: seq<byte>, n: nat, initial: nat) returns (ucc: Option<nat>, used: nat)
    requires s != [] && s[|s| - 1] == 0 && s[0] != 0
    ensures ucc == Continued(s, 1, n, initial)
    ensures ucc.Some? ==> used == n + 1 <= |s|
  {
    var acc: nat := initial;
    used := 1;
    var i := 0;
    while i < n
      invariant 0 <= i <= n && used == i + 1 <= |s| && s[used - 1] != 0
      invariant Continued(s, 1, n, initial) == Continued(s, used, n - i, acc)
    {
      if !IsContinuation(s[used]) { return None, used; }
      acc := acc * 64 + (s[used] - 0x80);
      used := used + 1;
      i := i + 1;
    }
    ucc := Some(acc);
  }

  // ---- The two together ----

  lemma {:induction false} ContinuedTail(s: seq<byte>, at: nat, c: nat, n: nat, acc: nat)
    requires at + n <= |s| && s[at..at + n] == Tail(c, n) && acc == c / Pow64(n)
    ensures Continued(s, at, n, acc) == Some(c)
    decreases n
  {
    if n > 0 {
      assert s[at..at + n][0] == s[at] && s[at + 1..at + n] == s[at..at + n][1..];
      Digit(c, n);
      ContinuedTail(s, at + 1, c, n - 1, acc * 64 + (s[at] - 0x80));
    }
  }

  /** One group of six bits moves from the tail to the number read so far. */
  lemma Digit(c: nat, n: nat)
    requires n > 0
    ensures c / Pow64(n) * 64 + (c / Pow64(n - 1)) % 64 == c / Pow64(n - 1)
  {
    DivDiv(c, Pow64(n - 1), 64);
    assert Pow64(n) == 64 * Pow64(n - 1);
  }

  lemma Parts(c: nat, p: nat)
    requires p > 0
    ensures c == c / p * p + c % p
  {
  }

  lemma Regroup(k: nat, q: nat, r: nat, p: nat)
    ensures (k * q + r) * p == k * (q * p) + r * p
  {
  }

  lemma DivDiv(c: nat, p: nat, q: nat)
    requires p > 0 && q > 0
    ensures q * p > 0 && c / (q * p) == c / p / q
  {
    MulPos(q, p);
    var k := c / p / q;
    var r := c / p % q;
    var m := c % p;
    Parts(c, p);
    Parts(c / p, q);
    Regroup(k, q, r, p);
    RemainderFits(p, q, r, m);
    DivUnique(c, q * p, k, r * p + m);
  }

  lemma MulPos(q: nat, p: nat)
    requires p > 0 && q > 0
    ensures q * p > 0
  {
  }

  lemma RemainderFits(p: nat, q: nat, r: nat, m: nat)
    requires p > 0 && r < q && m < p
    ensures 0 <= r * p + m < q * p
  {
    assert (r + 1) * p <= q * p;
    assert (r + 1) * p == r * p + p;
  }

  lemma AtLeastOne(x: int, d: nat)
    ensures x >= 1 ==> x * d >= d
    ensures x <= -1 ==> x * d <= 0 - d
  {
    assert x * d == (x - 1) * d + d && x * d == (x + 1) * d - d;
    if x >= 1 { assert (x - 1) * d >= 0; }
    if x <= -1 { assert (x + 1) * d <= 0; }
  }

  lemma DivUnique(c: nat, d: nat, k: nat, r: nat)
    requires d > 0 && r < d && c == k * d + r
    ensures c / d == k
  {
    var q := c / d;
    assert c == q * d + c % d;
    assert (q - k) * d == q * d - k * d;
    AtLeastOne(q - k, d);
  }

  /** Decoding what was encoded gives the code point back, whatever follows. */
  lemma DecodesEncoded(c: nat, rest: seq<byte>)
    requires IsScalarValue(c)
    ensures Decoded(Encoded(c) + rest) == Some(c)
  {
    var s := Encoded(c) + rest;
    var i := Continuations(c);
    FirstByte(c);
    assert s[1..1 + i] == Tail(c, i);
    ContinuedTail(s, 1, c, i, c / Pow64(i));
  }

  /** The first byte tells how many continuation bytes follow. */
  lemma FirstByte(c: nat)
    requires IsScalarValue(c)
    ensures var i := Continuations(c); i < 4 && Announced(Encoded(c)[0]) == Some(i) && Encoded(c)[0] - Marker(i) == c / Pow64(i)
  {
    Powers();
    hide Pow64, Tail;
  }

  lemma {:induction false} ContinuedIsTail(s: seq<byte>, at: nat, n: nat, acc: nat)
    requires Continued(s, at, n, acc).Some?
    ensures at + n <= |s| || n == 0
    ensures var c := Continued(s, at, n, acc).value; c / Pow64(n) == acc && (n > 0 ==> s[at..at + n] == Tail(c, n))
    decreases n
  {
    if n > 0 {
      var next := acc * 64 + (s[at] - 0x80);
      ContinuedIsTail(s, at + 1, n - 1, next);
      var c := Continued(s, at, n, acc).value;
      DivDiv(c, Pow64(n - 1), 64);
      assert Pow64(n) == 64 * Pow64(n - 1);
      assert next % 64 == s[at] - 0x80 && next / 64 == acc;
      assert s[at..at + n] == [s[at]] + s[at + 1..at + n];
      if n == 1 { assert s[at + 1..at + n] == Tail(c, 0); }
    }
  }

  /** What is accepted is the one shortest encoding of the code point returned. */
  lemma EncodesDecoded(s: seq<byte>)
    requires s != [] && Decoded(s).Some?
    ensures var c := Decoded(s).value; IsScalarValue(c) && Encoded(c) <= s && |Encoded(c)| == 1 + Announced(s[0]).value
  {
    var i := Announced(s[0]).value;
    var c := Decoded(s).value;
    ContinuedIsTail(s, 1, i, s[0] - Marker(i));
    assert Continuations(c) == i;
    if i == 0 {
      Powers();
      assert Encoded(c) == [s[0]];
    } else {
      assert Encoded(c) == [s[0]] + s[1..1 + i];
    }
  }

  /** The decoder accepts exactly the encodings of scalar values, and reports which one it was. */
  lemma DecodesExactly(s: seq<byte>, c: nat)
    requires s != []
    ensures Decoded(s) == Some(c) <==> c <= 0x10FFFF && !(0xD800 <= c <= 0xDFFF) && Encoded(c) <= s
  {
    if Decoded(s) == Some(c) { EncodesDecoded(s); }
    if IsScalarValue(c) && Encoded(c) <= s {
      assert s == Encoded(c) + s[|Encoded(c)|..];
      DecodesEncoded(c, s[|Encoded(c)|..]);
    }
  }
}
