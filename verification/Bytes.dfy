/** Little-endian scalars and the padding arithmetic shared by every codec below. */
module Bytes {
  type byte = i: int | 0 <= i < 256

  /** Widths of the scalars a FlatBuffer may hold. */
  predicate IsWidth(w: nat) {
    w == 1 || w == 2 || w == 4 || w == 8
  }

  /** The number of values a scalar of `w` bytes can take. */
  function Pow256(w: nat): (p: nat)
    ensures p > 0
  {
    if w == 0 then 1 else 256 * Pow256(w - 1)
  }

  function Encode(n: nat, w: nat): (s: seq<byte>)
    ensures |s| == w
  {
    if w == 0 then [] else [n % 256] + Encode(n / 256, w - 1)
  }

  function Decode(s: seq<byte>): nat {
    if s == [] then 0 else s[0] + 256 * Decode(s[1..])
  }

  lemma {:induction false} DecodeEncode(n: nat, w: nat)
    requires n < Pow256(w)
    ensures Decode(Encode(n, w)) == n
  {
    if w > 0 {
      DecodeEncode(n / 256, w - 1);
      assert Encode(n, w)[1..] == Encode(n / 256, w - 1);
    }
  }

  lemma LowByte(b: byte, n: nat)
    ensures (b + 256 * n) % 256 == b && (b + 256 * n) / 256 == n
  {
  }

  lemma {:induction false} EncodeDecode(s: seq<byte>)
    ensures Decode(s) < Pow256(|s|)
    ensures Encode(Decode(s), |s|) == s
  {
    if s != [] {
      EncodeDecode(s[1..]);
      var d := Decode(s[1..]);
      LowByte(s[0], d);
      assert Encode(Decode(s), |s|) == [s[0]] + Encode(d, |s| - 1);
      assert s == [s[0]] + s[1..];
    }
  }

  /** The bounds the codec quotes, spelled out. */
  lemma Pow256Values()
    ensures Pow256(1) == 0x100
    ensures Pow256(2) == 0x1_0000
    ensures Pow256(4) == 0x1_0000_0000
    ensures Pow256(8) == 0x1_0000_0000_0000_0000
  {
    OddPow256Values();
    assert Pow256(2) == 256 * Pow256(1);
    assert Pow256(4) == 256 * Pow256(3);
    assert Pow256(8) == 256 * Pow256(7);
  }

  lemma OddPow256Values()
    ensures Pow256(3) == 0x100_0000
    ensures Pow256(5) == 0x100_0000_0000
    ensures Pow256(6) == 0x1_0000_0000_0000
    ensures Pow256(7) == 0x100_0000_0000_0000
  {
    assert Pow256(3) == 256 * Pow256(2) && Pow256(2) == 256 * Pow256(1);
    assert Pow256(5) == 256 * Pow256(4) && Pow256(4) == 256 * Pow256(3);
    assert Pow256(7) == 256 * Pow256(6) && Pow256(6) == 256 * Pow256(5);
  }

  /** `n >> 8` and then `>> 8 * i`. */
  lemma ShiftAgain(n: nat, i: nat)
    requires i < 7
    ensures n / 256 / Pow256(i) == n / Pow256(i + 1)
  {
    Pow256Values();
    OddPow256Values();
    if i < 2 {
    } else if i < 4 {
    } else if i < 6 {
    } else {
    }
  }

  /** The least significant byte comes first. */
  lemma {:induction false} EncodedByte(n: nat, w: nat, i: nat)
    requires i < w <= 8
    ensures Encode(n, w)[i] == n / Pow256(i) % 256
  {
    if i > 0 {
      EncodedByte(n / 256, w - 1, i - 1);
      ShiftAgain(n, i - 1);
    }
  }

  function Zeros(n: nat): (s: seq<byte>)
    ensures |s| == n
    ensures forall i :: 0 <= i < n ==> s[i] == 0
  {
    seq(n, _ => 0)
  }

  /** How many bytes bring a buffer of `size` bytes to a multiple of `align`.
      The source computes `(~size + 1) & (align - 1)` for a power of two, which is
      the two's complement negation of `size` modulo `align`. */
  function PaddingBytes(size: nat, align: nat): (pad: nat)
    requires IsWidth(align)
    ensures pad < align && (size + pad) % align == 0
  {
    if align == 1 then (0 - size) % 1
    else if align == 2 then (0 - size) % 2
    else if align == 4 then (0 - size) % 4
    else (0 - size) % 8
  }

  /** The padding is the least one that aligns. */
  lemma PaddingIsLeast(size: nat, align: nat, other: nat)
    requires IsWidth(align) && (size + other) % align == 0
    ensures PaddingBytes(size, align) <= other
  {
    if align == 2 {
    } else if align == 4 {
    } else if align == 8 {
    }
  }

  /** Widths divide one another, so a stronger alignment implies a weaker one. */
  lemma AlignedDown(n: int, strong: nat, weak: nat)
    requires IsWidth(strong) && IsWidth(weak) && weak <= strong
    requires n % strong == 0
    ensures n % weak == 0
  {
    if strong == 8 {
      Multiple(n, 4, 2 * (n / 8));
      Multiple(n, 2, 4 * (n / 8));
    } else if strong == 4 {
      Multiple(n, 2, 2 * (n / 4));
    }
  }

  lemma Multiple(n: int, w: nat, k: int)
    requires (w == 2 && n == 2 * k) || (w == 4 && n == 4 * k)
    ensures n % w == 0
  {
    if w == 2 {
    } else {
    }
  }

  lemma Remainder(n: int, w: nat, k: int, r: nat)
    requires w == 2 || w == 4 || w == 8
    requires r < w && (w == 2 ==> n == 2 * k + r) && (w == 4 ==> n == 4 * k + r) && (w == 8 ==> n == 8 * k + r)
    ensures n % w == r
  {
    if w == 2 {
    } else if w == 4 {
    } else {
    }
  }

  /** Aligned amounts add up. */
  lemma AlignedSum(a: int, b: int, w: nat)
    requires IsWidth(w) && a % w == 0
    ensures (a + b) % w == b % w
  {
    if w == 2 {
      Remainder(a + b, 2, a / 2 + b / 2, b % 2);
    } else if w == 4 {
      Remainder(a + b, 4, a / 4 + b / 4, b % 4);
    } else if w == 8 {
      Remainder(a + b, 8, a / 8 + b / 8, b % 8);
    }
  }
}
