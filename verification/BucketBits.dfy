/** Sizing the hash table of a new index. */
module BucketBits {
  function Pow2(n: nat): (p: nat)
    ensures p > n
  {
    if n == 0 then 1 else 2 * Pow2(n - 1)
  }

  const MAX_BITS: nat := 28

  lemma Pow2Step(n: nat)
    ensures Pow2(0) == 1 && Pow2(n + 1) == 2 * Pow2(n)
  {
  }

  /** The fewest bits, at least one and at most 28, whose buckets hold a row each; 15 if the number of rows
      is unknown.  Above 2^63 rows the 64-bit shift in the loop would wrap to zero and never end. */
  method BucketBitsForRows(nRows: nat) returns (bits: nat)
    requires nRows <= Pow2(63)
    ensures nRows == 0 ==> bits == 15
    ensures nRows > 0 ==> 1 <= bits <= 28 && (bits < 28 ==> nRows <= Pow2(bits))
    ensures nRows > 0 ==> forall fewer :: 1 <= fewer < bits ==> Pow2(fewer) < nRows
  {
    hide Pow2;
    if nRows == 0 { return 15; }
    Pow2Step(0);
    bits := 1;
    var buckets := 2;
    while buckets < nRows
      invariant 1 <= bits <= 63 && buckets == Pow2(bits)
      invariant forall fewer :: 1 <= fewer < bits ==> Pow2(fewer) < nRows
      decreases 63 - bits
    {
      Pow2Step(bits);
      buckets := 2 * buckets;
      bits := bits + 1;
    }
    if bits > MAX_BITS { bits := MAX_BITS; }
  }
}
