/** Shard prefixes as the node reports them: 64 bits, the last one bit marks where the prefix ends. */
module ShardPrefix {
  import opened Types

  function Pow2(n: nat): (p: nat)
    ensures p > 0
  {
    if n == 0 then 1 else 2 * Pow2(n - 1)
  }

  function TrailingZeros(x: nat): nat
    requires x > 0
  {
    if x % 2 == 1 then 0 else 1 + TrailingZeros(x / 2)
  }

  function BitLen(x: nat): nat { if x == 0 then 0 else 1 + BitLen(x / 2) }

  function Xor(a: nat, b: nat): nat {
    if a == 0 && b == 0 then 0 else 2 * Xor(a / 2, b / 2) + if a % 2 != b % 2 then 1 else 0
  }

  /** x << k */
  function Shl(x: nat, k: nat): nat
    decreases k
  {
    if k == 0 then x else Shl(2 * x, k - 1)
  }

  /** x >> k */
  function Shift(x: nat, k: nat): nat { if k == 0 then x else Shift(x / 2, k - 1) }

  type Prefix = x: nat | x < 0x1_0000_0000_0000_0000
  type Byte = x: nat | x < 256

  /** None where the program stops: no prefix, or one longer than eight bits. */
  function IsInShard(prefix: Prefix, b: Byte): Option<bool> {
    if prefix == 0 then None
    else
      var len := 63 - TrailingZeros(prefix);
      if len > 8 then None
      else Some(64 - BitLen(Xor(b * 0x100_0000_0000_0000, prefix)) >= len)
  }

  // ---------------------------------------------------------------- arithmetic of the bits

  lemma {:induction false} BitLenBound(x: nat, k: nat)
    ensures BitLen(x) <= k <==> x < Pow2(k)
  {
    if k > 0 { BitLenBound(x / 2, k - 1); }
  }

  lemma {:induction false} XorZero(a: nat, b: nat)
    ensures Xor(a, b) == 0 <==> a == b
  {
    if a != 0 || b != 0 { XorZero(a / 2, b / 2); }
  }

  lemma {:induction false} XorShift(a: nat, b: nat, k: nat)
    ensures Shift(Xor(a, b), k) == Xor(Shift(a, k), Shift(b, k))
  {
    if k > 0 {
      assert Xor(a, b) / 2 == Xor(a / 2, b / 2);
      XorShift(a / 2, b / 2, k - 1);
    }
  }

  lemma {:induction false} ShiftZero(x: nat, k: nat)
    ensures Shift(x, k) == 0 <==> x < Pow2(k)
  {
    if k > 0 { ShiftZero(x / 2, k - 1); }
  }

  lemma {:induction false} ShlDoubles(x: nat, k: nat)
    ensures Shl(2 * x, k) == 2 * Shl(x, k)
    decreases k
  {
    if k > 0 { ShlDoubles(2 * x, k - 1); }
  }

  lemma {:induction false} ShiftBack(x: nat, k: nat)
    ensures Shift(Shl(x, k), k) == x
  {
    if k > 0 {
      ShlDoubles(x, k - 1);
      ShiftBack(x, k - 1);
    }
  }

  lemma {:induction false} ShiftTwice(x: nat, j: nat, k: nat)
    ensures Shift(Shift(x, j), k) == Shift(x, j + k)
  {
    if j > 0 { ShiftTwice(x / 2, j - 1, k); }
  }

  lemma {:induction false} TrailingZerosOfOdd(v: nat, k: nat)
    ensures Shl(2 * v + 1, k) > 0
    ensures TrailingZeros(Shl(2 * v + 1, k)) == k
  {
    if k > 0 {
      ShlDoubles(2 * v + 1, k - 1);
      TrailingZerosOfOdd(v, k - 1);
    }
  }

  lemma {:induction false} TrailingZerosBound(x: nat, k: nat)
    requires 0 < x < Pow2(k)
    ensures TrailingZeros(x) < k
  {
    if x % 2 == 0 { TrailingZerosBound(x / 2, k - 1); }
  }

  // ---------------------------------------------------------------- the test is prefix equality

  lemma {:induction false} PowSum(a: nat, b: nat)
    ensures Pow2(a + b) == Pow2(a) * Pow2(b)
  {
    if a > 0 {
      PowSum(a - 1, b);
      assert 2 * Pow2(a - 1) * Pow2(b) == 2 * (Pow2(a - 1) * Pow2(b));
    }
  }

  lemma Pow2Of64()
    ensures Pow2(56) == 0x100_0000_0000_0000 && Pow2(64) == 0x1_0000_0000_0000_0000
  {
    assert Pow2(8) == 256;
    PowSum(8, 8);
    PowSum(16, 16);
    PowSum(32, 16);
    PowSum(48, 8);
    PowSum(56, 8);
  }

  lemma {:induction false} ShlIsProduct(x: nat, k: nat)
    ensures Shl(x, k) == x * Pow2(k)
    decreases k
  {
    if k > 0 {
      ShlIsProduct(2 * x, k - 1);
      assert 2 * x * Pow2(k - 1) == x * (2 * Pow2(k - 1));
    }
  }

  lemma ByteFirst(b: Byte)
    ensures b * 0x100_0000_0000_0000 == Shl(b, 56)
  {
    ShlIsProduct(b, 56);
    Pow2Of64();
  }

  /** For every prefix and byte: the exclusive-or has enough leading zeros if and only if the bits of the prefix are
      the first bits of the byte. */
  lemma InShardIsPrefixEquality(prefix: Prefix, b: Byte)
    requires IsInShard(prefix, b).Some?
    ensures prefix > 0 && 0 <= 63 - TrailingZeros(prefix) <= 8
    ensures var len := 63 - TrailingZeros(prefix);
      IsInShard(prefix, b).value <==> Shift(prefix, 64 - len) == Shift(b, 8 - len)
  {
    Pow2Of64();
    TrailingZerosBound(prefix, 64);
    ByteFirst(b);
    var len := 63 - TrailingZeros(prefix);
    var x := Shl(b, 56);
    var k := 64 - len;
    BitLenBound(Xor(x, prefix), k);
    ShiftZero(Xor(x, prefix), k);
    XorShift(x, prefix, k);
    XorZero(Shift(x, k), Shift(prefix, k));
    ShiftBack(b, 56);
    ShiftTwice(x, 56, 8 - len);
  }

  // ---------------------------------------------------------------- shards

  /** The accounts whose address starts with these bits. */
  datatype Shard = Shard(len: nat, bits: nat)

  predicate Depth8(s: Shard) { s.len <= 8 && s.bits < Pow2(s.len) }

  function Code(s: Shard): (p: Prefix)
    requires Depth8(s)
  {
    CodeFits(s);
    Shl(2 * s.bits + 1, 63 - s.len)
  }

  lemma {:induction false} ShlBound(x: nat, n: nat, k: nat)
    requires x < Pow2(n)
    ensures Shl(x, k) < Pow2(n + k)
    decreases k
  {
    if k > 0 { ShlBound(2 * x, n + 1, k - 1); }
  }

  lemma CodeFits(s: Shard)
    requires Depth8(s)
    ensures 0 < Shl(2 * s.bits + 1, 63 - s.len) < 0x1_0000_0000_0000_0000
  {
    Pow2Of64();
    TrailingZerosOfOdd(s.bits, 63 - s.len);
    ShlBound(2 * s.bits + 1, s.len + 1, 63 - s.len);
  }

  lemma ShiftOutMark(bits: nat, k: nat)
    ensures Shift(Shl(2 * bits + 1, k), k + 1) == bits
  {
    ShiftBack(2 * bits + 1, k);
    ShiftTwice(Shl(2 * bits + 1, k), k, 1);
    assert Shift(2 * bits + 1, 1) == bits;
  }

  predicate Has(s: Shard, b: Byte) {
    s.len <= 8 && Shift(b, 8 - s.len) == s.bits
  }

  /** What the node's prefix says of a shard is what the shard contains. */
  lemma CodeMeans(s: Shard, b: Byte)
    requires Depth8(s)
    ensures IsInShard(Code(s), b) == Some(Has(s, b))
  {
    TrailingZerosOfOdd(s.bits, 63 - s.len);
    InShardIsPrefixEquality(Code(s), b);
    ShiftOutMark(s.bits, 63 - s.len);
  }

  function Left(s: Shard): Shard { Shard(s.len + 1, 2 * s.bits) }
  function Right(s: Shard): Shard { Shard(s.len + 1, 2 * s.bits + 1) }

  /** The halves of a shard share its accounts out. */
  lemma HalvesPartition(s: Shard, b: Byte)
    requires s.len < 8
    ensures Has(s, b) <==> Has(Left(s), b) || Has(Right(s), b)
    ensures !(Has(Left(s), b) && Has(Right(s), b))
  {
    ShiftTwice(b, 8 - s.len - 1, 1);
    assert Shift(Shift(b, 8 - s.len - 1), 1) == Shift(b, 8 - s.len - 1) / 2;
  }

  lemma EveryByte(b: Byte)
    ensures Has(Shard(0, 0), b)
  {
    assert Pow2(8) == 256;
    ShiftZero(b, 8);
  }
}
