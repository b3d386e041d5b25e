/** Z-order (Morton) key used to order drill holes: `get_morton_num` in metadrill.c.
    Bit i of the first coordinate lands on bit 2i of the key and bit i of the
    second on bit 2i+1, for the sixteen low bits of each coordinate. */
module Morton {

  /** 2^n */
  function Pow2(n: nat): (r: nat)
    ensures r >= 1
  {
    if n == 0 then 1 else 2 * Pow2(n - 1)
  }

  /** Bit i of v in two's complement: C's `(v >> i) & 1` with an arithmetic shift.
      Dafny's `/` and `%` are Euclidean, so `v / 2` is the arithmetic shift and
      `v % 2` is the low bit, also for negative v. */
  function Bit(v: int, i: nat): (b: int)
    ensures b == 0 || b == 1
    decreases i
  {
    if i == 0 then v % 2 else Bit(v / 2, i - 1)
  }

  /** The key as the source's loop builds it: the value of `retval` after the
      first n rounds, each round OR-ing in bit i of v1 at 2i and bit i of v2 at 2i+1.
      The bits OR-ed in never overlap the ones already there (Accumulated stays
      below 2^(2n)), so the OR is an addition. */
  function Accumulated(v1: int, v2: int, n: nat): int
  {
    if n == 0 then 0
    else Accumulated(v1, v2, n - 1)
         + Bit(v1, n - 1) * Pow2(2 * (n - 1))
         + Bit(v2, n - 1) * Pow2(2 * (n - 1) + 1)
  }

  /** The same key built from the low bit upwards: the reference definition that
      the lemmas below reason about. */
  function Interleave(a: int, b: int, n: nat): int
    decreases n
  {
    if n == 0 then 0 else a % 2 + 2 * (b % 2) + 4 * Interleave(a / 2, b / 2, n - 1)
  }

  /** Reinterpret a 32-bit pattern as a C `int` (two's complement). */
  function ToInt32(u: int): int
  {
    if u >= 0x8000_0000 then u - 0x1_0000_0000 else u
  }

  /** The value `get_morton_num(v1, v2)` returns. */
  function MortonKey(v1: int, v2: int): int
  {
    ToInt32(Interleave(v1, v2, 16))
  }

  /** `get_morton_num`: the sixteen-round loop of the source. */
  method GetMortonNum(v1: int, v2: int) returns (key: int)
    ensures key == MortonKey(v1, v2)
  {
    var retval := 0;
    for i := 0 to 16
      invariant retval == Accumulated(v1, v2, i)
    {
      retval := retval + Bit(v1, i) * Pow2(2 * i);
      retval := retval + Bit(v2, i) * Pow2(2 * i + 1);
    }
    AccumulatedIsInterleave(v1, v2, 16);
    key := ToInt32(retval);
  }

  // ---------------------------------------------------------------------------
  // Arithmetic helpers

  lemma HalfOfEvenShift(a: int, m: int)
    ensures (a + 2 * m) % 2 == a % 2
    ensures (a + 2 * m) / 2 == a / 2 + m
  {
  }

  lemma QuarterOfPacked(r0: int, r1: int, rest: int)
    requires r0 == 0 || r0 == 1
    requires r1 == 0 || r1 == 1
    ensures (r0 + 2 * r1 + 4 * rest) % 2 == r0
    ensures (r0 + 2 * r1 + 4 * rest) / 2 == r1 + 2 * rest
    ensures (r1 + 2 * rest) % 2 == r1
    ensures (r1 + 2 * rest) / 2 == rest
  {
  }

  lemma {:induction false} Pow2Sum(m: nat, n: nat)
    decreases n
    ensures Pow2(m + n) == Pow2(m) * Pow2(n)
  {
    if n > 0 {
      Pow2Sum(m, n - 1);
    }
  }

  lemma Pow2Constants()
    ensures Pow2(5) == 32 && Pow2(15) == 0x8000 && Pow2(16) == 0x1_0000
    ensures Pow2(30) == 0x4000_0000 && Pow2(32) == 0x1_0000_0000
  {
    Pow2Sum(5, 5);
    Pow2Sum(10, 5);
    Pow2Sum(15, 1);
    Pow2Sum(15, 15);
    Pow2Sum(16, 16);
  }

  // ---------------------------------------------------------------------------
  // Loop form equals the reference form

  /** Extending Interleave by one round adds the two new bits at positions 2n, 2n+1. */
  lemma {:induction false} InterleaveTop(a: int, b: int, n: nat)
    decreases n
    ensures Interleave(a, b, n + 1)
         == Interleave(a, b, n) + Bit(a, n) * Pow2(2 * n) + Bit(b, n) * Pow2(2 * n + 1)
  {
    if n == 0 {
    } else {
      InterleaveTop(a / 2, b / 2, n - 1);
      var ba, bb := Bit(a / 2, n - 1), Bit(b / 2, n - 1);
      var p := Pow2(2 * (n - 1));
      assert Bit(a, n) == ba && Bit(b, n) == bb;
      assert Pow2(2 * n) == 4 * p;
      assert Pow2(2 * n + 1) == 4 * (2 * p);
      assert 4 * (ba * p) == ba * (4 * p);
      assert 4 * (bb * (2 * p)) == bb * (4 * (2 * p));
    }
  }

  lemma {:induction false} AccumulatedIsInterleave(v1: int, v2: int, n: nat)
    ensures Accumulated(v1, v2, n) == Interleave(v1, v2, n)
  {
    if n > 0 {
      AccumulatedIsInterleave(v1, v2, n - 1);
      InterleaveTop(v1, v2, n - 1);
    }
  }

  // ---------------------------------------------------------------------------
  // What the key is

  /** The key of n rounds is a 2n-bit non-negative number. */
  lemma {:induction false} InterleaveBounds(a: int, b: int, n: nat)
    decreases n
    ensures 0 <= Interleave(a, b, n) < Pow2(2 * n)
  {
    if n > 0 {
      InterleaveBounds(a / 2, b / 2, n - 1);
      assert Pow2(2 * n) == 4 * Pow2(2 * (n - 1));
    }
  }

  /** Bit placement: bit i of a sits at bit 2i of the key, bit i of b at bit 2i+1. */
  lemma {:induction false} InterleaveBits(a: int, b: int, n: nat, i: nat)
    decreases i
    requires i < n
    ensures Bit(Interleave(a, b, n), 2 * i) == Bit(a, i)
    ensures Bit(Interleave(a, b, n), 2 * i + 1) == Bit(b, i)
  {
    var rest := Interleave(a / 2, b / 2, n - 1);
    var k := Interleave(a, b, n);
    QuarterOfPacked(a % 2, b % 2, rest);
    if i > 0 {
      InterleaveBits(a / 2, b / 2, n - 1, i - 1);
      assert Bit(k, 2 * i) == Bit(k / 2, 2 * i - 1) == Bit(k / 2 / 2, 2 * (i - 1));
      assert Bit(k, 2 * i + 1) == Bit(k / 2, 2 * i) == Bit(k / 2 / 2, 2 * (i - 1) + 1);
    }
  }

  lemma {:induction false} InterleaveZero(n: nat)
    decreases n
    ensures Interleave(0, 0, n) == 0
  {
    if n > 0 {
      InterleaveZero(n - 1);
    }
  }

  /** The origin of the screen grid has key 0. */
  lemma MortonKeyOrigin()
    ensures MortonKey(0, 0) == 0
  {
    InterleaveZero(16);
  }

  /** Bits of the coordinates above bit n-1 never affect an n-round key. */
  lemma {:induction false} InterleaveIgnoresHighBits(a: int, b: int, n: nat, ka: int, kb: int)
    decreases n
    ensures Interleave(a + Pow2(n) * ka, b + Pow2(n) * kb, n) == Interleave(a, b, n)
  {
    if n > 0 {
      var ma, mb := Pow2(n - 1) * ka, Pow2(n - 1) * kb;
      assert Pow2(n) * ka == 2 * ma;
      assert Pow2(n) * kb == 2 * mb;
      HalfOfEvenShift(a, ma);
      HalfOfEvenShift(b, mb);
      InterleaveIgnoresHighBits(a / 2, b / 2, n - 1, ka, kb);
    }
  }

  /** A coordinate below 2^k has no bit k. */
  lemma {:induction false} BitAboveValue(v: int, k: nat)
    decreases k
    requires 0 <= v < Pow2(k)
    ensures Bit(v, k) == 0
  {
    if k > 0 {
      BitAboveValue(v / 2, k - 1);
    }
  }

  /** With the second coordinate below 2^15, bit 31 of the key is clear, so the
      C `int` result is the non-negative pattern itself and no sign wrap occurs. */
  lemma MortonKeyNonNegative(v1: int, v2: int)
    requires 0 <= v2 < 0x8000
    ensures MortonKey(v1, v2) == Interleave(v1, v2, 16)
    ensures 0 <= MortonKey(v1, v2) < 0x8000_0000
  {
    Pow2Constants();
    TopBitClear(v1, v2, 15);
  }

  /** The top bit (2n+1) of an (n+1)-round key is bit n of the second
      coordinate, so it is clear when that coordinate is below 2^n. */
  lemma TopBitClear(a: int, b: int, n: nat)
    requires 0 <= b < Pow2(n)
    ensures 0 <= Interleave(a, b, n + 1) < Pow2(2 * n + 1)
  {
    InterleaveTop(a, b, n);
    InterleaveBounds(a, b, n);
    BitAboveValue(b, n);
  }

  /** The key is strictly increasing in the first coordinate (coordinates in range). */
  lemma {:induction false} InterleaveStrictInFirst(x: int, x': int, y: int, n: nat)
    decreases n
    requires 0 <= x < x' < Pow2(n)
    ensures Interleave(x, y, n) < Interleave(x', y, n)
  {
    var lo := Interleave(x / 2, y / 2, n - 1);
    var hi := Interleave(x' / 2, y / 2, n - 1);
    if x / 2 == x' / 2 {
      assert x % 2 < x' % 2;
    } else {
      assert Pow2(n) == 2 * Pow2(n - 1);
      InterleaveStrictInFirst(x / 2, x' / 2, y / 2, n - 1);
    }
  }

  /** The key is strictly increasing in the second coordinate (coordinates in range). */
  lemma {:induction false} InterleaveStrictInSecond(x: int, y: int, y': int, n: nat)
    decreases n
    requires 0 <= y < y' < Pow2(n)
    ensures Interleave(x, y, n) < Interleave(x, y', n)
  {
    if y / 2 == y' / 2 {
      assert y % 2 < y' % 2;
    } else {
      assert Pow2(n) == 2 * Pow2(n - 1);
      InterleaveStrictInSecond(x / 2, y / 2, y' / 2, n - 1);
    }
  }

  /** Dominance: a point no greater on both coordinates gets a key no greater. */
  lemma InterleaveMonotone(x: int, y: int, x': int, y': int, n: nat)
    requires 0 <= x <= x' < Pow2(n)
    requires 0 <= y <= y' < Pow2(n)
    ensures Interleave(x, y, n) <= Interleave(x', y', n)
  {
    if x < x' {
      InterleaveStrictInFirst(x, x', y, n);
    }
    if y < y' {
      InterleaveStrictInSecond(x', y, y', n);
    }
  }
}
