/**
 * The dynamic uniform buffer stride: the size of one per-object block
 * rounded up to the device's `minUniformBufferOffsetAlignment` with the
 * mask expression `(size + a - 1) & ~(a - 1)`, evaluated in 64-bit
 * unsigned arithmetic (`VkDeviceSize`).
 */
module Alignment {

  const TWO_64: nat := 0x1_0000_0000_0000_0000

  /** `a` is one of 1, 2, 4, 8, ... */
  predicate IsPowerOfTwo(a: nat)
    decreases a
  {
    a == 1 || (a >= 2 && a % 2 == 0 && IsPowerOfTwo(a / 2))
  }

  /** Bitwise AND of two non-negative integers, least significant bit first. */
  function BitAnd(x: nat, y: nat): (r: nat)
    ensures r <= x && r <= y
    decreases x
  {
    if x == 0 || y == 0 then 0
    else 2 * BitAnd(x / 2, y / 2) + (if x % 2 == 1 && y % 2 == 1 then 1 else 0)
  }

  /** Unsigned 64-bit `x + y`, wrapping. */
  function Add64(x: nat, y: nat): (r: nat)
    ensures r < TWO_64
  {
    (x + y) % TWO_64
  }

  /** Unsigned 64-bit `x - y`, wrapping. */
  function Sub64(x: nat, y: nat): (r: nat)
    ensures r < TWO_64
  {
    (x - y) % TWO_64
  }

  /** Unsigned 64-bit `x * y`, wrapping. */
  function Mul64(x: nat, y: nat): (r: nat)
    ensures r < TWO_64
    ensures x * y < TWO_64 ==> r == x * y
  {
    (x * y) % TWO_64
  }

  /** Unsigned 64-bit `~x`. */
  function Not64(x: nat): (r: nat)
    requires x < TWO_64
    ensures r < TWO_64
  {
    TWO_64 - 1 - x
  }

  /** `(blockSize + alignment - 1) & ~(alignment - 1)` on 64-bit unsigned values. */
  function AlignedStride(blockSize: nat, alignment: nat): nat
  {
    BitAnd(Sub64(Add64(blockSize, alignment), 1), Not64(Sub64(alignment, 1)))
  }

  /** The smallest multiple of `a` that is at least `s`. */
  function RoundUp(s: nat, a: nat): nat
    requires a > 0
  {
    (s + a - 1) - (s + a - 1) % a
  }

  /** 2 to the power k. */
  function Pow2(k: nat): (r: nat)
    ensures r >= 1
  {
    if k == 0 then 1 else 2 * Pow2(k - 1)
  }

  lemma {:induction false} Pow2IsPowerOfTwo(k: nat)
    ensures IsPowerOfTwo(Pow2(k))
  {
    if k > 0 {
      Pow2IsPowerOfTwo(k - 1);
      assert Pow2(k) / 2 == Pow2(k - 1);
    }
  }

  lemma {:induction false} Pow2Add(i: nat, j: nat)
    ensures Pow2(i + j) == Pow2(i) * Pow2(j)
    decreases i
  {
    if i > 0 {
      Pow2Add(i - 1, j);
    }
  }

  lemma TwoPow64IsPowerOfTwo()
    ensures IsPowerOfTwo(TWO_64)
  {
    assert Pow2(1) == 2;
    Pow2Add(1, 1);
    assert Pow2(2) == 4;
    Pow2Add(2, 2);
    assert Pow2(4) == 16;
    Pow2Add(4, 4);
    assert Pow2(8) == 0x100;
    Pow2Add(8, 8);
    assert Pow2(16) == 0x1_0000;
    Pow2Add(16, 16);
    assert Pow2(32) == 0x1_0000_0000;
    Pow2Add(32, 32);
    assert Pow2(64) == TWO_64;
    Pow2IsPowerOfTwo(64);
  }

  /** Euclidean division has one quotient and remainder. */
  lemma ModUnique(x: int, a: int, q: int, m: int)
    requires a > 0 && 0 <= m < a && x == q * a + m
    ensures x % a == m && x / a == q
  {
    var q', m' := x / a, x % a;
    assert x == q' * a + m';
    assert (q' - q) * a == m - m';
    if q' > q {
      MulAtLeast(q' - q, a);
    } else if q' < q {
      MulAtLeast(q - q', a);
    }
  }

  lemma DivMod(x: int, a: int)
    requires a > 0
    ensures x == (x / a) * a + x % a && 0 <= x % a < a
  {
  }

  lemma MulAtLeast(d: int, a: int)
    requires d >= 1 && a > 0
    ensures d * a >= a
  {
    assert d * a == (d - 1) * a + a;
  }

  /** For an even modulus, the remainder splits into its low bit and the remainder of the halves. */
  lemma ModOfEven(x: nat, a: nat)
    requires a >= 2 && a % 2 == 0
    ensures x % a == 2 * ((x / 2) % (a / 2)) + x % 2
  {
    var h := a / 2;
    var q, r := (x / 2) / h, (x / 2) % h;
    assert x / 2 == q * h + r;
    assert x == q * a + (2 * r + x % 2);
    ModUnique(x, a, q, 2 * r + x % 2);
  }

  /** ANDing with a mask of all ones below a power of two keeps the value. */
  lemma {:induction false} AndLowOnes(x: nat, limit: nat)
    requires IsPowerOfTwo(limit) && x < limit
    ensures BitAnd(x, limit - 1) == x
    decreases limit
  {
    if x != 0 {
      assert limit >= 2;
      AndLowOnes(x / 2, limit / 2);
      assert (limit - 1) / 2 == limit / 2 - 1 && (limit - 1) % 2 == 1;
    }
  }

  /**
   * ANDing with the mask that clears the bits below a power of two `a`
   * (inside a word of `limit` values) rounds down to a multiple of `a`.
   */
  lemma {:induction false} AndHighMask(x: nat, a: nat, limit: nat)
    requires IsPowerOfTwo(a) && IsPowerOfTwo(limit) && a <= limit && x < limit
    ensures BitAnd(x, limit - a) == x - x % a
    decreases limit
  {
    if a == 1 {
      AndLowOnes(x, limit);
      ModUnique(x, 1, x, 0);
    } else if limit == a {
      ModUnique(x, a, 0, x);
    } else if x == 0 {
      ModUnique(x, a, 0, 0);
    } else {
      var hx, ha, hl := x / 2, a / 2, limit / 2;
      assert a == 2 * ha && limit == 2 * hl;
      var mask := limit - a;
      assert mask == 2 * (hl - ha);
      assert mask / 2 == hl - ha && mask % 2 == 0;
      AndHighMask(hx, ha, hl);
      var low := BitAnd(hx, hl - ha);
      assert low == hx - hx % ha;
      assert BitAnd(x, mask) == 2 * low;
      ModOfEven(x, a);
      assert x == 2 * hx + x % 2;
    }
  }

  /** Of two powers of two, a smaller one fits twice into the larger. */
  lemma {:induction false} SmallerPowerOfTwo(a: nat, b: nat)
    requires IsPowerOfTwo(a) && IsPowerOfTwo(b) && a < b
    ensures 2 * a <= b
    decreases b
  {
    if a > 1 {
      SmallerPowerOfTwo(a / 2, b / 2);
    }
  }

  /** Neither 64-bit operand of the mask expression wraps when both inputs are at most 2^63. */
  lemma WrappedOperands(blockSize: nat, alignment: nat)
    requires 1 <= alignment <= TWO_64 / 2 && blockSize <= TWO_64 / 2
    ensures Sub64(Add64(blockSize, alignment), 1) == blockSize + alignment - 1
    ensures Not64(Sub64(alignment, 1)) == TWO_64 - alignment
  {
    var sum := blockSize + alignment - 1;
    if blockSize + alignment < TWO_64 {
      ModUnique(blockSize + alignment, TWO_64, 0, blockSize + alignment);
      ModUnique(sum, TWO_64, 0, sum);
    } else {
      ModUnique(blockSize + alignment, TWO_64, 1, 0);
      ModUnique(-1, TWO_64, -1, sum);
    }
    ModUnique(alignment - 1, TWO_64, 0, alignment - 1);
  }

  /**
   * For a power-of-two alignment that fits in 64 bits, the mask expression
   * is the round-up of the block size to the alignment.
   */
  lemma StrideIsRoundUp(blockSize: nat, alignment: nat)
    requires IsPowerOfTwo(alignment) && alignment < TWO_64
    requires blockSize <= TWO_64 / 2
    ensures AlignedStride(blockSize, alignment) == RoundUp(blockSize, alignment)
  {
    AlignmentAtMostHalf(alignment);
    WrappedOperands(blockSize, alignment);
    MaskRoundsDown(blockSize + alignment - 1, alignment);
  }

  /** A power of two below 2^64 is at most 2^63. */
  lemma AlignmentAtMostHalf(alignment: nat)
    requires IsPowerOfTwo(alignment) && alignment < TWO_64
    ensures 2 * alignment <= TWO_64
  {
    TwoPow64IsPowerOfTwo();
    SmallerPowerOfTwo(alignment, TWO_64);
  }

  /** `x & ~(a - 1)` on a 64-bit value rounds `x` down to a multiple of the power of two `a`. */
  lemma MaskRoundsDown(x: nat, alignment: nat)
    requires IsPowerOfTwo(alignment) && alignment < TWO_64 && x < TWO_64
    ensures BitAnd(x, TWO_64 - alignment) == x - x % alignment
  {
    TwoPow64IsPowerOfTwo();
    AndHighMask(x, alignment, TWO_64);
  }

  /**
   * The stride is at least the block size, a multiple of the alignment, and
   * less than one alignment beyond the block size.
   */
  lemma StrideBounds(blockSize: nat, alignment: nat)
    requires IsPowerOfTwo(alignment) && alignment < TWO_64
    requires blockSize <= TWO_64 / 2
    ensures AlignedStride(blockSize, alignment) >= blockSize
    ensures AlignedStride(blockSize, alignment) % alignment == 0
    ensures AlignedStride(blockSize, alignment) < blockSize + alignment
  {
    StrideIsRoundUp(blockSize, alignment);
    var sum := blockSize + alignment - 1;
    var q, m := sum / alignment, sum % alignment;
    DivMod(sum, alignment);
    assert sum - m == q * alignment;
    ModUnique(sum - m, alignment, q, 0);
  }

  /** A multiple of a multiple of `a` is a multiple of `a`. */
  lemma MultipleOfAligned(i: nat, stride: nat, a: nat)
    requires a > 0 && stride % a == 0
    ensures (i * stride) % a == 0
  {
    var k := stride / a;
    assert stride == k * a;
    assert i * stride == (i * k) * a;
    ModUnique(i * stride, a, i * k, 0);
  }

  /** Block `i` of `count` blocks of `size` bytes laid out `stride` apart lies inside `count * stride` bytes. */
  lemma BlockWithinBuffer(i: nat, count: nat, size: nat, stride: nat)
    requires i < count && size <= stride
    ensures i * stride + size <= count * stride
  {
    assert count * stride == i * stride + stride + (count - i - 1) * stride;
  }

  /** Fewer blocks of the same stride take no more room. */
  lemma FewerBlocks(count: nat, capacity: nat, stride: nat)
    requires count <= capacity
    ensures count * stride <= capacity * stride
  {
    assert capacity * stride == count * stride + (capacity - count) * stride;
  }

  /** Two different blocks of `size` bytes laid out `stride` apart never overlap. */
  lemma BlocksDisjoint(i: nat, j: nat, size: nat, stride: nat)
    requires i < j && size <= stride
    ensures i * stride + size <= j * stride
  {
    BlockWithinBuffer(i, j, size, stride);
  }

  /** A 256-byte alignment (a common `minUniformBufferOffsetAlignment`) pads a 128-byte block to 256 bytes. */
  lemma StrideFor256ByteAlignment()
    ensures AlignedStride(128, 256) == 256
  {
    assert IsPowerOfTwo(1) && IsPowerOfTwo(2) && IsPowerOfTwo(4) && IsPowerOfTwo(8);
    assert IsPowerOfTwo(16) && IsPowerOfTwo(32) && IsPowerOfTwo(64) && IsPowerOfTwo(128);
    assert IsPowerOfTwo(256);
    StrideIsRoundUp(128, 256);
  }
}
