/** Power-of-two alignment helpers `align_up` and `padding`.

    Both are written in the source as bit masks on `usize`. The model keeps the
    bit-level definitions (clearing and keeping the low bits of a number) and
    proves them equal to the arithmetic they stand for. */
module Align {

  /** 2^64: `usize` values live below it, and `wrapping_neg` wraps around it. */
  const USIZE_MODULUS: nat := 0x1_0000_0000_0000_0000

  /** 2^k */
  function Pow2(k: nat): (r: nat)
    ensures r >= 1
  {
    if k == 0 then 1 else 2 * Pow2(k - 1)
  }

  predicate IsPowerOfTwo(a: nat)
    decreases a
  {
    a == 1 || (a >= 2 && a % 2 == 0 && IsPowerOfTwo(a / 2))
  }

  /** `y & (a - 1)`: the bits of `y` below the power of two `a`. */
  function LowBits(y: nat, a: nat): nat
    requires IsPowerOfTwo(a)
    decreases a
  {
    if a == 1 then 0 else y % 2 + 2 * LowBits(y / 2, a / 2)
  }

  /** `y & !(a - 1)`: `y` with the bits below the power of two `a` cleared. */
  function ClearLowBits(y: nat, a: nat): nat
    requires IsPowerOfTwo(a)
    decreases a
  {
    if a == 1 then y else 2 * ClearLowBits(y / 2, a / 2)
  }

  /** `x.wrapping_neg()` on a `usize`: 2^64 - x, wrapped, and 0 for 0. */
  function WrappingNeg(x: nat): nat
  {
    (USIZE_MODULUS - x % USIZE_MODULUS) % USIZE_MODULUS
  }

  /** `align_up(x, align)`: `(x + align - 1) & !(align - 1)`. */
  function AlignUp(x: nat, align: nat): nat
    requires IsPowerOfTwo(align)
  {
    ClearLowBits(x + align - 1, align)
  }

  /** `padding(x, align)`: `x.wrapping_neg() & (align - 1)`. */
  function Padding(x: nat, align: nat): nat
    requires IsPowerOfTwo(align)
  {
    LowBits(WrappingNeg(x), align)
  }

  predicate IsMultipleOf(m: nat, a: nat)
    requires a > 0
  {
    m % a == 0
  }

  // ---------------------------------------------------------------------------
  // Arithmetic helpers

  lemma DivModUnique(y: int, d: int, q: int, r: int)
    requires d > 0 && 0 <= r < d && y == d * q + r
    ensures y / d == q && y % d == r
  {
    var q', r' := y / d, y % d;
    assert d * q' + r' == d * q + r;
    if q' > q {
      assert d * q' >= d * (q + 1) by { MulMonotone(d, q + 1, q'); }
    } else if q' < q {
      assert d * q >= d * (q' + 1) by { MulMonotone(d, q' + 1, q); }
    }
  }

  lemma MulMonotone(d: int, i: int, j: int)
    requires d >= 0 && i <= j
    ensures d * i <= d * j
  {
    assert d * j - d * i == d * (j - i);
  }

  /** The remainder modulo an even `a` splits into the lowest bit and the rest. */
  lemma ModHalves(y: nat, a: nat)
    requires a >= 2 && a % 2 == 0
    ensures y % a == y % 2 + 2 * ((y / 2) % (a / 2))
  {
    var h, q, b := a / 2, y / 2, y % 2;
    var m, r := q / h, q % h;
    assert q == h * m + r;
    assert y == a * m + (2 * r + b);
    DivModUnique(y, a, m, 2 * r + b);
  }

  lemma PowerOfTwoPositive(a: nat)
    requires IsPowerOfTwo(a)
    ensures a >= 1
  {
  }

  // ---------------------------------------------------------------------------
  // The bit masks as arithmetic

  /** Keeping the bits below `a` is the remainder modulo `a`. */
  lemma {:induction false} LowBitsIsMod(y: nat, a: nat)
    requires IsPowerOfTwo(a)
    ensures LowBits(y, a) == y % a
    decreases a
  {
    if a != 1 {
      LowBitsIsMod(y / 2, a / 2);
      ModHalves(y, a);
    }
  }

  /** Clearing the bits below `a` rounds down to a multiple of `a`. */
  lemma {:induction false} ClearLowBitsRoundsDown(y: nat, a: nat)
    requires IsPowerOfTwo(a)
    ensures ClearLowBits(y, a) == y - y % a
    decreases a
  {
    if a != 1 {
      ClearLowBitsRoundsDown(y / 2, a / 2);
      ModHalves(y, a);
    }
  }

  /** A power of two divides every larger power of two. */
  lemma {:induction false} PowerOfTwoDivides(a: nat, b: nat)
    requires IsPowerOfTwo(a) && IsPowerOfTwo(b) && a <= b
    ensures b % a == 0
    decreases a
  {
    if a != 1 {
      PowerOfTwoDivides(a / 2, b / 2);
      var k := (b / 2) / (a / 2);
      assert b / 2 == (a / 2) * k;
      assert b == a * k;
      DivModUnique(b, a, k, 0);
    }
  }

  lemma PowerOfTwoDouble(x: nat)
    requires IsPowerOfTwo(x)
    ensures IsPowerOfTwo(2 * x)
  {
    assert (2 * x) / 2 == x;
  }

  lemma {:induction false} Pow2IsPowerOfTwo(k: nat)
    ensures IsPowerOfTwo(Pow2(k))
  {
    if k > 0 {
      Pow2IsPowerOfTwo(k - 1);
      PowerOfTwoDouble(Pow2(k - 1));
    }
  }

  lemma {:induction false} Pow2Add(i: nat, j: nat)
    ensures Pow2(i + j) == Pow2(i) * Pow2(j)
  {
    if i > 0 {
      Pow2Add(i - 1, j);
      assert Pow2(i + j) == 2 * Pow2(i - 1 + j);
    }
  }

  /** The `usize` modulus is the power of two 2^64. */
  lemma UsizeModulusIsPow2()
    ensures USIZE_MODULUS == Pow2(64)
  {
    assert Pow2(1) == 2;
    Pow2Add(1, 1);
    assert Pow2(2) == 4;
    Pow2Add(2, 2);
    assert Pow2(4) == 0x10;
    Pow2Add(4, 4);
    assert Pow2(8) == 0x100;
    Pow2Add(8, 8);
    assert Pow2(16) == 0x1_0000;
    Pow2Add(16, 16);
    assert Pow2(32) == 0x1_0000_0000;
    Pow2Add(32, 32);
  }

  /** Rounding down to a multiple of `a` moves by less than `a`. */
  lemma RoundDown(y: nat, a: nat)
    requires a > 0
    ensures IsMultipleOf(y - y % a, a) && y - a < y - y % a <= y
  {
    DivModUnique(y - y % a, a, y / a, 0);
  }

  /** Two distinct multiples of `a` are at least `a` apart. */
  lemma MultiplesApart(m: nat, r: nat, a: nat)
    requires a > 0 && IsMultipleOf(m, a) && IsMultipleOf(r, a) && m < r
    ensures m <= r - a
  {
    var i, j := m / a, r / a;
    assert m == a * i && r == a * j;
    if i >= j {
      MulMonotone(a, j, i);
    }
    MulMonotone(a, i, j - 1);
  }

  /** The distance from `x` up to the next multiple of `a`. */
  lemma AlignUpDistance(x: nat, a: nat)
    requires IsPowerOfTwo(a)
    ensures AlignUp(x, a) - x == (if x % a == 0 then 0 else a - x % a)
  {
    PowerOfTwoPositive(a);
    ClearLowBitsRoundsDown(x + a - 1, a);
    ModShift(x, a);
  }

  /** Adding `a - 1` to `x` moves its remainder modulo `a` one step back. */
  lemma ModShift(x: nat, a: nat)
    requires a > 0
    ensures (x + a - 1) % a == (if x % a == 0 then a - 1 else x % a - 1)
  {
    var q, r := x / a, x % a;
    DivModUnique(x, a, q, r);
    if r == 0 {
      DivModUnique(x + a - 1, a, q, a - 1);
    } else {
      NextMultiple(a, q);
      DivModUnique(x + a - 1, a, q + 1, r - 1);
    }
  }

  lemma NextMultiple(a: int, q: int)
    ensures a * (q + 1) == a * q + a
  {
  }

  /** If `x + n` is a multiple of `a`, then `n` is what takes `x` up to one. */
  lemma ComplementMod(x: nat, n: nat, a: nat)
    requires a > 0 && IsMultipleOf(x + n, a)
    ensures n % a == (if x % a == 0 then 0 else a - x % a)
  {
    var t := (x + n) / a;
    assert x + n == a * t;
    var q, r := x / a, x % a;
    if r == 0 {
      DivModUnique(n, a, t - q, 0);
    } else {
      DivModUnique(n, a, t - q - 1, a - r);
    }
  }

  /** A number and its wrapped negation add up to a multiple of 2^64. */
  lemma WrappingNegComplement(x: nat)
    ensures IsMultipleOf(x + WrappingNeg(x), USIZE_MODULUS)
  {
    var m := USIZE_MODULUS;
    var w, j := x % m, x / m;
    var mj := m * j;
    assert x == mj + w;
    if w == 0 {
      DivModUnique(m, m, 1, 0);
      assert WrappingNeg(x) == 0;
      DivModUnique(x, m, j, 0);
    } else {
      DivModUnique(m - w, m, 0, m - w);
      assert WrappingNeg(x) == m - w;
      assert x + (m - w) == m * (j + 1);
      DivModUnique(x + WrappingNeg(x), m, j + 1, 0);
    }
  }

  /** Every `usize` power of two divides 2^64. */
  lemma PowerOfTwoDividesUsize(a: nat)
    requires IsPowerOfTwo(a) && a < USIZE_MODULUS
    ensures IsMultipleOf(USIZE_MODULUS, a)
  {
    UsizeModulusIsPow2();
    Pow2IsPowerOfTwo(64);
    PowerOfTwoDivides(a, USIZE_MODULUS);
  }

  lemma MultipleOfMultiple(v: nat, b: nat, a: nat)
    requires a > 0 && b > 0 && IsMultipleOf(v, b) && IsMultipleOf(b, a)
    ensures IsMultipleOf(v, a)
  {
    var i, j := v / b, b / a;
    assert v == b * i && b == a * j;
    assert v == a * (j * i);
    DivModUnique(v, a, j * i, 0);
  }

  // ---------------------------------------------------------------------------
  // The alignment law

  /** `align_up(x, a)` is the least multiple of `a` that is at least `x`. */
  lemma AlignUpIsLeastMultiple(x: nat, a: nat)
    requires IsPowerOfTwo(a)
    ensures IsMultipleOf(AlignUp(x, a), a)
    ensures x <= AlignUp(x, a) < x + a
    ensures forall m: nat {:trigger IsMultipleOf(m, a)} ::
              IsMultipleOf(m, a) && x <= m ==> AlignUp(x, a) <= m
  {
    PowerOfTwoPositive(a);
    var r := AlignUp(x, a);
    AlignUpBounds(x, a);
    forall m: nat | IsMultipleOf(m, a) && x <= m
      ensures r <= m
    {
      if m < r {
        MultiplesApart(m, r, a);
      }
    }
  }

  lemma AlignUpBounds(x: nat, a: nat)
    requires IsPowerOfTwo(a)
    ensures a > 0 && IsMultipleOf(AlignUp(x, a), a)
    ensures x <= AlignUp(x, a) < x + a
  {
    PowerOfTwoPositive(a);
    var y := x + a - 1;
    ClearLowBitsRoundsDown(y, a);
    RoundDown(y, a);
    assert AlignUp(x, a) == y - y % a;
  }

  /** `padding(x, a)` is the distance from `x` up to `align_up(x, a)`, so it is
      always less than one block. */
  lemma PaddingIsGap(x: nat, a: nat)
    requires IsPowerOfTwo(a) && a < USIZE_MODULUS
    ensures Padding(x, a) == AlignUp(x, a) - x
    ensures Padding(x, a) < a
  {
    PowerOfTwoPositive(a);
    var n := WrappingNeg(x);
    WrappingNegComplement(x);
    PowerOfTwoDividesUsize(a);
    MultipleOfMultiple(x + n, USIZE_MODULUS, a);
    ComplementMod(x, n, a);
    LowBitsIsMod(n, a);
    AlignUpDistance(x, a);
  }
}
