/** The .NET numeric types the torrent cache works with: 32- and 64-bit
    signed integers with unchecked (wrapping) addition, LINQ's seedless
    `Aggregate` used as a sum, and an abstraction of IEEE doubles that keeps
    NaN's inequality (NaN is unequal to everything, itself included) but not
    rounding: two reals that round to the same double still differ here. */
module Numerics {

  const TwoTo63: int := 0x8000_0000_0000_0000
  const TwoTo64: int := 0x1_0000_0000_0000_0000

  /** System.Int32 (`int` in C#). */
  type Int32 = x: int | -0x8000_0000 <= x < 0x8000_0000

  /** System.Int64 (`long` in C#). */
  type Int64 = x: int | -TwoTo63 <= x < TwoTo63

  /** TimeSpan.MaxValue.Ticks, i.e. Int64.MaxValue. */
  const TimeSpanMaxTicks: Int64 := 0x7FFF_FFFF_FFFF_FFFF

  /** Reduces an unbounded integer to the Int64 with the same low 64 bits. */
  function Wrap64(x: int): (r: Int64)
    ensures (r - x) % TwoTo64 == 0
    ensures -TwoTo63 <= x < TwoTo63 ==> r == x
  {
    Int64Residue(x);
    (x + TwoTo63) % TwoTo64 - TwoTo63
  }

  lemma Int64Residue(x: int)
    ensures ((x + TwoTo63) % TwoTo64 - TwoTo63 - x) % TwoTo64 == 0
    ensures -TwoTo63 <= x < TwoTo63 ==> (x + TwoTo63) % TwoTo64 - TwoTo63 == x
  {
    var k := (x + TwoTo63) / TwoTo64;
    assert x + TwoTo63 == TwoTo64 * k + (x + TwoTo63) % TwoTo64;
    assert (x + TwoTo63) % TwoTo64 - TwoTo63 - x == TwoTo64 * (-k);
    ModOfMultiple(-k, TwoTo64);
    if -TwoTo63 <= x < TwoTo63 {
      ModUnique(x + TwoTo63, 0, x + TwoTo63, TwoTo64);
    }
  }

  /** `a + b` on two longs in C#'s default unchecked context. */
  function AddUnchecked(a: Int64, b: Int64): (r: Int64)
    ensures (r - (a + b)) % TwoTo64 == 0
    ensures -TwoTo63 <= a + b < TwoTo63 ==> r == a + b
  {
    Wrap64(a + b)
  }

  /** The mathematical sum of a sequence. */
  function Sum(xs: seq<int>): int
  {
    if xs == [] then 0 else Sum(xs[..|xs| - 1]) + xs[|xs| - 1]
  }

  /** `xs.Aggregate((a, b) => a + b)` over longs: a left fold seeded with the
      first element; defined only for a non-empty sequence (on an empty one
      LINQ throws InvalidOperationException). */
  function AggregateSum(xs: seq<Int64>): Int64
    requires |xs| > 0
  {
    if |xs| == 1 then xs[0] else AddUnchecked(AggregateSum(xs[..|xs| - 1]), xs[|xs| - 1])
  }

  /** Wrapping at every step of the fold is the same as wrapping the true
      sum once, so the fold is exact whenever the true sum fits in a long. */
  lemma {:induction false} AggregateSumIsWrappedSum(xs: seq<Int64>)
    requires |xs| > 0
    ensures AggregateSum(xs) == Wrap64(Sum(xs))
    ensures -TwoTo63 <= Sum(xs) < TwoTo63 ==> AggregateSum(xs) == Sum(xs)
  {
    var init := xs[..|xs| - 1];
    var last := xs[|xs| - 1];
    if |xs| == 1 {
      assert init == [];
    } else {
      AggregateSumIsWrappedSum(init);
      WrapAddLeft(Sum(init), last);
    }
  }

  /** Wrapping the left operand first does not change a wrapped sum. */
  lemma WrapAddLeft(a: int, b: int)
    ensures Wrap64(Wrap64(a) + b) == Wrap64(a + b)
  {
    ModAddLeft(a + TwoTo63, b, TwoTo64);
  }

  lemma ModAddLeft(x: int, b: int, m: int)
    requires m > 0
    ensures (x % m + b) % m == (x + b) % m
  {
    var y := x % m + b;
    var r := y % m;
    assert y == m * (y / m) + r;
    assert x == m * (x / m) + x % m;
    assert x + b == m * (y / m + x / m) + r;
    ModUnique(x + b, y / m + x / m, r, m);
  }

  /** Euclidean remainders are unique. */
  lemma ModUnique(y: int, k: int, r: int, m: int)
    requires m > 0 && 0 <= r < m && y == m * k + r
    ensures y % m == r
  {
    var d := k - y / m;
    assert m * d == y % m - r;
    if d >= 1 {
      MulAtLeast(m, d);
    }
  }

  lemma ModOfMultiple(k: int, m: int)
    requires m > 0
    ensures (m * k) % m == 0
  {
    ModUnique(m * k, k, 0, m);
  }

  lemma MulAtLeast(m: int, d: int)
    requires m > 0 && d >= 1
    ensures m * d >= m
  {
  }

  /** A System.Double as far as the cache observes it. Rounding and signed
      zeros are not represented. */
  datatype Double = Finite(r: real) | PositiveInfinity | NegativeInfinity | NaN

  /** C#'s `a != b` on doubles: true whenever either side is NaN. */
  predicate DoubleDiffers(a: Double, b: Double)
  {
    a.NaN? || b.NaN? || a != b
  }

  /** `(double)num / (double)den` for two longs, following IEEE 754 division
      by zero: a non-zero numerator gives a signed infinity, 0/0 gives NaN. */
  function LongQuotient(num: Int64, den: Int64): (q: Double)
    ensures q.NaN? <==> num == 0 && den == 0
    ensures q.Finite? <==> den != 0
    ensures q.Finite? ==> q.r * (den as real) == num as real
  {
    if den != 0 then Finite(num as real / den as real)
    else if num > 0 then PositiveInfinity
    else if num < 0 then NegativeInfinity
    else NaN
  }

  /** Only NaN makes a double differ from itself. */
  lemma DoubleDiffersFromItself(a: Double)
    ensures DoubleDiffers(a, a) <==> a.NaN?
  {
  }
}
