/** Fixed-point arithmetic of the lending pool: checked 128-bit operations, `None` on overflow. */
module PoolMath {
  import opened Prelude
  import opened Rounding

  const HALF_WAD: i128 := 500_000_000_000_000_000
  const HALF_RAY: i128 := 500_000_000_000_000_000_000_000_000
  const SECONDS_PER_YEAR: i128 := 31_557_600
  const WAD_TO_RAY: i128 := 1_000_000_000
  /** Largest amount that can still be multiplied by WAD. */
  const SCALE_LIMIT: i128 := 170_141_183_460_469_231_731

  type u64 = x: int | 0 <= x < 0x1_0000_0000_0000_0000

  /** The value of a checked operation. */
  function Fit(x: int): Option<i128> {
    if InI128(x) then Some(x) else None
  }

  /** Machine division truncates toward zero. */
  function TruncDiv(a: int, b: int): int
    requires b != 0
  {
    if a >= 0 then a / b else -((-a) / b)
  }

  function WadMul(a: i128, b: i128): Option<i128> {
    var product :- Fit(a * b);
    var rounded :- Fit(product + HALF_WAD);
    Fit(TruncDiv(rounded, WAD))
  }

  function WadDiv(a: i128, b: i128): Option<i128> {
    if b == 0 then None
    else
      var numerator :- Fit(a * WAD);
      var rounded :- Fit(numerator + TruncDiv(b, 2));
      Fit(TruncDiv(rounded, b))
  }

  function RayMul(a: i128, b: i128): Option<i128> {
    var product :- Fit(a * b);
    var rounded :- Fit(product + HALF_RAY);
    Fit(TruncDiv(rounded, RAY))
  }

  function PercentToWad(bps: u32): i128 {
    bps * WAD / PERCENTAGE_FACTOR
  }

  function LinearInterest(rate: i128, elapsed: u64): Option<i128> {
    if elapsed == 0 then Some(RAY)
    else
      var product :- Fit(rate * elapsed);
      Fit(RAY + TruncDiv(product, SECONDS_PER_YEAR))
  }

  function CompoundedInterest(rate: i128, elapsed: u64): Option<i128> {
    if elapsed == 0 || rate == 0 then Some(RAY)
    else
      var product :- Fit(rate * elapsed);
      var first: i128 := TruncDiv(product, SECONDS_PER_YEAR);
      var squared :- RayMul(first, first);
      var cubed :- RayMul(squared, first);
      var one :- Fit(RAY + first);
      var two :- Fit(one + TruncDiv(squared, 2));
      Fit(two + TruncDiv(cubed, 6))
  }

  /** Both totals divided by ten until the borrows can be multiplied by WAD. */
  function ScaledDown(deposits: i128, borrows: i128): (i128, i128)
    decreases borrows
  {
    if borrows > SCALE_LIMIT then ScaledDown(TruncDiv(deposits, 10), TruncDiv(borrows, 10)) else (deposits, borrows)
  }

  function UtilizationRate(deposits: i128, borrows: i128): Option<i128> {
    if deposits == 0 then Some(0)
    else
      var (d, b) := ScaledDown(deposits, borrows);
      if d == 0 then Some(0) else WadDiv(b, d)
  }

  method CalculateUtilizationRate(totalDeposits: i128, totalBorrows: i128) returns (r: Option<i128>)
    ensures r == UtilizationRate(totalDeposits, totalBorrows)
  {
    if totalDeposits == 0 { return Some(0); }
    var borrows: i128, deposits: i128 := totalBorrows, totalDeposits;
    while borrows > SCALE_LIMIT
      invariant ScaledDown(deposits, borrows) == ScaledDown(totalDeposits, totalBorrows)
      decreases borrows
    {
      borrows := TruncDiv(borrows, 10);
      deposits := TruncDiv(deposits, 10);
    }
    if deposits == 0 { return Some(0); }
    r := WadDiv(borrows, deposits);
  }

  function BorrowRate(utilization: i128, optimal: i128, base: i128, slope1: i128, slope2: i128): Option<i128> {
    if utilization <= optimal then
      var ratio :- WadDiv(utilization, optimal);
      var variable :- WadMul(ratio, slope1);
      Fit(base + variable)
    else
      var excess :- Fit(utilization - optimal);
      var remaining :- Fit(WAD - optimal);
      var ratio :- WadDiv(excess, remaining);
      var steep :- WadMul(ratio, slope2);
      var kink :- Fit(base + slope1);
      Fit(kink + steep)
  }

  function SupplyRate(borrowRate: i128, utilization: i128, reserveFactorBps: u32): Option<i128> {
    var factor :- Fit(WAD - PercentToWad(reserveFactorBps));
    var used :- WadMul(borrowRate, utilization);
    WadMul(used, factor)
  }

  // ----- ranges -----

  /** The last checks of the two products and of the quotient never fail: dividing cannot overflow. */
  lemma QuotientsFit(a: i128, b: i128)
    ensures WadMul(a, b).None? <==> !InI128(a * b) || !InI128(a * b + HALF_WAD)
    ensures RayMul(a, b).None? <==> !InI128(a * b) || !InI128(a * b + HALF_RAY)
    ensures b != 0 ==> (WadDiv(a, b).None? <==> !InI128(a * WAD) || !InI128(a * WAD + TruncDiv(b, 2)))
  {
    if b != 0 {
      var n := a * WAD + TruncDiv(b, 2);
      if n >= 0 {
        QuotientShrinks(n, b);
      } else {
        QuotientShrinks(-n, b);
      }
    }
  }

  lemma QuotientShrinks(n: int, b: int)
    requires n >= 0 && b != 0
    ensures -n <= n / b <= n
    ensures b != -1 && n > 0 ==> -n < n / b
  {
    if b > 0 {
      FloorGalois(n, b, n + 1);
      FloorGalois(n, b, 0);
      MulMono(1, b, n + 1);
    } else {
      assert n / b == -(n / -b);
      FloorGalois(n, -b, n + 1);
      FloorGalois(n, -b, 0);
      MulMono(1, -b, n + 1);
      if b < -1 && n > 0 {
        FloorGalois(n, -b, n);
        MulMono(2, -b, n);
      }
    }
  }

  lemma ProductIsNonNegative(a: int, b: int)
    requires a >= 0 && b >= 0
    ensures a * b >= 0
  {
  }

  lemma MulNonNegative(a: i128, b: i128)
    requires a >= 0 && b >= 0
    ensures WadMul(a, b).Some? ==> WadMul(a, b).value >= 0
    ensures RayMul(a, b).Some? ==> RayMul(a, b).value >= 0
  {
    ProductIsNonNegative(a, b);
  }

  lemma DivNonNegative(a: i128, b: i128)
    requires a >= 0 && b >= 0 && WadDiv(a, b).Some?
    ensures WadDiv(a, b).value >= 0
  {
    FloorBounds(a * WAD + b / 2, b);
    if WadDiv(a, b).value < 0 {
      MulMono(WadDiv(a, b).value + 1, 0, b);
    }
  }

  /** A rate model whose parameters are non-negative and whose kink lies within one WAD. */
  predicate SaneCurve(optimal: i128, base: i128, slope1: i128, slope2: i128) {
    0 <= optimal <= WAD && base >= 0 && slope1 >= 0 && slope2 >= 0
  }

  lemma BorrowRateNonNegative(u: i128, optimal: i128, base: i128, slope1: i128, slope2: i128)
    requires u >= 0 && SaneCurve(optimal, base, slope1, slope2)
    ensures BorrowRate(u, optimal, base, slope1, slope2).GetOr(base) >= 0
  {
    if BorrowRate(u, optimal, base, slope1, slope2).Some? {
      if u <= optimal {
        DivNonNegative(u, optimal);
        MulNonNegative(WadDiv(u, optimal).value, slope1);
      } else {
        DivNonNegative(u - optimal, WAD - optimal);
        MulNonNegative(WadDiv(u - optimal, WAD - optimal).value, slope2);
      }
    }
  }

  lemma SupplyRateNonNegative(rate: i128, u: i128, reserveFactorBps: u32)
    requires rate >= 0 && u >= 0 && reserveFactorBps <= PERCENTAGE_FACTOR
    ensures SupplyRate(rate, u, reserveFactorBps).GetOr(0) >= 0
  {
    if SupplyRate(rate, u, reserveFactorBps).Some? {
      MulNonNegative(rate, u);
      MulNonNegative(WadMul(rate, u).value, WAD - PercentToWad(reserveFactorBps));
    }
  }

  /** Scaling by tens keeps the totals ordered, so utilization is a fraction whenever it is defined. */
  lemma {:induction false} ScaledDownKeepsOrder(deposits: i128, borrows: i128)
    requires 0 <= borrows <= deposits
    ensures var (d, b) := ScaledDown(deposits, borrows); 0 <= b <= d && b <= SCALE_LIMIT
    decreases borrows
  {
    if borrows > SCALE_LIMIT {
      ScaledDownKeepsOrder(deposits / 10, borrows / 10);
    }
  }

  lemma {:induction false} ScaledDownNonNegative(deposits: i128, borrows: i128)
    requires 0 <= borrows && 0 <= deposits
    ensures var (d, b) := ScaledDown(deposits, borrows); 0 <= b && 0 <= d
    decreases borrows
  {
    if borrows > SCALE_LIMIT {
      ScaledDownNonNegative(deposits / 10, borrows / 10);
    }
  }

  lemma UtilizationNonNegative(deposits: i128, borrows: i128)
    requires 0 <= borrows && 0 <= deposits
    ensures UtilizationRate(deposits, borrows).GetOr(0) >= 0
  {
    ScaledDownNonNegative(deposits, borrows);
    var (d, b) := ScaledDown(deposits, borrows);
    if d != 0 && WadDiv(b, d).Some? {
      DivNonNegative(b, d);
    }
  }

  lemma UtilizationIsAFraction(deposits: i128, borrows: i128)
    requires 0 <= borrows <= deposits
    ensures UtilizationRate(deposits, borrows).Some? ==> 0 <= UtilizationRate(deposits, borrows).value <= WAD
  {
    ScaledDownKeepsOrder(deposits, borrows);
    UtilizationNonNegative(deposits, borrows);
    var (d, b) := ScaledDown(deposits, borrows);
    if deposits != 0 && d != 0 && WadDiv(b, d).Some? {
      RoundedRatioAtMostOne(b, d);
    }
  }

  lemma RoundedRatioAtMostOne(b: i128, d: i128)
    requires 0 <= b <= d && d > 0
    ensures (b * WAD + d / 2) / d <= WAD
  {
    MulMono(b, d, WAD);
    FloorGalois(b * WAD + d / 2, d, WAD + 1);
  }

  // ----- interest multipliers and why an index never moves -----

  lemma LinearAtLeastOne(rate: i128, elapsed: u64)
    requires rate >= 0
    ensures LinearInterest(rate, elapsed).GetOr(RAY) >= RAY
  {
    ProductIsNonNegative(rate, elapsed);
  }

  lemma CompoundedAtLeastOne(rate: i128, elapsed: u64)
    requires rate >= 0
    ensures CompoundedInterest(rate, elapsed).GetOr(RAY) >= RAY
  {
    ProductIsNonNegative(rate, elapsed);
    if CompoundedInterest(rate, elapsed).Some? && elapsed != 0 && rate != 0 {
      var first: i128 := TruncDiv(rate * elapsed, SECONDS_PER_YEAR);
      MulNonNegative(first, first);
      MulNonNegative(RayMul(first, first).value, first);
    }
  }

  /** Two values of at least one RAY have a product of at least 10^54, far outside 128 bits. */
  lemma RayMulOfTwoRaysOverflows(a: i128, b: i128)
    requires a >= RAY && b >= RAY
    ensures RayMul(a, b) == None
  {
    MulMono(RAY, a, RAY);
    MulMono(RAY, b, a);
  }

  /** Multiplying by an index of one RAY is the identity where it fits and nothing where it does not. */
  lemma RayMulByOne(x: i128)
    requires x >= 0
    ensures RayMul(x, RAY) == if x * RAY + HALF_RAY <= I128_MAX then Some(x) else None
  {
  }
}
