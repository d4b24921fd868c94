/** The interest engine: utilisation, the kinked rate curve, and index growth. */
module Interest {
  import opened Prelude
  import opened Rounding
  import opened Shares
  import opened AccountingModel
  import opened Primitives

  const LEDGERS_PER_YEAR: i128 := 6_307_200

  datatype RateModel = RateModel(
    baseRate: i128,
    slope1: i128,
    slope2: i128,
    optimalUtilization: i128,
    maxBorrowRate: i128,
    reserveFactor: i128)

  datatype Rates = Rates(utilization: i128, borrowRate: i128, supplyRate: i128)

  datatype Accrual = Accrual(rates: Rates, supplyIndex: i128, borrowIndex: i128)

  // ----- rates -----

  function ValidateRateModel(m: RateModel): Result<()> {
    var _ :- Reject(m.baseRate < 0 || m.slope1 < 0 || m.slope2 < 0 || m.maxBorrowRate < 0 || m.reserveFactor < 0,
                    InvalidAmount);
    var _ :- Reject(m.optimalUtilization <= 0 || m.optimalUtilization > RAY, InvalidOptimalUtilization);
    var _ :- Reject(m.maxBorrowRate <= 0 || m.maxBorrowRate > RAY, InvalidInterestRateConfig);
    Reject(m.reserveFactor > RAY, InvalidReserveFactor)
  }

  function CalculateUtilization(totalSupply: i128, totalBorrow: i128): Result<i128> {
    var _ :- Reject(totalSupply < 0 || totalBorrow < 0, InvalidAmount);
    if totalSupply == 0 || totalBorrow == 0 then Ok(0)
    else if totalBorrow > totalSupply then Err(InvalidAmount)
    else MulDivUp(totalBorrow, RAY, totalSupply)
  }

  /** Rate before the cap: one slope up to the kink, a second one beyond it. */
  function RawBorrowRate(utilization: i128, m: RateModel): Result<i128> {
    if utilization <= m.optimalUtilization then
      var slope :- MulDivUp(utilization, m.slope1, m.optimalUtilization);
      Checked(m.baseRate + slope, MathOverflow)
    else
      var excess :- Checked(utilization - m.optimalUtilization, MathUnderflow);
      var room :- Checked(RAY - m.optimalUtilization, MathUnderflow);
      if room == 0 then Err(InvalidOptimalUtilization)
      else
        var slope :- MulDivUp(excess, m.slope2, room);
        var base :- Checked(m.baseRate + m.slope1, MathOverflow);
        Checked(base + slope, MathOverflow)
  }

  function CalculateBorrowRate(utilization: i128, m: RateModel): Result<i128> {
    var _ :- ValidateRateModel(m);
    var _ :- Reject(utilization < 0 || utilization > RAY, InvalidAmount);
    var raw :- RawBorrowRate(utilization, m);
    Ok(if raw <= m.maxBorrowRate then raw else m.maxBorrowRate)
  }

  /** The supply rate before the source's last sanity check. */
  function RawSupplyRate(borrowRate: i128, utilization: i128, reserveFactor: i128): Result<i128> {
    var _ :- Reject(borrowRate < 0 || utilization < 0 || reserveFactor < 0, InvalidAmount);
    var _ :- Reject(utilization > RAY, InvalidAmount);
    var _ :- Reject(reserveFactor > RAY, InvalidReserveFactor);
    var adjusted :- MulDivDown(borrowRate, utilization, RAY);
    MulDivDown(adjusted, RAY - reserveFactor, RAY)
  }

  function CalculateSupplyRate(borrowRate: i128, utilization: i128, reserveFactor: i128): Result<i128> {
    var rate :- RawSupplyRate(borrowRate, utilization, reserveFactor);
    if rate > borrowRate then Err(InvalidInterestRateConfig) else Ok(rate)
  }

  function CalculateRates(totalSupply: i128, totalBorrow: i128, m: RateModel): Result<Rates> {
    var utilization :- CalculateUtilization(totalSupply, totalBorrow);
    var borrowRate :- CalculateBorrowRate(utilization, m);
    var supplyRate :- CalculateSupplyRate(borrowRate, utilization, m.reserveFactor);
    Ok(Rates(utilization, borrowRate, supplyRate))
  }

  // ----- indices -----

  function DeltaLedger(last: u32, now: u32): Result<u32> {
    var _ :- Reject(now < last, InvalidAmount);
    Ok(now - last)
  }

  function UpdateBorrowIndex(previous: i128, rate: i128, delta: u32): Result<i128> {
    var _ :- Reject(previous <= 0, InvalidInterestRateConfig);
    var _ :- Reject(rate < 0, InvalidAmount);
    if delta == 0 || rate == 0 then Ok(previous)
    else
      var rateDelta :- MulDivUp(rate, delta, LEDGERS_PER_YEAR);
      var factor :- Checked(RAY + rateDelta, MathOverflow);
      MulDivUp(previous, factor, RAY)
  }

  function UpdateSupplyIndex(previous: i128, rate: i128, delta: u32): Result<i128> {
    var _ :- Reject(previous <= 0, InvalidInterestRateConfig);
    var _ :- Reject(rate < 0, InvalidAmount);
    if delta == 0 || rate == 0 then Ok(previous)
    else
      var rateDelta :- MulDivDown(rate, delta, LEDGERS_PER_YEAR);
      var factor :- Checked(RAY + rateDelta, MathOverflow);
      MulDivDown(previous, factor, RAY)
  }

  function ValidateInterestState(supplyIndex: i128, borrowIndex: i128, rates: Rates, reserveFactor: i128,
                                 last: u32, now: u32): Result<()> {
    var _ :- Reject(supplyIndex <= 0 || borrowIndex <= 0, InvalidInterestRateConfig);
    var _ :- Reject(rates.utilization < 0 || rates.borrowRate < 0 || rates.supplyRate < 0 || reserveFactor < 0,
                    InvalidAmount);
    var _ :- Reject(rates.utilization > RAY, InvalidAmount);
    var _ :- Reject(reserveFactor > RAY, InvalidReserveFactor);
    var _ :- Reject(rates.supplyRate > rates.borrowRate, InvalidInterestRateConfig);
    Reject(now < last, InvalidAmount)
  }

  function ValidateIndexMonotonicity(oldSupply: i128, oldBorrow: i128, newSupply: i128, newBorrow: i128)
    : Result<()>
  {
    Reject(oldSupply <= 0 || oldBorrow <= 0 || newSupply <= 0 || newBorrow <= 0
           || newSupply < oldSupply || newBorrow < oldBorrow, InvalidInterestRateConfig)
  }

  /** Both new indices, before the monotonicity guard. */
  function NewIndices(supplyIndex: i128, borrowIndex: i128, rates: Rates, reserveFactor: i128, last: u32, now: u32)
    : Result<(i128, i128)>
  {
    var _ :- ValidateInterestState(supplyIndex, borrowIndex, rates, reserveFactor, last, now);
    var delta :- DeltaLedger(last, now);
    var newBorrow :- UpdateBorrowIndex(borrowIndex, rates.borrowRate, delta);
    var newSupply :- UpdateSupplyIndex(supplyIndex, rates.supplyRate, delta);
    Ok((newSupply, newBorrow))
  }

  function AccrueInterest(totalSupply: i128, totalBorrow: i128, supplyIndex: i128, borrowIndex: i128,
                          last: u32, now: u32, m: RateModel): Result<Accrual> {
    var rates :- CalculateRates(totalSupply, totalBorrow, m);
    var updated :- NewIndices(supplyIndex, borrowIndex, rates, m.reserveFactor, last, now);
    var _ :- ValidateIndexMonotonicity(supplyIndex, borrowIndex, updated.0, updated.1);
    Ok(Accrual(rates, updated.0, updated.1))
  }

  // ----- the rate curve -----

  lemma CeilScale(u: int, s: int, d: int)
    requires d > 0 && s >= 0 && 0 <= u
    ensures 0 <= CeilDiv(u * s, d)
    ensures u <= d ==> CeilDiv(u * s, d) <= s
  {
    MulMono(0, u, s);
    CeilNonNegative(u * s, d);
    if u <= d {
      MulMono(u, d, s);
      CeilGalois(u * s, d, s);
    }
  }

  /** A higher utilisation never lowers the borrow rate: below the kink, above it, across it, and at the cap. */
  lemma BorrowRateIsMonotone(u: i128, v: i128, m: RateModel)
    requires u <= v && CalculateBorrowRate(u, m).Ok? && CalculateBorrowRate(v, m).Ok?
    ensures CalculateBorrowRate(u, m).value <= CalculateBorrowRate(v, m).value
  {
    var kink := m.optimalUtilization;
    if v <= kink {
      MulMono(u, v, m.slope1);
      CeilMono(u * m.slope1, v * m.slope1, kink);
    } else if u <= kink {
      CeilScale(u, m.slope1, kink);
      CeilScale(v - kink, m.slope2, RAY - kink);
    } else {
      MulMono(u - kink, v - kink, m.slope2);
      CeilMono((u - kink) * m.slope2, (v - kink) * m.slope2, RAY - kink);
    }
  }

  /** The zero-room branch and the supply-above-borrow branch of the source are dead. */
  lemma RateErrorBranchesAreDead(utilization: i128, m: RateModel, borrowRate: i128, reserveFactor: i128)
    ensures ValidateRateModel(m).Ok? && 0 <= utilization <= RAY ==>
              RawBorrowRate(utilization, m) != Err(InvalidOptimalUtilization)
              && RawBorrowRate(utilization, m) != Err(MathUnderflow)
    ensures RawSupplyRate(borrowRate, utilization, reserveFactor).Ok? ==>
              RawSupplyRate(borrowRate, utilization, reserveFactor).value <= borrowRate
              && CalculateSupplyRate(borrowRate, utilization, reserveFactor).Ok?
  {
    if RawSupplyRate(borrowRate, utilization, reserveFactor).Ok? {
      var adjusted := borrowRate * utilization / RAY;
      FloorScale(borrowRate, utilization, RAY);
      FloorScale(adjusted, RAY - reserveFactor, RAY);
    }
  }

  lemma FloorScale(x: int, y: int, d: int)
    requires d > 0 && x >= 0 && y <= d
    ensures x * y / d <= x
  {
    MulMono(y, d, x);
    SubMul(x, -1, d);
    FloorGalois(x * y, d, x + 1);
  }

  /** Suppliers earn no more than borrowers pay after the reserve factor, beyond one unit of utilisation rounding. */
  lemma SupplyInterestIsFunded(totalSupply: i128, totalBorrow: i128, m: RateModel)
    requires CalculateRates(totalSupply, totalBorrow, m).Ok? && totalSupply > 0
    ensures var r := CalculateRates(totalSupply, totalBorrow, m).value;
            r.supplyRate * totalSupply * RAY * RAY
            <= r.borrowRate * (RAY - m.reserveFactor) * (totalBorrow * RAY + totalSupply - 1)
  {
    var r := CalculateRates(totalSupply, totalBorrow, m).value;
    assert CalculateBorrowRate(r.utilization, m) == Ok(r.borrowRate);
    assert RawSupplyRate(r.borrowRate, r.utilization, m.reserveFactor) == Ok(r.supplyRate);
    var adjusted := r.borrowRate * r.utilization / RAY;
    UtilizationBound(totalSupply, totalBorrow);
    FundingBound(r.supplyRate, adjusted, r.borrowRate, r.utilization, RAY - m.reserveFactor, totalSupply, RAY,
                 totalBorrow * RAY + totalSupply - 1);
  }

  lemma UtilizationBound(totalSupply: i128, totalBorrow: i128)
    requires CalculateUtilization(totalSupply, totalBorrow).Ok? && totalSupply > 0
    ensures 0 <= CalculateUtilization(totalSupply, totalBorrow).value
    ensures CalculateUtilization(totalSupply, totalBorrow).value * totalSupply <= totalBorrow * RAY + totalSupply - 1
  {
    if totalBorrow > 0 {
      var u := CeilDiv(totalBorrow * RAY, totalSupply);
      SubMul(u, 1, totalSupply);
    }
  }

  lemma FundingBound(sr: int, adjusted: int, br: int, u: int, keep: int, supply: int, ray: int, paid: int)
    requires ray > 0 && keep >= 0 && supply > 0 && br >= 0
    requires adjusted == br * u / ray && sr == adjusted * keep / ray
    requires u * supply <= paid
    ensures sr * supply * ray * ray <= br * keep * paid
  {
    FloorBounds(br * u, ray);
    FloorBounds(adjusted * keep, ray);
    MulMono(sr * ray, adjusted * keep, ray);
    MulMono(adjusted * ray, br * u, keep);
    assert (adjusted * keep) * ray == (adjusted * ray) * keep by {
      Regroup(adjusted, keep, ray);
      Regroup(adjusted, ray, keep);
    }
    assert (sr * ray) * ray <= (br * u) * keep;
    MulMono((sr * ray) * ray, (br * u) * keep, supply);
    assert ((br * u) * keep) * supply == (br * keep) * (u * supply) by {
      Regroup(br, u, keep); Regroup(br, u * keep, supply); Regroup(u, keep, supply); Regroup(keep, u, supply);
      Regroup(br, keep, u * supply);
    }
    MulMono(0, br, keep);
    MulMono(u * supply, paid, br * keep);
    assert sr * supply * ray * ray == ((sr * ray) * ray) * supply by {
      Regroup(sr, supply, ray); Regroup(sr, ray, supply); Regroup(sr * ray, supply, ray); Regroup(sr * ray, ray, supply);
    }
  }

  // ----- index growth over runs -----

  lemma BorrowIndexGrows(previous: i128, rate: i128, delta: u32)
    requires UpdateBorrowIndex(previous, rate, delta).Ok?
    ensures UpdateBorrowIndex(previous, rate, delta).value >= previous
  {
    if delta != 0 && rate != 0 {
      var rd := CeilDiv(rate * delta, LEDGERS_PER_YEAR);
      GrowthFactor(previous, rd, RAY);
    }
  }

  lemma SupplyIndexGrows(previous: i128, rate: i128, delta: u32)
    requires UpdateSupplyIndex(previous, rate, delta).Ok?
    ensures UpdateSupplyIndex(previous, rate, delta).value >= previous
  {
    if delta != 0 && rate != 0 {
      var rd := rate * delta / LEDGERS_PER_YEAR;
      GrowthFactor(previous, rd, RAY);
    }
  }

  lemma GrowthFactor(index: int, growth: int, ray: int)
    requires index > 0 && growth >= 0 && ray > 0
    ensures index <= index * (ray + growth) / ray
    ensures index <= CeilDiv(index * (ray + growth), ray)
  {
    MulMono(ray, ray + growth, index);
    FloorGalois(index * (ray + growth), ray, index);
    if CeilDiv(index * (ray + growth), ray) < index {
      CeilGalois(index * (ray + growth), ray, index - 1);
      SubMul(index, 1, ray);
    }
  }

  /** With a supply rate no higher than the borrow rate the supply index stays below the borrow index. */
  lemma SupplyIndexStaysBelow(si: i128, bi: i128, sr: i128, br: i128, delta: u32)
    requires 0 < si <= bi && 0 <= sr <= br
    requires UpdateSupplyIndex(si, sr, delta).Ok? && UpdateBorrowIndex(bi, br, delta).Ok?
    ensures UpdateSupplyIndex(si, sr, delta).value <= UpdateBorrowIndex(bi, br, delta).value
  {
    if delta == 0 || sr == 0 {
      BorrowIndexGrows(bi, br, delta);
    } else {
      var rs, rb := sr * delta / LEDGERS_PER_YEAR, CeilDiv(br * delta, LEDGERS_PER_YEAR);
      MulMono(sr, br, delta);
      FloorMono(sr * delta, br * delta, LEDGERS_PER_YEAR);
      FloorBelowCeil(br * delta, LEDGERS_PER_YEAR);
      FloorGalois(sr * delta, LEDGERS_PER_YEAR, 0);
      GrowthKeepsOrder(si, bi, rs, rb, RAY);
    }
  }

  lemma GrowthKeepsOrder(si: int, bi: int, rs: int, rb: int, ray: int)
    requires 0 < si <= bi && 0 <= rs <= rb && ray > 0
    ensures si * (ray + rs) / ray <= CeilDiv(bi * (ray + rb), ray)
  {
    MulMono(si, bi, ray + rs);
    MulMono(ray + rs, ray + rb, bi);
    FloorMono(si * (ray + rs), bi * (ray + rb), ray);
    FloorBelowCeil(bi * (ray + rb), ray);
  }

  lemma FloorBelowCeil(a: int, d: int)
    requires d > 0
    ensures a / d <= CeilDiv(a, d)
  {
    SubMul(CeilDiv(a, d), -1, d);
    FloorGalois(a, d, CeilDiv(a, d) + 1);
  }

  /** The monotonicity guard never fires, and neither does the check of the record the indices are stored in. */
  lemma IndexGuardsAreDead(r: ReserveState, rates: Rates, reserveFactor: i128, now: u32)
    requires NewIndices(r.supplyIndex, r.borrowIndex, rates, reserveFactor, r.lastUpdatedLedger, now).Ok?
    ensures var updated := NewIndices(r.supplyIndex, r.borrowIndex, rates, reserveFactor, r.lastUpdatedLedger, now).value;
            && ValidateIndexMonotonicity(r.supplyIndex, r.borrowIndex, updated.0, updated.1).Ok?
            && SetReserveIndices(r, updated.0, updated.1, now).Ok?
            && (r.supplyIndex <= r.borrowIndex ==> updated.0 <= updated.1)
  {
    var delta: u32 := now - r.lastUpdatedLedger;
    BorrowIndexGrows(r.borrowIndex, rates.borrowRate, delta);
    SupplyIndexGrows(r.supplyIndex, rates.supplyRate, delta);
    if r.supplyIndex <= r.borrowIndex {
      SupplyIndexStaysBelow(r.supplyIndex, r.borrowIndex, rates.supplyRate, rates.borrowRate, delta);
    }
  }

  /** One accrual attempt: any totals, any rate model, any later ledger. */
  datatype AccrualStep = AccrualStep(totalSupply: i128, totalBorrow: i128, now: u32, rateModel: RateModel)

  function Attempt(r: ReserveState, step: AccrualStep): Result<Accrual> {
    AccrueInterest(step.totalSupply, step.totalBorrow, r.supplyIndex, r.borrowIndex,
                   r.lastUpdatedLedger, step.now, step.rateModel)
  }

  /** A failed accrual, or a refused index write, leaves the reserve as it was. */
  function AfterAccrual(r: ReserveState, step: AccrualStep): ReserveState {
    match Attempt(r, step)
    case Err(_) => r
    case Ok(a) =>
      match SetReserveIndices(r, a.supplyIndex, a.borrowIndex, step.now)
      case Ok(r') => r'
      case Err(_) => r
  }

  function AccrualRun(r: ReserveState, steps: seq<AccrualStep>): ReserveState
    decreases |steps|
  {
    if steps == [] then r else AccrualRun(AfterAccrual(r, steps[0]), steps[1..])
  }

  /** Every accrual computed along the run is accepted by the record it is written to. */
  ghost predicate NeverRefused(r: ReserveState, steps: seq<AccrualStep>)
    decreases |steps|
  {
    steps == []
    || (var a := Attempt(r, steps[0]);
        && (a.Ok? ==> SetReserveIndices(r, a.value.supplyIndex, a.value.borrowIndex, steps[0].now).Ok?)
        && NeverRefused(AfterAccrual(r, steps[0]), steps[1..]))
  }

  lemma AccrualKeepsOrder(r: ReserveState, step: AccrualStep)
    requires 0 < r.supplyIndex <= r.borrowIndex
    ensures var r', a := AfterAccrual(r, step), Attempt(r, step);
            && r.supplyIndex <= r'.supplyIndex <= r'.borrowIndex && r.borrowIndex <= r'.borrowIndex
            && (a.Ok? ==> SetReserveIndices(r, a.value.supplyIndex, a.value.borrowIndex, step.now).Ok?)
  {
    var a := Attempt(r, step);
    if a.Ok? {
      IndexGuardsAreDead(r, a.value.rates, step.rateModel.reserveFactor, step.now);
    }
  }

  /** Over any run of accruals from equal indices, indices never fall, supply never overtakes debt, nothing is refused. */
  lemma {:induction false} AccrualRunIsMonotone(r: ReserveState, steps: seq<AccrualStep>)
    requires 0 < r.supplyIndex <= r.borrowIndex
    ensures var r' := AccrualRun(r, steps);
            r.supplyIndex <= r'.supplyIndex <= r'.borrowIndex && r.borrowIndex <= r'.borrowIndex
    ensures NeverRefused(r, steps)
    decreases |steps|
  {
    if steps != [] {
      AccrualKeepsOrder(r, steps[0]);
      AccrualRunIsMonotone(AfterAccrual(r, steps[0]), steps[1..]);
    }
  }

  // ----- splitting an accrual -----

  lemma CeilSubadditive(a: int, b: int, d: int)
    requires d > 0
    ensures CeilDiv(a + b, d) <= CeilDiv(a, d) + CeilDiv(b, d)
  {
    SubMul(CeilDiv(a, d), -CeilDiv(b, d), d);
    CeilGalois(a + b, d, CeilDiv(a, d) + CeilDiv(b, d));
  }

  lemma BorrowIndexByCeilings(index: i128, rate: i128, delta: u32)
    requires delta != 0 && rate != 0 && UpdateBorrowIndex(index, rate, delta).Ok?
    ensures rate > 0 && index > 0
    ensures UpdateBorrowIndex(index, rate, delta).value
            == CeilDiv(index * (RAY + CeilDiv(rate * delta, LEDGERS_PER_YEAR)), RAY)
  {
  }

  /** Accruing twice at the same rate gives at least the index of accruing once over the whole period. */
  lemma SplitAccrualIsNotCheaper(index: i128, rate: i128, d1: u32, d2: u32)
    requires d1 + d2 <= U32_MAX
    requires UpdateBorrowIndex(index, rate, d1).Ok?
    requires UpdateBorrowIndex(UpdateBorrowIndex(index, rate, d1).value, rate, d2).Ok?
    requires UpdateBorrowIndex(index, rate, d1 + d2).Ok?
    ensures UpdateBorrowIndex(UpdateBorrowIndex(index, rate, d1).value, rate, d2).value
            >= UpdateBorrowIndex(index, rate, d1 + d2).value
  {
    hide CeilDiv, MulDivUp;
    if rate != 0 && d1 != 0 && d2 != 0 {
      BorrowIndexByCeilings(index, rate, d1);
      BorrowIndexByCeilings(UpdateBorrowIndex(index, rate, d1).value, rate, d2);
      BorrowIndexByCeilings(index, rate, d1 + d2);
      SplitCeilings(index, rate, d1, d2, LEDGERS_PER_YEAR, RAY);
    }
  }

  lemma SplitCeilings(index: int, rate: int, d1: int, d2: int, year: int, ray: int)
    requires index > 0 && rate > 0 && d1 > 0 && d2 > 0 && year > 0 && ray > 0
    ensures var mid := CeilDiv(index * (ray + CeilDiv(rate * d1, year)), ray);
            CeilDiv(mid * (ray + CeilDiv(rate * d2, year)), ray)
            >= CeilDiv(index * (ray + CeilDiv(rate * (d1 + d2), year)), ray)
  {
    hide CeilDiv;
    var r1, r2, r := CeilDiv(rate * d1, year), CeilDiv(rate * d2, year), CeilDiv(rate * (d1 + d2), year);
    MulMono(0, d1, rate);
    MulMono(0, d2, rate);
    CeilNonNegative(rate * d1, year);
    CeilNonNegative(rate * d2, year);
    Distribute(rate, d1, d2);
    CeilSubadditive(rate * d1, rate * d2, year);
    CompoundingDominates(index, r1, r2, r, ray, CeilDiv(index * (ray + r1), ray));
  }

  lemma Distribute(a: int, x: int, y: int)
    ensures a * (x + y) == a * x + a * y
  {
  }

  lemma CompoundingDominates(index: int, r1: int, r2: int, r: int, ray: int, mid: int)
    requires index > 0 && r1 >= 0 && r2 >= 0 && r <= r1 + r2 && ray > 0
    requires mid == CeilDiv(index * (ray + r1), ray)
    ensures CeilDiv(mid * (ray + r2), ray) >= CeilDiv(index * (ray + r), ray)
  {
    hide CeilDiv;
    var x := index * r1;
    MulMono(0, r1, index);
    Distribute(index, ray, r1);
    ShiftByMultiple(x, index, ray);
    var c := CeilDiv(x, ray);
    CeilNonNegative(x, ray);
    CeilGalois(x, ray, c);
    Distribute(ray, index, c);
    Distribute(mid, ray, r2);
    MulMono(index, mid, r2);
    MulMono(r, r1 + r2, index);
    Distribute(index, r1, r2);
    Distribute(index, ray, r);
    CeilMono(index * (ray + r), mid * (ray + r2), ray);
  }
}
