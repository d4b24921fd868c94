/** Position valuation: loan-to-value, health factor and the check run before a position is weakened. */
module Risk {
  import opened Prelude
  import opened Rounding
  import opened Shares
  import opened Store

  const MAX_HEALTH_FACTOR: i128 := I128_MAX

  datatype RiskCheck = RiskCheck(
    isAllowed: bool,
    collateralValue: i128,
    borrowValue: i128,
    ltvBps: u32,
    healthFactor: i128,
    minHealthFactor: i128,
    maxLtv: u32)

  /** The risk engines multiply before dividing, with no gcd reduction. */
  function PlainMulDivDown(x: int, y: int, d: int): (r: Result<i128>)
    ensures r.Ok? ==> x >= 0 && y >= 0 && d > 0 && 0 <= x * y <= I128_MAX && r.value == x * y / d && r.value >= 0
  {
    var _ :- Reject(x < 0 || y < 0 || d < 0, InvalidAmount);
    var _ :- Reject(d == 0, DivisionByZero);
    var product := Product(x, y);
    var _ :- Reject(product > I128_MAX, MathOverflow);
    QuotientFits(product, d);
    Ok(product / d)
  }

  function ValueWithPrice(amount: int, price: i128): Result<i128> {
    var _ :- Reject(amount < 0, InvalidAmount);
    var _ :- Reject(price <= 0, InvalidPriceValue);
    PlainMulDivDown(amount, price, WAD)
  }

  function ApplyBps(value: i128, bps: u32): Result<i128> {
    var _ :- Reject(value < 0, InvalidAmount);
    var _ :- Reject(bps > PERCENTAGE_FACTOR, InvalidAmount);
    PlainMulDivDown(value, bps, PERCENTAGE_FACTOR)
  }

  function CalculateLtv(collateralValue: i128, borrowValue: i128): Result<u32> {
    var _ :- Reject(collateralValue < 0 || borrowValue < 0, InvalidAmount);
    if borrowValue == 0 then Ok(0)
    else if collateralValue == 0 then Ok(U32_MAX)
    else
      var ltv :- PlainMulDivDown(borrowValue, PERCENTAGE_FACTOR, collateralValue);
      if ltv > U32_MAX then Err(MathOverflow) else Ok(ltv)
  }

  function CalculateHealthFactor(collateralValue: i128, borrowValue: i128, liquidationThreshold: u32): Result<i128> {
    var _ :- Reject(collateralValue < 0 || borrowValue < 0, InvalidAmount);
    if borrowValue == 0 then Ok(MAX_HEALTH_FACTOR)
    else if collateralValue == 0 then Ok(0)
    else
      var thresholdValue :- ApplyBps(collateralValue, liquidationThreshold);
      PlainMulDivDown(thresholdValue, WAD, borrowValue)
  }

  function MinHealthFactor(configured: i128): (m: i128)
    ensures m > 0
  {
    if configured <= 0 then MIN_HEALTH_FACTOR else configured
  }

  function EvaluatePosition(collateral: int, debt: int, collateralPrice: i128, debtPrice: i128,
                            listing: Listing, minHealthFactor: i128): Result<RiskCheck> {
    var collateralValue :- ValueWithPrice(collateral, collateralPrice);
    var borrowValue :- ValueWithPrice(debt, debtPrice);
    var ltv :- CalculateLtv(collateralValue, borrowValue);
    var healthFactor :- CalculateHealthFactor(collateralValue, borrowValue, listing.liquidationThreshold);
    var minHf := MinHealthFactor(minHealthFactor);
    Ok(RiskCheck(ltv <= listing.maxLtv && healthFactor >= minHf,
                 collateralValue, borrowValue, ltv, healthFactor, minHf, listing.maxLtv))
  }

  /** The position a user would hold after withdrawing and borrowing the given amounts on one reserve. */
  function EvaluateUserPosition(s: State, user: string, reserveId: u32, withdrawAmount: i128, borrowAmount: i128)
    : Result<RiskCheck>
  {
    var listing :- Lookup(s.market.listings, reserveId).OkOr(ReserveNotFound);
    var accounting :- Lookup(s.reserves, reserveId).OkOr(NotInitialized);
    var snapshot := s.Snapshot(user, reserveId);
    var supply :- if snapshot.Some? then ScaledSupplyToActual(snapshot.value.scaledSupply, accounting.supplyIndex)
                  else Ok(0);
    var debt :- if snapshot.Some? then ScaledDebtToActual(snapshot.value.scaledDebt, accounting.borrowIndex)
                else Ok(0);
    var _ :- Reject(withdrawAmount < 0, InvalidAmount);
    var _ :- Reject(withdrawAmount > supply, InsufficientCollateral);
    var _ :- Reject(borrowAmount < 0, InvalidAmount);
    var projectedDebt :- Checked(debt + borrowAmount, MathOverflow);
    EvaluatePosition(supply - withdrawAmount, projectedDebt, s.market.Price(reserveId), s.market.Price(reserveId),
                     listing, s.market.RiskConfigOrDefault().minHealthFactor)
  }

  function CanBorrow(s: State, user: string, reserveId: u32, amount: i128): Result<RiskCheck> {
    var _ :- Reject(amount <= 0, InvalidAmount);
    EvaluateUserPosition(s, user, reserveId, 0, amount)
  }

  function CanWithdraw(s: State, user: string, reserveId: u32, amount: i128): Result<RiskCheck> {
    var _ :- Reject(amount <= 0, InvalidAmount);
    EvaluateUserPosition(s, user, reserveId, amount, 0)
  }

  // ----- monotonicity -----

  /** More collateral or less debt never turns an allowed position into a refused one. */
  lemma SaferPositionStaysAllowed(c: i128, c': i128, d: i128, d': i128, pc: i128, pd: i128, l: Listing, minHf: i128)
    requires 0 <= c <= c' && 0 <= d' <= d
    requires EvaluatePosition(c, d, pc, pd, l, minHf).Ok? && EvaluatePosition(c', d', pc, pd, l, minHf).Ok?
    requires EvaluatePosition(c, d, pc, pd, l, minHf).value.isAllowed
    ensures EvaluatePosition(c', d', pc, pd, l, minHf).value.isAllowed
  {
    var before, after := EvaluatePosition(c, d, pc, pd, l, minHf).value, EvaluatePosition(c', d', pc, pd, l, minHf).value;
    MulMono(c, c', pc); FloorMono(c * pc, c' * pc, WAD);
    MulMono(d', d, pd); FloorMono(d' * pd, d * pd, WAD);
    var v, v', w, w' := before.collateralValue, after.collateralValue, before.borrowValue, after.borrowValue;
    assert v <= v' && w' <= w;
    if w' > 0 {
      assert v > 0;
      QuotientMono(w' * PERCENTAGE_FACTOR, v', w * PERCENTAGE_FACTOR, v);
      FloorMono(v * l.liquidationThreshold, v' * l.liquidationThreshold, PERCENTAGE_FACTOR) by {
        MulMono(v, v', l.liquidationThreshold);
      }
      var t, t' := v * l.liquidationThreshold / PERCENTAGE_FACTOR, v' * l.liquidationThreshold / PERCENTAGE_FACTOR;
      QuotientMono(t * WAD, w, t' * WAD, w');
    }
  }

  lemma QuotientMono(x: int, p: int, y: int, q: int)
    requires 0 <= x <= y && p >= q > 0
    ensures x / p <= y / q
  {
    FloorBounds(x, p);
    FloorGalois(x, p, 0);
    MulMono(q, p, x / p);
    FloorGalois(y, q, x / p);
  }
}
