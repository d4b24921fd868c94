/** Reusable accounting operations: check the context, convert to shares, post, re-check. */
module Operations {
  import opened Prelude
  import opened Rounding
  import opened Shares
  import opened AccountingModel
  import opened Primitives

  // ----- checks -----

  function ValidateReserveBounds(r: ReserveState): Result<()> {
    var _ :- Reject(!r.NonNegative(), InvalidAmount);
    var _ :- Reject(r.availableLiquidity > r.totalLiquidity, InvalidAmount);
    var _ :- Reject(r.badDebt > r.totalActualDebt, InvalidAmount);
    Reject(r.supplyIndex <= 0 || r.borrowIndex <= 0, DivisionByZero)
  }

  function ValidatePostState(b: Books): Result<()> {
    var _ :- Reject(!b.ledger.NonNegative(), InvalidAmount);
    var _ :- ValidateReserveBounds(b.reserve);
    Reject(b.ledger.accountingVersion != ACCOUNTING_VERSION, InvalidIndex)
  }

  function ValidateContext(b: Books, now: u32): Result<()> {
    var _ :- Reject(now < b.ledger.lastUpdatedLedger || now < b.reserve.lastUpdatedLedger, InvalidAmount);
    ValidatePostState(b)
  }

  function ValidateAccountingLedger(l: LedgerState): Result<()> {
    var _ :- Reject(!l.NonNegative(), InvalidAmount);
    var expected :- CheckedAdd(l.totalLiabilities, l.protocolEquity);
    Reject(l.totalAssets != expected, InvalidAmount)
  }

  function ValidateReserveAccounting(r: ReserveState): (v: Result<()>)
    ensures v.Ok? ==> ValidateReserveBounds(r).Ok? && r.Equation()
  {
    var _ :- ValidateReserveBounds(r);
    var assets :- CheckedAdd(r.totalLiquidity, r.totalActualDebt);
    var claims :- CheckedAdd(r.totalActualSupply, r.accruedToTreasury);
    var expected :- CheckedAdd(claims, r.accruedToInsurance);
    Reject(assets != expected, InvalidAmount)
  }

  function ValidateCap(current: i128, delta: i128, cap: Option<i128>, capError: LendingError): Result<i128> {
    var projected :- CheckedAdd(current, delta);
    var _ :- Reject(cap.Some? && cap.value < 0, InvalidAmount);
    var _ :- Reject(cap.Some? && projected > cap.value, capError);
    Ok(projected)
  }

  /** The books after an operation and the shares it minted or burned. */
  datatype Applied = Applied(books: Books, scaledDelta: i128)

  /** On success the records hold the specified books; on failure the caller drops its working copies. */
  predicate Applies(spec: Result<Applied>, r: Result<i128>, after: Books) {
    match spec
    case Ok(a) => r == Ok(a.scaledDelta) && after == a.books
    case Err(e) => r == Err(e)
  }

  // ----- liquidity -----

  function ApplyLiquidityIncrease(b: Books, delta: i128, now: u32): (r: Result<Applied>)
    ensures r.Ok? ==> delta >= 0 && Posts(b, r.value.books, Liquidity(delta), now)
    ensures r.Ok? ==> ValidatePostState(r.value.books).Ok?
  {
    var _ :- ValidateContext(b, now);
    var after :- IncreaseLiquidity(b, delta, now);
    var _ :- ValidatePostState(after);
    Ok(Applied(after, 0))
  }

  method ApplyLiquidityIncreaseInPlace(ledger: AccountingLedger, reserve: ReserveAccounting, delta: i128, now: u32)
    returns (r: Result<i128>)
    modifies ledger, reserve
    ensures Applies(ApplyLiquidityIncrease(old(BooksOf(ledger, reserve)), delta, now), r, BooksOf(ledger, reserve))
  {
    var _ :- ValidateContext(BooksOf(ledger, reserve), now);
    var _ :- IncreaseLiquidityInPlace(ledger, reserve, delta, now);
    var _ :- ValidatePostState(BooksOf(ledger, reserve));
    r := Ok(0);
  }

  function ApplyLiquidityDecrease(b: Books, delta: i128, now: u32): (r: Result<Applied>)
    ensures r.Ok? ==> 0 <= delta <= b.reserve.availableLiquidity
    ensures r.Ok? ==> Posts(b, r.value.books, Liquidity(delta).Negated(), now)
    ensures r.Ok? ==> ValidatePostState(r.value.books).Ok?
  {
    var _ :- ValidateContext(b, now);
    var after :- DecreaseLiquidity(b, delta, now);
    var _ :- ValidatePostState(after);
    Ok(Applied(after, 0))
  }

  method ApplyLiquidityDecreaseInPlace(ledger: AccountingLedger, reserve: ReserveAccounting, delta: i128, now: u32)
    returns (r: Result<i128>)
    modifies ledger, reserve
    ensures Applies(ApplyLiquidityDecrease(old(BooksOf(ledger, reserve)), delta, now), r, BooksOf(ledger, reserve))
  {
    var _ :- ValidateContext(BooksOf(ledger, reserve), now);
    var _ :- DecreaseLiquidityInPlace(ledger, reserve, delta, now);
    var _ :- ValidatePostState(BooksOf(ledger, reserve));
    r := Ok(0);
  }

  // ----- supply -----

  /** Deposits mint the floor of their share value, so the minted shares are never worth more than was paid. */
  function ApplySupplyIncrease(b: Books, delta: i128, cap: Option<i128>, now: u32): (r: Result<Applied>)
    ensures r.Ok? ==> delta >= 0 && b.reserve.supplyIndex > 0
    ensures r.Ok? ==> r.value.scaledDelta == delta * RAY / b.reserve.supplyIndex
    ensures r.Ok? ==> Posts(b, r.value.books, Supply(r.value.scaledDelta, delta), now)
    ensures r.Ok? ==> ValidatePostState(r.value.books).Ok?
  {
    var _ :- ValidateContext(b, now);
    var _ :- Reject(delta < 0, InvalidAmount);
    var _ :- ValidateCap(b.reserve.totalActualSupply, delta, cap, SupplyCapViolation);
    var scaled :- ActualSupplyToScaled(delta, b.reserve.supplyIndex);
    var _ :- Reject(delta > 0 && scaled == 0, InvalidAmount);
    var after :- IncreaseScaledSupply(b, scaled, delta, now);
    var _ :- ValidatePostState(after);
    Ok(Applied(after, scaled))
  }

  method ApplySupplyIncreaseInPlace(ledger: AccountingLedger, reserve: ReserveAccounting,
                                    delta: i128, cap: Option<i128>, now: u32)
    returns (r: Result<i128>)
    modifies ledger, reserve
    ensures Applies(ApplySupplyIncrease(old(BooksOf(ledger, reserve)), delta, cap, now), r, BooksOf(ledger, reserve))
  {
    var _ :- ValidateContext(BooksOf(ledger, reserve), now);
    if delta < 0 { return Err(InvalidAmount); }
    var _ :- ValidateCap(reserve.totalActualSupply, delta, cap, SupplyCapViolation);
    var scaled :- ActualSupplyToScaled(delta, reserve.supplyIndex);
    if delta > 0 && scaled == 0 { return Err(InvalidAmount); }
    var _ :- IncreaseScaledSupplyInPlace(ledger, reserve, scaled, delta, now);
    var _ :- ValidatePostState(BooksOf(ledger, reserve));
    r := Ok(scaled);
  }

  function ApplySupplyDecrease(b: Books, delta: i128, now: u32): (r: Result<Applied>)
    ensures r.Ok? ==> delta >= 0 && b.reserve.supplyIndex > 0
    ensures r.Ok? ==> r.value.scaledDelta == delta * RAY / b.reserve.supplyIndex
    ensures r.Ok? ==> Posts(b, r.value.books, Supply(r.value.scaledDelta, delta).Negated(), now)
    ensures r.Ok? ==> ValidatePostState(r.value.books).Ok?
  {
    var _ :- ValidateContext(b, now);
    var _ :- Reject(delta < 0, InvalidAmount);
    var scaled :- ActualSupplyToScaled(delta, b.reserve.supplyIndex);
    var _ :- Reject(delta > 0 && scaled == 0, InvalidAmount);
    var _ :- Reject(scaled > b.reserve.totalScaledSupply || scaled > b.ledger.totalScaledSupply
                    || delta > b.reserve.totalActualSupply || delta > b.ledger.totalLiabilities, MathUnderflow);
    var after :- DecreaseScaledSupply(b, scaled, delta, now);
    var _ :- ValidatePostState(after);
    Ok(Applied(after, scaled))
  }

  method ApplySupplyDecreaseInPlace(ledger: AccountingLedger, reserve: ReserveAccounting, delta: i128, now: u32)
    returns (r: Result<i128>)
    modifies ledger, reserve
    ensures Applies(ApplySupplyDecrease(old(BooksOf(ledger, reserve)), delta, now), r, BooksOf(ledger, reserve))
  {
    var _ :- ValidateContext(BooksOf(ledger, reserve), now);
    if delta < 0 { return Err(InvalidAmount); }
    var scaled :- ActualSupplyToScaled(delta, reserve.supplyIndex);
    if delta > 0 && scaled == 0 { return Err(InvalidAmount); }
    if scaled > reserve.totalScaledSupply || scaled > ledger.totalScaledSupply
       || delta > reserve.totalActualSupply || delta > ledger.totalLiabilities {
      return Err(MathUnderflow);
    }
    var _ :- DecreaseScaledSupplyInPlace(ledger, reserve, scaled, delta, now);
    var _ :- ValidatePostState(BooksOf(ledger, reserve));
    r := Ok(scaled);
  }

  // ----- debt -----

  /** Borrowing mints the ceiling of its share value. */
  function ApplyDebtIncrease(b: Books, delta: i128, cap: Option<i128>, now: u32): (r: Result<Applied>)
    ensures r.Ok? ==> delta >= 0 && b.reserve.borrowIndex > 0
    ensures r.Ok? ==> r.value.scaledDelta == CeilDiv(delta * RAY, b.reserve.borrowIndex)
    ensures r.Ok? ==> Posts(b, r.value.books, Debt(r.value.scaledDelta, delta), now)
    ensures r.Ok? ==> ValidatePostState(r.value.books).Ok?
  {
    var _ :- ValidateContext(b, now);
    var _ :- Reject(delta < 0, InvalidAmount);
    var _ :- ValidateCap(b.reserve.totalActualDebt, delta, cap, BorrowCapViolation);
    var scaled :- ActualDebtToScaled(delta, b.reserve.borrowIndex);
    var _ :- Reject(delta > 0 && scaled == 0, InvalidAmount);
    var after :- IncreaseScaledDebt(b, scaled, delta, now);
    var _ :- ValidatePostState(after);
    Ok(Applied(after, scaled))
  }

  method ApplyDebtIncreaseInPlace(ledger: AccountingLedger, reserve: ReserveAccounting,
                                  delta: i128, cap: Option<i128>, now: u32)
    returns (r: Result<i128>)
    modifies ledger, reserve
    ensures Applies(ApplyDebtIncrease(old(BooksOf(ledger, reserve)), delta, cap, now), r, BooksOf(ledger, reserve))
  {
    var _ :- ValidateContext(BooksOf(ledger, reserve), now);
    if delta < 0 { return Err(InvalidAmount); }
    var _ :- ValidateCap(reserve.totalActualDebt, delta, cap, BorrowCapViolation);
    var scaled :- ActualDebtToScaled(delta, reserve.borrowIndex);
    var _ :- Reject(delta > 0 && scaled == 0, InvalidAmount);
    var _ :- IncreaseScaledDebtInPlace(ledger, reserve, scaled, delta, now);
    var _ :- ValidatePostState(BooksOf(ledger, reserve));
    r := Ok(scaled);
  }

  function ApplyDebtDecrease(b: Books, delta: i128, now: u32): (r: Result<Applied>)
    ensures r.Ok? ==> delta >= 0 && b.reserve.borrowIndex > 0
    ensures r.Ok? ==> r.value.scaledDelta == CeilDiv(delta * RAY, b.reserve.borrowIndex)
    ensures r.Ok? ==> Posts(b, r.value.books, Debt(r.value.scaledDelta, delta).Negated(), now)
    ensures r.Ok? ==> ValidatePostState(r.value.books).Ok?
  {
    var _ :- ValidateContext(b, now);
    var _ :- Reject(delta < 0, InvalidAmount);
    var scaled :- ActualDebtToScaled(delta, b.reserve.borrowIndex);
    var _ :- Reject(delta > 0 && scaled == 0, InvalidAmount);
    var _ :- Reject(scaled > b.reserve.totalScaledDebt || scaled > b.ledger.totalScaledDebt
                    || delta > b.reserve.totalActualDebt || delta > b.ledger.totalAssets, NoDebtToRepay);
    var after :- DecreaseScaledDebt(b, scaled, delta, now);
    var _ :- ValidatePostState(after);
    Ok(Applied(after, scaled))
  }

  method ApplyDebtDecreaseInPlace(ledger: AccountingLedger, reserve: ReserveAccounting, delta: i128, now: u32)
    returns (r: Result<i128>)
    modifies ledger, reserve
    ensures Applies(ApplyDebtDecrease(old(BooksOf(ledger, reserve)), delta, now), r, BooksOf(ledger, reserve))
  {
    var _ :- ValidateContext(BooksOf(ledger, reserve), now);
    if delta < 0 { return Err(InvalidAmount); }
    var scaled :- ActualDebtToScaled(delta, reserve.borrowIndex);
    var _ :- Reject(delta > 0 && scaled == 0, InvalidAmount);
    if scaled > reserve.totalScaledDebt || scaled > ledger.totalScaledDebt
       || delta > reserve.totalActualDebt || delta > ledger.totalAssets {
      return Err(NoDebtToRepay);
    }
    var _ :- DecreaseScaledDebtInPlace(ledger, reserve, scaled, delta, now);
    var _ :- ValidatePostState(BooksOf(ledger, reserve));
    r := Ok(scaled);
  }

  // ----- bad debt, treasury, insurance -----

  function ApplyBadDebtRecording(b: Books, delta: i128, now: u32): (r: Result<Applied>)
    ensures r.Ok? ==> Posts(b, r.value.books, Nothing.(badDebt := delta), now)
    ensures r.Ok? ==> ValidatePostState(r.value.books).Ok?
  {
    var _ :- ValidateContext(b, now);
    var after :- RecordBadDebt(b, delta, now);
    var _ :- ValidatePostState(after);
    Ok(Applied(after, 0))
  }

  method ApplyBadDebtRecordingInPlace(ledger: AccountingLedger, reserve: ReserveAccounting, delta: i128, now: u32)
    returns (r: Result<i128>)
    modifies ledger, reserve
    ensures Applies(ApplyBadDebtRecording(old(BooksOf(ledger, reserve)), delta, now), r, BooksOf(ledger, reserve))
  {
    var _ :- ValidateContext(BooksOf(ledger, reserve), now);
    var _ :- RecordBadDebtInPlace(ledger, reserve, delta, now);
    var _ :- ValidatePostState(BooksOf(ledger, reserve));
    r := Ok(0);
  }

  function ApplyBadDebtCoverage(b: Books, delta: i128, now: u32): (r: Result<Applied>)
    ensures r.Ok? ==> b.reserve.borrowIndex > 0
    ensures r.Ok? ==> r.value.scaledDelta == CeilDiv(delta * RAY, b.reserve.borrowIndex)
    ensures r.Ok? ==>
      Posts(b, r.value.books, Debt(r.value.scaledDelta, delta).(badDebt := delta, insurance := delta).Negated(), now)
    ensures r.Ok? ==> ValidatePostState(r.value.books).Ok?
  {
    var _ :- ValidateContext(b, now);
    var _ :- Reject(delta < 0, InvalidAmount);
    var _ :- Reject(delta > b.ledger.insuranceFundBalance || delta > b.reserve.accruedToInsurance,
                    InsufficientLiquidity);
    var _ :- Reject(delta > b.ledger.totalBadDebt || delta > b.reserve.badDebt, MathUnderflow);
    var scaled :- ActualDebtToScaled(delta, b.reserve.borrowIndex);
    var _ :- Reject(delta > 0 && scaled == 0, InvalidAmount);
    var after :- CoverBadDebt(b, delta, scaled, now);
    var _ :- ValidatePostState(after);
    Ok(Applied(after, scaled))
  }

  method ApplyBadDebtCoverageInPlace(ledger: AccountingLedger, reserve: ReserveAccounting, delta: i128, now: u32)
    returns (r: Result<i128>)
    modifies ledger, reserve
    ensures Applies(ApplyBadDebtCoverage(old(BooksOf(ledger, reserve)), delta, now), r, BooksOf(ledger, reserve))
  {
    var _ :- ValidateContext(BooksOf(ledger, reserve), now);
    if delta < 0 { return Err(InvalidAmount); }
    if delta > ledger.insuranceFundBalance || delta > reserve.accruedToInsurance { return Err(InsufficientLiquidity); }
    if delta > ledger.totalBadDebt || delta > reserve.badDebt { return Err(MathUnderflow); }
    var scaled :- ActualDebtToScaled(delta, reserve.borrowIndex);
    var _ :- Reject(delta > 0 && scaled == 0, InvalidAmount);
    var _ :- CoverBadDebtInPlace(ledger, reserve, delta, scaled, now);
    var _ :- ValidatePostState(BooksOf(ledger, reserve));
    r := Ok(scaled);
  }

}
