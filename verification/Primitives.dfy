/** Paired balance primitives: every one moves the ledger and a reserve by one and the same entry. */
module Primitives {
  import opened Prelude
  import opened AccountingModel

  function CheckedAdd(x: i128, y: i128): Result<i128> {
    var _ :- Reject(x < 0, InvalidAmount);
    var _ :- Reject(y < 0, InvalidAmount);
    Checked(x + y, MathOverflow)
  }

  /** Where a guard has already bounded the amount the callers below subtract directly: this check could not fail. */
  function CheckedSub(x: i128, y: i128): Result<i128> {
    var _ :- Reject(x < 0, InvalidAmount);
    var _ :- Reject(y < 0, InvalidAmount);
    var _ :- Reject(y > x, MathUnderflow);
    Ok(x - y)
  }

  // ----- liquidity -----

  function IncreaseLiquidity(b: Books, amount: i128, now: u32): (r: Result<Books>)
    ensures r.Ok? ==> Posts(b, r.value, Liquidity(amount), now)
  {
    var _ :- Reject(amount < 0, InvalidAmount);
    var total :- CheckedAdd(b.reserve.totalLiquidity, amount);
    var available :- CheckedAdd(b.reserve.availableLiquidity, amount);
    var ledgerLiquidity :- CheckedAdd(b.ledger.totalLiquidity, amount);
    var assets :- CheckedAdd(b.ledger.totalAssets, amount);
    Ok(Books(
      b.ledger.(totalLiquidity := ledgerLiquidity, totalAssets := assets, lastUpdatedLedger := now),
      b.reserve.(totalLiquidity := total, availableLiquidity := available, lastUpdatedLedger := now)))
  }

  method IncreaseLiquidityInPlace(ledger: AccountingLedger, reserve: ReserveAccounting, amount: i128, now: u32)
    returns (r: Result<()>)
    modifies ledger, reserve
    ensures var before := old(BooksOf(ledger, reserve));
            Atomic(IncreaseLiquidity(before, amount, now), r, before, BooksOf(ledger, reserve))
  {
    hide Posts, CheckedAdd, CheckedSub;
    var _ :- Reject(amount < 0, InvalidAmount);
    var total :- CheckedAdd(reserve.totalLiquidity, amount);
    var available :- CheckedAdd(reserve.availableLiquidity, amount);
    var ledgerLiquidity :- CheckedAdd(ledger.totalLiquidity, amount);
    var assets :- CheckedAdd(ledger.totalAssets, amount);
    reserve.totalLiquidity := total;
    reserve.availableLiquidity := available;
    ledger.totalLiquidity := ledgerLiquidity;
    ledger.totalAssets := assets;
    reserve.lastUpdatedLedger := now;
    ledger.lastUpdatedLedger := now;
    r := Ok(());
  }

  function DecreaseLiquidity(b: Books, amount: i128, now: u32): (r: Result<Books>)
    ensures r.Ok? ==> Posts(b, r.value, Liquidity(amount).Negated(), now)
    ensures r.Ok? ==> 0 <= amount <= b.reserve.availableLiquidity
  {
    var _ :- Reject(amount < 0, InvalidAmount);
    var _ :- Reject(amount > b.reserve.availableLiquidity || amount > b.ledger.totalLiquidity, InsufficientLiquidity);
    var total :- CheckedSub(b.reserve.totalLiquidity, amount);
    var available := b.reserve.availableLiquidity - amount;
    var ledgerLiquidity := b.ledger.totalLiquidity - amount;
    var assets :- CheckedSub(b.ledger.totalAssets, amount);
    Ok(Books(
      b.ledger.(totalLiquidity := ledgerLiquidity, totalAssets := assets, lastUpdatedLedger := now),
      b.reserve.(totalLiquidity := total, availableLiquidity := available, lastUpdatedLedger := now)))
  }

  method DecreaseLiquidityInPlace(ledger: AccountingLedger, reserve: ReserveAccounting, amount: i128, now: u32)
    returns (r: Result<()>)
    modifies ledger, reserve
    ensures var before := old(BooksOf(ledger, reserve));
            Atomic(DecreaseLiquidity(before, amount, now), r, before, BooksOf(ledger, reserve))
  {
    hide Posts, CheckedAdd, CheckedSub;
    var _ :- Reject(amount < 0, InvalidAmount);
    var _ :- Reject(amount > reserve.availableLiquidity || amount > ledger.totalLiquidity, InsufficientLiquidity);
    var total :- CheckedSub(reserve.totalLiquidity, amount);
    var available := reserve.availableLiquidity - amount;
    var ledgerLiquidity := ledger.totalLiquidity - amount;
    var assets :- CheckedSub(ledger.totalAssets, amount);
    reserve.totalLiquidity := total;
    reserve.availableLiquidity := available;
    ledger.totalLiquidity := ledgerLiquidity;
    ledger.totalAssets := assets;
    reserve.lastUpdatedLedger := now;
    ledger.lastUpdatedLedger := now;
    r := Ok(());
  }

  // ----- supply -----

  function IncreaseScaledSupply(b: Books, scaled: i128, actual: i128, now: u32): (r: Result<Books>)
    ensures r.Ok? ==> Posts(b, r.value, Supply(scaled, actual), now)
  {
    var _ :- Reject(scaled < 0, InvalidAmount);
    var _ :- Reject(actual < 0, InvalidAmount);
    var reserveScaled :- CheckedAdd(b.reserve.totalScaledSupply, scaled);
    var reserveActual :- CheckedAdd(b.reserve.totalActualSupply, actual);
    var ledgerScaled :- CheckedAdd(b.ledger.totalScaledSupply, scaled);
    var liabilities :- CheckedAdd(b.ledger.totalLiabilities, actual);
    Ok(Books(
      b.ledger.(totalScaledSupply := ledgerScaled, totalLiabilities := liabilities, lastUpdatedLedger := now),
      b.reserve.(totalScaledSupply := reserveScaled, totalActualSupply := reserveActual, lastUpdatedLedger := now)))
  }

  method IncreaseScaledSupplyInPlace(ledger: AccountingLedger, reserve: ReserveAccounting,
                                     scaled: i128, actual: i128, now: u32)
    returns (r: Result<()>)
    modifies ledger, reserve
    ensures var before := old(BooksOf(ledger, reserve));
            Atomic(IncreaseScaledSupply(before, scaled, actual, now), r, before, BooksOf(ledger, reserve))
  {
    hide Posts, CheckedAdd, CheckedSub;
    var _ :- Reject(scaled < 0, InvalidAmount);
    var _ :- Reject(actual < 0, InvalidAmount);
    var reserveScaled :- CheckedAdd(reserve.totalScaledSupply, scaled);
    var reserveActual :- CheckedAdd(reserve.totalActualSupply, actual);
    var ledgerScaled :- CheckedAdd(ledger.totalScaledSupply, scaled);
    var liabilities :- CheckedAdd(ledger.totalLiabilities, actual);
    reserve.totalScaledSupply := reserveScaled;
    reserve.totalActualSupply := reserveActual;
    ledger.totalScaledSupply := ledgerScaled;
    ledger.totalLiabilities := liabilities;
    reserve.lastUpdatedLedger := now;
    ledger.lastUpdatedLedger := now;
    r := Ok(());
  }

  function DecreaseScaledSupply(b: Books, scaled: i128, actual: i128, now: u32): (r: Result<Books>)
    ensures r.Ok? ==> Posts(b, r.value, Supply(scaled, actual).Negated(), now)
  {
    var _ :- Reject(scaled < 0, InvalidAmount);
    var _ :- Reject(actual < 0, InvalidAmount);
    var reserveScaled :- CheckedSub(b.reserve.totalScaledSupply, scaled);
    var reserveActual :- CheckedSub(b.reserve.totalActualSupply, actual);
    var ledgerScaled :- CheckedSub(b.ledger.totalScaledSupply, scaled);
    var liabilities :- CheckedSub(b.ledger.totalLiabilities, actual);
    Ok(Books(
      b.ledger.(totalScaledSupply := ledgerScaled, totalLiabilities := liabilities, lastUpdatedLedger := now),
      b.reserve.(totalScaledSupply := reserveScaled, totalActualSupply := reserveActual, lastUpdatedLedger := now)))
  }

  method DecreaseScaledSupplyInPlace(ledger: AccountingLedger, reserve: ReserveAccounting,
                                     scaled: i128, actual: i128, now: u32)
    returns (r: Result<()>)
    modifies ledger, reserve
    ensures var before := old(BooksOf(ledger, reserve));
            Atomic(DecreaseScaledSupply(before, scaled, actual, now), r, before, BooksOf(ledger, reserve))
  {
    hide Posts, CheckedAdd, CheckedSub;
    var _ :- Reject(scaled < 0, InvalidAmount);
    var _ :- Reject(actual < 0, InvalidAmount);
    var reserveScaled :- CheckedSub(reserve.totalScaledSupply, scaled);
    var reserveActual :- CheckedSub(reserve.totalActualSupply, actual);
    var ledgerScaled :- CheckedSub(ledger.totalScaledSupply, scaled);
    var liabilities :- CheckedSub(ledger.totalLiabilities, actual);
    reserve.totalScaledSupply := reserveScaled;
    reserve.totalActualSupply := reserveActual;
    ledger.totalScaledSupply := ledgerScaled;
    ledger.totalLiabilities := liabilities;
    reserve.lastUpdatedLedger := now;
    ledger.lastUpdatedLedger := now;
    r := Ok(());
  }

  // ----- debt -----

  function IncreaseScaledDebt(b: Books, scaled: i128, actual: i128, now: u32): (r: Result<Books>)
    ensures r.Ok? ==> Posts(b, r.value, Debt(scaled, actual), now)
  {
    var _ :- Reject(scaled < 0, InvalidAmount);
    var _ :- Reject(actual < 0, InvalidAmount);
    var reserveScaled :- CheckedAdd(b.reserve.totalScaledDebt, scaled);
    var reserveActual :- CheckedAdd(b.reserve.totalActualDebt, actual);
    var ledgerScaled :- CheckedAdd(b.ledger.totalScaledDebt, scaled);
    var assets :- CheckedAdd(b.ledger.totalAssets, actual);
    Ok(Books(
      b.ledger.(totalScaledDebt := ledgerScaled, totalAssets := assets, lastUpdatedLedger := now),
      b.reserve.(totalScaledDebt := reserveScaled, totalActualDebt := reserveActual, lastUpdatedLedger := now)))
  }

  method IncreaseScaledDebtInPlace(ledger: AccountingLedger, reserve: ReserveAccounting,
                                   scaled: i128, actual: i128, now: u32)
    returns (r: Result<()>)
    modifies ledger, reserve
    ensures var before := old(BooksOf(ledger, reserve));
            Atomic(IncreaseScaledDebt(before, scaled, actual, now), r, before, BooksOf(ledger, reserve))
  {
    hide Posts, CheckedAdd, CheckedSub;
    var _ :- Reject(scaled < 0, InvalidAmount);
    var _ :- Reject(actual < 0, InvalidAmount);
    var reserveScaled :- CheckedAdd(reserve.totalScaledDebt, scaled);
    var reserveActual :- CheckedAdd(reserve.totalActualDebt, actual);
    var ledgerScaled :- CheckedAdd(ledger.totalScaledDebt, scaled);
    var assets :- CheckedAdd(ledger.totalAssets, actual);
    reserve.totalScaledDebt := reserveScaled;
    reserve.totalActualDebt := reserveActual;
    ledger.totalScaledDebt := ledgerScaled;
    ledger.totalAssets := assets;
    reserve.lastUpdatedLedger := now;
    ledger.lastUpdatedLedger := now;
    r := Ok(());
  }

  function DecreaseScaledDebt(b: Books, scaled: i128, actual: i128, now: u32): (r: Result<Books>)
    ensures r.Ok? ==> Posts(b, r.value, Debt(scaled, actual).Negated(), now)
  {
    var _ :- Reject(scaled < 0, InvalidAmount);
    var _ :- Reject(actual < 0, InvalidAmount);
    var reserveScaled :- CheckedSub(b.reserve.totalScaledDebt, scaled);
    var reserveActual :- CheckedSub(b.reserve.totalActualDebt, actual);
    var ledgerScaled :- CheckedSub(b.ledger.totalScaledDebt, scaled);
    var assets :- CheckedSub(b.ledger.totalAssets, actual);
    Ok(Books(
      b.ledger.(totalScaledDebt := ledgerScaled, totalAssets := assets, lastUpdatedLedger := now),
      b.reserve.(totalScaledDebt := reserveScaled, totalActualDebt := reserveActual, lastUpdatedLedger := now)))
  }

  method DecreaseScaledDebtInPlace(ledger: AccountingLedger, reserve: ReserveAccounting,
                                   scaled: i128, actual: i128, now: u32)
    returns (r: Result<()>)
    modifies ledger, reserve
    ensures var before := old(BooksOf(ledger, reserve));
            Atomic(DecreaseScaledDebt(before, scaled, actual, now), r, before, BooksOf(ledger, reserve))
  {
    hide Posts, CheckedAdd, CheckedSub;
    var _ :- Reject(scaled < 0, InvalidAmount);
    var _ :- Reject(actual < 0, InvalidAmount);
    var reserveScaled :- CheckedSub(reserve.totalScaledDebt, scaled);
    var reserveActual :- CheckedSub(reserve.totalActualDebt, actual);
    var ledgerScaled :- CheckedSub(ledger.totalScaledDebt, scaled);
    var assets :- CheckedSub(ledger.totalAssets, actual);
    reserve.totalScaledDebt := reserveScaled;
    reserve.totalActualDebt := reserveActual;
    ledger.totalScaledDebt := ledgerScaled;
    ledger.totalAssets := assets;
    reserve.lastUpdatedLedger := now;
    ledger.lastUpdatedLedger := now;
    r := Ok(());
  }

  // ----- bad debt -----

  function RecordBadDebt(b: Books, amount: i128, now: u32): (r: Result<Books>)
    ensures r.Ok? ==> Posts(b, r.value, Nothing.(badDebt := amount), now)
    ensures r.Ok? ==> r.value.reserve.badDebt <= r.value.reserve.totalActualDebt
  {
    var _ :- Reject(amount < 0, InvalidAmount);
    var reserveBad :- CheckedAdd(b.reserve.badDebt, amount);
    var _ :- Reject(reserveBad > b.reserve.totalActualDebt, InvalidAmount);
    var ledgerBad :- CheckedAdd(b.ledger.totalBadDebt, amount);
    Ok(Books(b.ledger.(totalBadDebt := ledgerBad, lastUpdatedLedger := now),
             b.reserve.(badDebt := reserveBad, lastUpdatedLedger := now)))
  }

  method RecordBadDebtInPlace(ledger: AccountingLedger, reserve: ReserveAccounting, amount: i128, now: u32)
    returns (r: Result<()>)
    modifies ledger, reserve
    ensures var before := old(BooksOf(ledger, reserve));
            Atomic(RecordBadDebt(before, amount, now), r, before, BooksOf(ledger, reserve))
  {
    hide Posts, CheckedAdd, CheckedSub;
    var _ :- Reject(amount < 0, InvalidAmount);
    var reserveBad :- CheckedAdd(reserve.badDebt, amount);
    if reserveBad > reserve.totalActualDebt { return Err(InvalidAmount); }
    var ledgerBad :- CheckedAdd(ledger.totalBadDebt, amount);
    reserve.badDebt := reserveBad;
    ledger.totalBadDebt := ledgerBad;
    reserve.lastUpdatedLedger := now;
    ledger.lastUpdatedLedger := now;
    r := Ok(());
  }

  function ReduceBadDebt(b: Books, amount: i128, now: u32): (r: Result<Books>)
    ensures r.Ok? ==> Posts(b, r.value, Nothing.(badDebt := amount).Negated(), now)
  {
    var _ :- Reject(amount < 0, InvalidAmount);
    var reserveBad :- CheckedSub(b.reserve.badDebt, amount);
    var ledgerBad :- CheckedSub(b.ledger.totalBadDebt, amount);
    Ok(Books(b.ledger.(totalBadDebt := ledgerBad, lastUpdatedLedger := now),
             b.reserve.(badDebt := reserveBad, lastUpdatedLedger := now)))
  }

  method ReduceBadDebtInPlace(ledger: AccountingLedger, reserve: ReserveAccounting, amount: i128, now: u32)
    returns (r: Result<()>)
    modifies ledger, reserve
    ensures var before := old(BooksOf(ledger, reserve));
            Atomic(ReduceBadDebt(before, amount, now), r, before, BooksOf(ledger, reserve))
  {
    hide Posts, CheckedAdd, CheckedSub;
    var _ :- Reject(amount < 0, InvalidAmount);
    var reserveBad :- CheckedSub(reserve.badDebt, amount);
    var ledgerBad :- CheckedSub(ledger.totalBadDebt, amount);
    reserve.badDebt := reserveBad;
    ledger.totalBadDebt := ledgerBad;
    reserve.lastUpdatedLedger := now;
    ledger.lastUpdatedLedger := now;
    r := Ok(());
  }

  /** The nine balances a coverage will write, computed before any of them is stored. */
  datatype Coverage = Coverage(
    reserveBad: i128, ledgerBad: i128, reserveInsurance: i128, insurance: i128, equity: i128,
    reserveDebt: i128, assets: i128, reserveScaled: i128, ledgerScaled: i128)

  function CoverageOf(b: Books, amount: i128, scaledToClear: i128): Result<Coverage> {
    var _ :- Reject(amount < 0, InvalidAmount);
    var _ :- Reject(scaledToClear < 0, InvalidAmount);
    var _ :- Reject(amount > 0 && scaledToClear == 0, InvalidAmount);
    var _ :- Reject(amount > b.ledger.insuranceFundBalance || amount > b.reserve.accruedToInsurance,
                    InsufficientLiquidity);
    var reserveBad :- CheckedSub(b.reserve.badDebt, amount);
    var ledgerBad :- CheckedSub(b.ledger.totalBadDebt, amount);
    var reserveInsurance := b.reserve.accruedToInsurance - amount;
    var insurance := b.ledger.insuranceFundBalance - amount;
    var equity :- CheckedSub(b.ledger.protocolEquity, amount);
    var reserveDebt :- CheckedSub(b.reserve.totalActualDebt, amount);
    var assets :- CheckedSub(b.ledger.totalAssets, amount);
    var reserveScaled :- CheckedSub(b.reserve.totalScaledDebt, scaledToClear);
    var ledgerScaled :- CheckedSub(b.ledger.totalScaledDebt, scaledToClear);
    Ok(Coverage(reserveBad, ledgerBad, reserveInsurance, insurance, equity, reserveDebt, assets,
                reserveScaled, ledgerScaled))
  }

  /** Insurance pays off recorded bad debt: the loan, its shares, the bad-debt mark and the fund all shrink together. */
  function CoverBadDebt(b: Books, amount: i128, scaledToClear: i128, now: u32): (r: Result<Books>)
    ensures r.Ok? ==>
      Posts(b, r.value, Debt(scaledToClear, amount).(badDebt := amount, insurance := amount).Negated(), now)
  {
    var c :- CoverageOf(b, amount, scaledToClear);
    Ok(Books(
      b.ledger.(totalBadDebt := c.ledgerBad, insuranceFundBalance := c.insurance, protocolEquity := c.equity,
                totalAssets := c.assets, totalScaledDebt := c.ledgerScaled, lastUpdatedLedger := now),
      b.reserve.(badDebt := c.reserveBad, accruedToInsurance := c.reserveInsurance, totalActualDebt := c.reserveDebt,
                 totalScaledDebt := c.reserveScaled, lastUpdatedLedger := now)))
  }

  method CoverBadDebtInPlace(ledger: AccountingLedger, reserve: ReserveAccounting,
                             amount: i128, scaledToClear: i128, now: u32)
    returns (r: Result<()>)
    modifies ledger, reserve
    ensures var before := old(BooksOf(ledger, reserve));
            Atomic(CoverBadDebt(before, amount, scaledToClear, now), r, before, BooksOf(ledger, reserve))
  {
    hide Posts, CheckedAdd, CheckedSub;
    var c :- CoverageOf(BooksOf(ledger, reserve), amount, scaledToClear);
    reserve.badDebt := c.reserveBad;
    reserve.accruedToInsurance := c.reserveInsurance;
    reserve.totalActualDebt := c.reserveDebt;
    reserve.totalScaledDebt := c.reserveScaled;
    ledger.totalBadDebt := c.ledgerBad;
    ledger.insuranceFundBalance := c.insurance;
    ledger.protocolEquity := c.equity;
    ledger.totalAssets := c.assets;
    ledger.totalScaledDebt := c.ledgerScaled;
    reserve.lastUpdatedLedger := now;
    ledger.lastUpdatedLedger := now;
    r := Ok(());
  }

  // ----- treasury and insurance -----

  function AccrueToTreasury(b: Books, amount: i128, now: u32): (r: Result<Books>)
    ensures r.Ok? ==> Posts(b, r.value, Nothing.(treasury := amount), now)
  {
    var _ :- Reject(amount < 0, InvalidAmount);
    var reserveTreasury :- CheckedAdd(b.reserve.accruedToTreasury, amount);
    var treasury :- CheckedAdd(b.ledger.treasuryBalance, amount);
    var equity :- CheckedAdd(b.ledger.protocolEquity, amount);
    Ok(Books(b.ledger.(treasuryBalance := treasury, protocolEquity := equity, lastUpdatedLedger := now),
             b.reserve.(accruedToTreasury := reserveTreasury, lastUpdatedLedger := now)))
  }

  method AccrueToTreasuryInPlace(ledger: AccountingLedger, reserve: ReserveAccounting, amount: i128, now: u32)
    returns (r: Result<()>)
    modifies ledger, reserve
    ensures var before := old(BooksOf(ledger, reserve));
            Atomic(AccrueToTreasury(before, amount, now), r, before, BooksOf(ledger, reserve))
  {
    hide Posts, CheckedAdd, CheckedSub;
    var _ :- Reject(amount < 0, InvalidAmount);
    var reserveTreasury :- CheckedAdd(reserve.accruedToTreasury, amount);
    var treasury :- CheckedAdd(ledger.treasuryBalance, amount);
    var equity :- CheckedAdd(ledger.protocolEquity, amount);
    reserve.accruedToTreasury := reserveTreasury;
    ledger.treasuryBalance := treasury;
    ledger.protocolEquity := equity;
    reserve.lastUpdatedLedger := now;
    ledger.lastUpdatedLedger := now;
    r := Ok(());
  }

  /** The seven balances a treasury withdrawal will write. */
  datatype TreasuryDraw = TreasuryDraw(
    reserveTreasury: i128, total: i128, available: i128, treasury: i128, equity: i128,
    ledgerLiquidity: i128, assets: i128)

  function TreasuryDrawOf(b: Books, amount: i128): Result<TreasuryDraw> {
    var _ :- Reject(amount < 0, InvalidAmount);
    var _ :- Reject(amount > b.ledger.treasuryBalance || amount > b.reserve.accruedToTreasury, InsufficientLiquidity);
    var _ :- Reject(amount > b.reserve.availableLiquidity || amount > b.ledger.totalLiquidity, InsufficientLiquidity);
    var reserveTreasury := b.reserve.accruedToTreasury - amount;
    var total :- CheckedSub(b.reserve.totalLiquidity, amount);
    var available := b.reserve.availableLiquidity - amount;
    var treasury := b.ledger.treasuryBalance - amount;
    var equity :- CheckedSub(b.ledger.protocolEquity, amount);
    var ledgerLiquidity := b.ledger.totalLiquidity - amount;
    var assets :- CheckedSub(b.ledger.totalAssets, amount);
    Ok(TreasuryDraw(reserveTreasury, total, available, treasury, equity, ledgerLiquidity, assets))
  }

  function WithdrawFromTreasury(b: Books, amount: i128, now: u32): (r: Result<Books>)
    ensures r.Ok? ==> Posts(b, r.value, Liquidity(amount).(treasury := amount).Negated(), now)
    ensures r.Ok? ==> 0 <= amount <= b.reserve.availableLiquidity
  {
    var d :- TreasuryDrawOf(b, amount);
    Ok(Books(
      b.ledger.(treasuryBalance := d.treasury, protocolEquity := d.equity, totalLiquidity := d.ledgerLiquidity,
                totalAssets := d.assets, lastUpdatedLedger := now),
      b.reserve.(accruedToTreasury := d.reserveTreasury, totalLiquidity := d.total, availableLiquidity := d.available,
                 lastUpdatedLedger := now)))
  }

  method WithdrawFromTreasuryInPlace(ledger: AccountingLedger, reserve: ReserveAccounting, amount: i128, now: u32)
    returns (r: Result<()>)
    modifies ledger, reserve
    ensures var before := old(BooksOf(ledger, reserve));
            Atomic(WithdrawFromTreasury(before, amount, now), r, before, BooksOf(ledger, reserve))
  {
    hide Posts, CheckedAdd, CheckedSub;
    var d :- TreasuryDrawOf(BooksOf(ledger, reserve), amount);
    reserve.accruedToTreasury := d.reserveTreasury;
    reserve.totalLiquidity := d.total;
    reserve.availableLiquidity := d.available;
    ledger.treasuryBalance := d.treasury;
    ledger.protocolEquity := d.equity;
    ledger.totalLiquidity := d.ledgerLiquidity;
    ledger.totalAssets := d.assets;
    reserve.lastUpdatedLedger := now;
    ledger.lastUpdatedLedger := now;
    r := Ok(());
  }

  function AccrueToInsurance(b: Books, amount: i128, now: u32): (r: Result<Books>)
    ensures r.Ok? ==> Posts(b, r.value, Nothing.(insurance := amount), now)
  {
    var _ :- Reject(amount < 0, InvalidAmount);
    var reserveInsurance :- CheckedAdd(b.reserve.accruedToInsurance, amount);
    var insurance :- CheckedAdd(b.ledger.insuranceFundBalance, amount);
    var equity :- CheckedAdd(b.ledger.protocolEquity, amount);
    Ok(Books(b.ledger.(insuranceFundBalance := insurance, protocolEquity := equity, lastUpdatedLedger := now),
             b.reserve.(accruedToInsurance := reserveInsurance, lastUpdatedLedger := now)))
  }

  method AccrueToInsuranceInPlace(ledger: AccountingLedger, reserve: ReserveAccounting, amount: i128, now: u32)
    returns (r: Result<()>)
    modifies ledger, reserve
    ensures var before := old(BooksOf(ledger, reserve));
            Atomic(AccrueToInsurance(before, amount, now), r, before, BooksOf(ledger, reserve))
  {
    hide Posts, CheckedAdd, CheckedSub;
    var _ :- Reject(amount < 0, InvalidAmount);
    var reserveInsurance :- CheckedAdd(reserve.accruedToInsurance, amount);
    var insurance :- CheckedAdd(ledger.insuranceFundBalance, amount);
    var equity :- CheckedAdd(ledger.protocolEquity, amount);
    reserve.accruedToInsurance := reserveInsurance;
    ledger.insuranceFundBalance := insurance;
    ledger.protocolEquity := equity;
    reserve.lastUpdatedLedger := now;
    ledger.lastUpdatedLedger := now;
    r := Ok(());
  }

  // ----- indices -----

  /** Indices only ever rise; what the reserve contributes to the ledger does not change. */
  function SetReserveIndices(r: ReserveState, supplyIndex: i128, borrowIndex: i128, now: u32): (out: Result<ReserveState>)
    ensures out.Ok? ==>
              && out.value.Balance() == r.Balance() && out.value.availableLiquidity == r.availableLiquidity
              && out.value.reserveId == r.reserveId
              && 0 < out.value.supplyIndex && r.supplyIndex <= out.value.supplyIndex
              && 0 < out.value.borrowIndex && r.borrowIndex <= out.value.borrowIndex
  {
    var _ :- Reject(supplyIndex <= 0 || borrowIndex <= 0, DivisionByZero);
    var _ :- Reject(supplyIndex < r.supplyIndex || borrowIndex < r.borrowIndex, InvalidAmount);
    Ok(r.(supplyIndex := supplyIndex, borrowIndex := borrowIndex, lastUpdatedLedger := now))
  }

  /** Of two updates in a row only the later one shows, and the later one is judged as if the first had not been. */
  lemma LaterIndicesWin(r: ReserveState, s1: i128, b1: i128, t1: u32, s2: i128, b2: i128, t2: u32)
    requires SetReserveIndices(r, s1, b1, t1).Ok?
    ensures SetReserveIndices(SetReserveIndices(r, s1, b1, t1).value, s2, b2, t2)
            == if s1 <= s2 && b1 <= b2 then SetReserveIndices(r, s2, b2, t2)
               else if s2 <= 0 || b2 <= 0 then Err(DivisionByZero) else Err(InvalidAmount)
  {
  }

  method SetReserveIndicesInPlace(reserve: ReserveAccounting, supplyIndex: i128, borrowIndex: i128, now: u32)
    returns (r: Result<()>)
    modifies reserve
    ensures match SetReserveIndices(old(reserve.State()), supplyIndex, borrowIndex, now)
            case Ok(s) => r == Ok(()) && reserve.State() == s
            case Err(e) => r == Err(e) && reserve.State() == old(reserve.State())
  {
    hide Posts, CheckedAdd, CheckedSub;
    if supplyIndex <= 0 || borrowIndex <= 0 { return Err(DivisionByZero); }
    if supplyIndex < reserve.supplyIndex || borrowIndex < reserve.borrowIndex { return Err(InvalidAmount); }
    reserve.supplyIndex := supplyIndex;
    reserve.borrowIndex := borrowIndex;
    reserve.lastUpdatedLedger := now;
    r := Ok(());
  }
}
