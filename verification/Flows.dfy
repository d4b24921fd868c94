/** The five user flows as transformations of the stored state: prepare, post, re-validate, commit. */
module Flows {
  import opened Prelude
  import opened Shares
  import opened AccountingModel
  import opened ConfigModel
  import opened Store
  import opened Primitives
  import opened Operations
  import opened Risk

  /** A deposit, withdrawal, borrow or repayment request on one reserve. */
  datatype Request = Request(actor: string, reserveId: u32, assetAddress: string, amount: i128, now: u32)

  datatype LiquidationRequest = LiquidationRequest(
    borrower: string,
    debtReserveId: u32,
    collateralReserveId: u32,
    debtAssetAddress: string,
    collateralAssetAddress: string,
    repayAmount: i128,
    now: u32)

  // ----- shared preparation -----

  function MatchListing(s: State, q: Request): Result<Listing> {
    var listing :- Lookup(s.market.listings, q.reserveId).OkOr(ReserveNotFound);
    var _ :- Reject(q.reserveId != listing.reserveId || q.assetAddress != listing.assetAddress, InvalidIndex);
    Ok(listing)
  }

  function CheckAmount(amount: i128, minimum: i128, maximum: i128): Result<()> {
    Reject(amount <= 0 || amount < minimum || amount > maximum, InvalidAmount)
  }

  function CheckLedger(now: u32, listing: Listing, accounting: ReserveState): Result<()> {
    Reject(now < listing.lastAccrualLedger || now < accounting.lastUpdatedLedger, InvalidAmount)
  }

  /** The closing checks every flow runs on its working copies before it writes them. */
  function FinalChecks(b: Books): Result<()> {
    var _ :- ValidateAccountingLedger(b.ledger);
    ValidateReserveAccounting(b.reserve)
  }

  // ----- deposit -----

  datatype PreparedDeposit = PreparedDeposit(accounting: ReserveState, supplyCap: i128)

  function PrepareDeposit(s: State, q: Request): (r: Result<PreparedDeposit>)
    ensures r.Ok? ==> q.amount > 0
    ensures r.Ok? ==> q.reserveId in s.reserves && r.value.accounting == s.reserves[q.reserveId]
  {
    var pool :- s.market.pool.OkOr(NotInitialized);
    var _ :- Reject(pool.status == Uninitialized, NotInitialized);
    var _ :- Reject(pool.paused || pool.status == ProtocolPaused, Paused);
    var _ :- Reject(pool.status != Active, ReserveNotActive);
    var listing :- MatchListing(s, q);
    var _ :- match listing.status
             case ReserveActive => Ok(())
             case Frozen => Err(ReserveFrozen)
             case Halted => Err(LendingError.ReservePaused)
             case ReserveUninitialized => Err(ReserveNotActive)
             case Retired => Err(ReserveNotActive);
    var config :- s.market.validation.OkOr(NotInitialized);
    var _ :- ValidateValidationConfig(config);
    var _ :- CheckAmount(q.amount, config.minDepositAmount, config.maxTransactionAmount);
    var accounting :- Lookup(s.reserves, q.reserveId).OkOr(NotInitialized);
    var _ :- ValidateReserveAccounting(accounting);
    var _ :- CheckLedger(q.now, listing, accounting);
    var _ :- Reject(listing.supplyCap < 0, InvalidAmount);
    var projected :- Checked(accounting.totalActualSupply + q.amount, MathOverflow);
    var _ :- Reject(projected > listing.supplyCap, SupplyCapViolation);
    Ok(PreparedDeposit(accounting, listing.supplyCap))
  }

  /** Cash in, supply shares out. */
  function TakeDeposit(b: Books, amount: i128, supplyCap: i128, now: u32): Result<Applied> {
    var cash :- ApplyLiquidityIncrease(b, amount, now);
    ApplySupplyIncrease(cash.books, amount, Some(supplyCap), now)
  }

  /** No user snapshot is written: a deposit is recorded on the reserve only. */
  function CommitDeposit(s: State, q: Request, p: PreparedDeposit, ledger: LedgerState): Result<State> {
    var applied :- TakeDeposit(Books(ledger, p.accounting), q.amount, p.supplyCap, q.now);
    var _ :- FinalChecks(applied.books);
    Ok(s.WriteBooks(applied.books))
  }

  function Deposit(s: State, q: Request): Result<State> {
    var p :- PrepareDeposit(s, q);
    var ledger :- s.ledger.OkOr(NotInitialized);
    CommitDeposit(s, q, p, ledger)
  }

  // ----- withdraw -----

  datatype PreparedWithdraw = PreparedWithdraw(accounting: ReserveState, snapshot: UserSnapshot, scaledToBurn: i128)

  function ValidateUserBalance(amount: i128, snapshot: Option<UserSnapshot>, supplyIndex: i128): (r: Result<i128>)
    ensures r.Ok? ==>
      && snapshot.Some? && supplyIndex > 0 && 0 < r.value <= snapshot.value.scaledSupply
      && r.value == amount * RAY / supplyIndex
  {
    var user :- snapshot.OkOr(InsufficientCollateral);
    var _ :- Reject(user.scaledSupply <= 0, InsufficientCollateral);
    var scaled :- ActualSupplyToScaled(amount, supplyIndex);
    var _ :- Reject(scaled == 0, InvalidAmount);
    var _ :- Reject(user.scaledSupply < scaled, InsufficientCollateral);
    Ok(scaled)
  }

  predicate NeedsRiskCheck(u: UserSnapshot) {
    u.scaledDebt > 0 || u.collateralEnabled
  }

  function PrepareWithdraw(s: State, q: Request): (r: Result<PreparedWithdraw>)
    ensures r.Ok? ==> q.amount > 0
    ensures r.Ok? ==> q.reserveId in s.reserves && r.value.accounting == s.reserves[q.reserveId]
    ensures r.Ok? ==> s.Snapshot(q.actor, q.reserveId) == Some(r.value.snapshot)
    ensures r.Ok? ==> r.value.accounting.supplyIndex > 0
                      && r.value.scaledToBurn == q.amount * RAY / r.value.accounting.supplyIndex
                      && r.value.scaledToBurn <= r.value.snapshot.scaledSupply
  {
    var pool :- s.market.pool.OkOr(NotInitialized);
    var _ :- Reject(pool.status == Uninitialized, NotInitialized);
    var _ :- Reject(pool.paused || pool.status == ProtocolPaused, Paused);
    var listing :- MatchListing(s, q);
    var _ :- Reject(!s.market.AllowsExit(listing.reserveId), ReserveNotActive);
    var config :- s.market.validation.OkOr(NotInitialized);
    var _ :- CheckAmount(q.amount, config.dustThreshold, config.maxTransactionAmount);
    var accounting :- Lookup(s.reserves, q.reserveId).OkOr(NotInitialized);
    var _ :- ValidateReserveAccounting(accounting);
    var _ :- CheckLedger(q.now, listing, accounting);
    var scaled :- ValidateUserBalance(q.amount, s.Snapshot(q.actor, q.reserveId), accounting.supplyIndex);
    var snapshot := s.Snapshot(q.actor, q.reserveId).value;
    var _ :- Reject(q.amount > accounting.availableLiquidity, InsufficientLiquidity);
    var allowed :- if NeedsRiskCheck(snapshot)
                   then var check :- CanWithdraw(s, q.actor, q.reserveId, q.amount); Ok(check.isAllowed)
                   else Ok(true);
    var _ :- Reject(!allowed, HFTooLow);
    var _ :- ScaledSupplyToActual(snapshot.scaledSupply, accounting.supplyIndex);
    Ok(PreparedWithdraw(accounting, snapshot, scaled))
  }

  /** Burn supply shares and pay the cash out; also how seized collateral leaves a reserve. */
  function PayOut(b: Books, amount: i128, now: u32): Result<Applied> {
    var supply :- ApplySupplyDecrease(b, amount, now);
    var cash :- ApplyLiquidityDecrease(supply.books, amount, now);
    Ok(Applied(cash.books, supply.scaledDelta))
  }

  lemma PayOutBurns(b: Books, amount: i128, now: u32)
    requires PayOut(b, amount, now).Ok?
    ensures b.reserve.supplyIndex > 0 && PayOut(b, amount, now).value.scaledDelta == amount * RAY / b.reserve.supplyIndex
  {
  }

  /** The burned shares leave the user; an emptied position also loses its collateral mark. */
  function WithdrawnSnapshot(u: UserSnapshot, burned: i128, now: u32): UserSnapshot
    requires 0 <= burned <= u.scaledSupply
  {
    var left := u.scaledSupply - burned;
    u.(scaledSupply := left,
       collateralEnabled := u.collateralEnabled && !(left == 0 && u.scaledDebt == 0),
       lastUpdatedLedger := now)
  }

  function CommitWithdraw(s: State, q: Request, p: PreparedWithdraw, ledger: LedgerState): Result<State>
    requires p.accounting.supplyIndex > 0 && q.amount >= 0
    requires p.scaledToBurn == q.amount * RAY / p.accounting.supplyIndex
    requires p.scaledToBurn <= p.snapshot.scaledSupply
  {
    var applied :- PayOut(Books(ledger, p.accounting), q.amount, q.now);
    var snapshot := WithdrawnSnapshot(p.snapshot, applied.scaledDelta, q.now);
    var _ :- FinalChecks(applied.books);
    Ok(s.WriteBooks(applied.books).WriteSnapshot(snapshot))
  }

  function Withdraw(s: State, q: Request): Result<State> {
    var p :- PrepareWithdraw(s, q);
    var ledger :- s.ledger.OkOr(NotInitialized);
    CommitWithdraw(s, q, p, ledger)
  }

  // ----- borrow -----

  datatype PreparedBorrow = PreparedBorrow(accounting: ReserveState, borrowCap: i128)

  function PrepareBorrow(s: State, q: Request): (r: Result<PreparedBorrow>)
    ensures r.Ok? ==> q.amount > 0
    ensures r.Ok? ==> q.reserveId in s.reserves && r.value.accounting == s.reserves[q.reserveId]
    ensures r.Ok? ==> var check := CanBorrow(s, q.actor, q.reserveId, q.amount);
                      check.Ok? && check.value.isAllowed
  {
    var pool :- s.market.pool.OkOr(NotInitialized);
    var _ :- Reject(pool.status == Uninitialized || pool.status == Initializing, NotInitialized);
    var _ :- Reject(pool.paused || pool.status == ProtocolPaused || pool.status == Emergency, Paused);
    var _ :- Reject(pool.status != Active, ReserveNotActive);
    var listing :- MatchListing(s, q);
    var _ :- match listing.status
             case ReserveActive => Ok(())
             case Frozen => Err(ReserveFrozen)
             case Halted => Err(LendingError.ReservePaused)
             case ReserveUninitialized => Err(ReserveNotActive)
             case Retired => Err(ReserveNotActive);
    var config :- s.market.validation.OkOr(NotInitialized);
    var _ :- ValidateValidationConfig(config);
    var _ :- CheckAmount(q.amount, config.minBorrowAmount, config.maxTransactionAmount);
    var accounting :- Lookup(s.reserves, q.reserveId).OkOr(NotInitialized);
    var _ :- ValidateReserveAccounting(accounting);
    var _ :- Reject(q.amount > accounting.availableLiquidity, InsufficientLiquidity);
    var _ :- Reject(listing.borrowCap < 0, InvalidAmount);
    var projected :- Checked(accounting.totalActualDebt + q.amount, MathOverflow);
    var _ :- Reject(projected > listing.borrowCap, BorrowCapViolation);
    var _ :- CheckLedger(q.now, listing, accounting);
    var check :- CanBorrow(s, q.actor, q.reserveId, q.amount);
    var _ :- Reject(!check.isAllowed, HFTooLow);
    Ok(PreparedBorrow(accounting, listing.borrowCap))
  }

  /** Debt shares in, cash out. */
  function LendOut(b: Books, amount: i128, borrowCap: i128, now: u32): Result<Applied> {
    var debt :- ApplyDebtIncrease(b, amount, Some(borrowCap), now);
    var cash :- ApplyLiquidityDecrease(debt.books, amount, now);
    Ok(Applied(cash.books, debt.scaledDelta))
  }

  /** A first-time borrower gets a fresh snapshot. */
  function BorrowerSnapshot(s: State, q: Request): UserSnapshot {
    s.Snapshot(q.actor, q.reserveId).GetOr(NewSnapshot(q.actor, q.reserveId, q.now))
  }

  function CommitBorrow(s: State, q: Request, p: PreparedBorrow, ledger: LedgerState): Result<State> {
    var applied :- LendOut(Books(ledger, p.accounting), q.amount, p.borrowCap, q.now);
    var snapshot := BorrowerSnapshot(s, q);
    var scaledDebt :- CheckedAdd(snapshot.scaledDebt, applied.scaledDelta);
    var _ :- FinalChecks(applied.books);
    Ok(s.WriteBooks(applied.books).WriteSnapshot(snapshot.(scaledDebt := scaledDebt, lastUpdatedLedger := q.now)))
  }

  function Borrow(s: State, q: Request): Result<State> {
    var p :- PrepareBorrow(s, q);
    var ledger :- s.ledger.OkOr(NotInitialized);
    CommitBorrow(s, q, p, ledger)
  }

  // ----- repay -----

  datatype RepayPreview = RepayPreview(actualRepay: i128, currentDebt: i128, scaledToBurn: i128)

  /** Repaying everything burns every share; a partial repayment burns the ceiling of its share value. */
  function CapRepayToDebt(requested: i128, snapshot: Option<UserSnapshot>, accounting: ReserveState)
    : Result<RepayPreview>
  {
    var user :- snapshot.OkOr(NoDebtToRepay);
    var _ :- Reject(user.scaledDebt <= 0, NoDebtToRepay);
    var debt :- ScaledDebtToActual(user.scaledDebt, accounting.borrowIndex);
    var _ :- Reject(debt <= 0, NoDebtToRepay);
    var repay := if requested > debt then debt else requested;
    if repay == debt then Ok(RepayPreview(repay, debt, user.scaledDebt))
    else
      var burn :- ActualDebtToScaled(repay, accounting.borrowIndex);
      if burn > user.scaledDebt then Err(MathUnderflow) else Ok(RepayPreview(repay, debt, burn))
  }

  datatype PreparedRepay = PreparedRepay(accounting: ReserveState, snapshot: UserSnapshot, preview: RepayPreview)

  function PrepareRepay(s: State, q: Request): (r: Result<PreparedRepay>)
    ensures r.Ok? ==> q.amount > 0
    ensures r.Ok? ==> q.reserveId in s.reserves && r.value.accounting == s.reserves[q.reserveId]
    ensures r.Ok? ==> s.Snapshot(q.actor, q.reserveId) == Some(r.value.snapshot)
    ensures r.Ok? ==> CapRepayToDebt(q.amount, Some(r.value.snapshot), r.value.accounting) == Ok(r.value.preview)
    ensures r.Ok? ==> ValidateReserveAccounting(r.value.accounting).Ok?
  {
    var pool :- s.market.pool.OkOr(NotInitialized);
    var _ :- Reject(pool.status == Uninitialized || pool.status == Initializing, NotInitialized);
    var listing :- MatchListing(s, q);
    var _ :- Reject(!s.market.AllowsExit(listing.reserveId), ReserveNotActive);
    var config :- s.market.validation.OkOr(NotInitialized);
    var _ :- ValidateValidationConfig(config);
    var _ :- CheckAmount(q.amount, config.minRepayAmount, config.maxTransactionAmount);
    var accounting :- Lookup(s.reserves, q.reserveId).OkOr(NotInitialized);
    var _ :- ValidateReserveAccounting(accounting);
    var preview :- CapRepayToDebt(q.amount, s.Snapshot(q.actor, q.reserveId), accounting);
    var _ :- CheckLedger(q.now, listing, accounting);
    Ok(PreparedRepay(accounting, s.Snapshot(q.actor, q.reserveId).value, preview))
  }

  /** The previewed shares are burned directly, without converting the amount a second time. */
  function TakeRepayment(b: Books, preview: RepayPreview, now: u32): Result<Applied> {
    var _ :- Reject(now < b.ledger.lastUpdatedLedger, InvalidAmount);
    var _ :- ValidateAccountingLedger(b.ledger);
    var debt :- DecreaseScaledDebt(b, preview.scaledToBurn, preview.actualRepay, now);
    var cash :- ApplyLiquidityIncrease(debt, preview.actualRepay, now);
    Ok(Applied(cash.books, preview.scaledToBurn))
  }

  function CommitRepay(s: State, q: Request, p: PreparedRepay, ledger: LedgerState): Result<State> {
    var applied :- TakeRepayment(Books(ledger, p.accounting), p.preview, q.now);
    var scaledDebt :- CheckedSub(p.snapshot.scaledDebt, applied.scaledDelta);
    var _ :- FinalChecks(applied.books);
    Ok(s.WriteBooks(applied.books).WriteSnapshot(p.snapshot.(scaledDebt := scaledDebt, lastUpdatedLedger := q.now)))
  }

  function Repay(s: State, q: Request): Result<State> {
    var p :- PrepareRepay(s, q);
    var ledger :- s.ledger.OkOr(NotInitialized);
    CommitRepay(s, q, p, ledger)
  }

  // ----- liquidation -----

  /** Unlike the risk engine's, this percentage may exceed 100%. */
  function ApplyBonusBps(amount: i128, bps: int): Result<i128> {
    PlainMulDivDown(amount, bps, PERCENTAGE_FACTOR)
  }

  function CloseFactorAmount(debt: i128, closeFactorBps: u32): Result<i128> {
    var _ :- Reject(closeFactorBps > PERCENTAGE_FACTOR, InvalidAmount);
    ApplyBonusBps(debt, closeFactorBps)
  }

  function CollateralToSeize(debtToCover: i128, debtPrice: i128, collateralPrice: i128, bonusBps: u32)
    : Result<i128>
  {
    var debtValue :- ValueWithPrice(debtToCover, debtPrice);
    var _ :- Reject(PERCENTAGE_FACTOR + bonusBps > U32_MAX, MathOverflow);
    var bonusValue :- ApplyBonusBps(debtValue, PERCENTAGE_FACTOR + bonusBps);
    var _ :- Reject(collateralPrice <= 0, InvalidPriceValue);
    PlainMulDivDown(bonusValue, WAD, collateralPrice)
  }

  datatype RequiredPosition = RequiredPosition(snapshot: UserSnapshot, accounting: ReserveState, listing: Listing)

  function ReadRequiredPosition(s: State, user: string, reserveId: u32): (r: Result<RequiredPosition>)
    ensures r.Ok? ==> s.Snapshot(user, reserveId) == Some(r.value.snapshot)
    ensures r.Ok? ==> reserveId in s.reserves && r.value.accounting == s.reserves[reserveId]
  {
    var snapshot :- s.Snapshot(user, reserveId).OkOr(NoDebtToRepay);
    var accounting :- Lookup(s.reserves, reserveId).OkOr(NotInitialized);
    var listing :- Lookup(s.market.listings, reserveId).OkOr(ReserveNotFound);
    Ok(RequiredPosition(snapshot, accounting, listing))
  }

  datatype PreparedLiquidation = PreparedLiquidation(
    debt: RequiredPosition,
    collateral: RequiredPosition,
    borrowerDebt: i128,
    borrowerCollateral: i128,
    debtToCover: i128,
    collateralToSeize: i128)

  function PrepareLiquidation(s: State, q: LiquidationRequest): (r: Result<PreparedLiquidation>)
    ensures r.Ok? ==> ReadRequiredPosition(s, q.borrower, q.debtReserveId) == Ok(r.value.debt)
    ensures r.Ok? ==> ReadRequiredPosition(s, q.borrower, q.collateralReserveId) == Ok(r.value.collateral)
    ensures r.Ok? ==>
      var p := r.value;
      && ScaledDebtToActual(p.debt.snapshot.scaledDebt, p.debt.accounting.borrowIndex) == Ok(p.borrowerDebt)
      && ScaledSupplyToActual(p.collateral.snapshot.scaledSupply, p.collateral.accounting.supplyIndex)
         == Ok(p.borrowerCollateral)
      && p.borrowerDebt > 0 && p.borrowerCollateral > 0 && 0 < p.debtToCover <= p.borrowerDebt
      && 0 <= p.collateralToSeize <= p.borrowerCollateral
    ensures r.Ok? ==>
      var p, cap := r.value, CloseFactorAmount(r.value.borrowerDebt, s.market.RiskConfigOrDefault().maxCloseFactorBps);
      cap.Ok? && p.debtToCover <= cap.value
    ensures r.Ok? ==>
      var p := r.value;
      var seize := CollateralToSeize(p.debtToCover, s.market.Price(q.debtReserveId),
                                     s.market.Price(q.collateralReserveId), p.collateral.listing.liquidationBonus);
      seize.Ok? && p.collateralToSeize <= seize.value
  {
    var _ :- Reject(q.repayAmount <= 0, InvalidAmount);
    var pool :- s.market.pool.OkOr(NotInitialized);
    var _ :- Reject(pool.status == Uninitialized, NotInitialized);
    var debt :- ReadRequiredPosition(s, q.borrower, q.debtReserveId);
    var collateral :- ReadRequiredPosition(s, q.borrower, q.collateralReserveId);
    var _ :- Reject(q.debtAssetAddress != debt.listing.assetAddress
                    || q.collateralAssetAddress != collateral.listing.assetAddress, InvalidIndex);
    var _ :- Reject(!s.market.AllowsExit(q.debtReserveId) || !s.market.AllowsExit(q.collateralReserveId),
                    ReserveNotActive);
    var borrowerDebt :- ScaledDebtToActual(debt.snapshot.scaledDebt, debt.accounting.borrowIndex);
    var _ :- Reject(borrowerDebt <= 0, NoDebtToRepay);
    var borrowerCollateral :-
      ScaledSupplyToActual(collateral.snapshot.scaledSupply, collateral.accounting.supplyIndex);
    var _ :- Reject(borrowerCollateral <= 0, InsufficientCollateral);
    var debtPrice, collateralPrice := s.market.Price(q.debtReserveId), s.market.Price(q.collateralReserveId);
    var risk := s.market.RiskConfigOrDefault();
    var collateralValue :- ValueWithPrice(borrowerCollateral, collateralPrice);
    var borrowValue :- ValueWithPrice(borrowerDebt, debtPrice);
    var healthFactor :-
      CalculateHealthFactor(collateralValue, borrowValue, collateral.listing.liquidationThreshold);
    var _ :- Reject(healthFactor >= MinHealthFactor(risk.minHealthFactor), LiquidationNotAllowed);
    var closeFactorAmount :- CloseFactorAmount(borrowerDebt, risk.maxCloseFactorBps);
    var maxToCover := if closeFactorAmount > borrowerDebt then borrowerDebt else closeFactorAmount;
    var debtToCover := if q.repayAmount > maxToCover then maxToCover else q.repayAmount;
    var _ :- Reject(debtToCover <= 0, InvalidAmount);
    var seize :- CollateralToSeize(debtToCover, debtPrice, collateralPrice, collateral.listing.liquidationBonus);
    var capped := if seize > borrowerCollateral then borrowerCollateral else seize;
    Ok(PreparedLiquidation(debt, collateral, borrowerDebt, borrowerCollateral, debtToCover, capped))
  }

  /** Burn debt shares and take the cash in. */
  function PayIn(b: Books, amount: i128, now: u32): Result<Applied> {
    var debt :- ApplyDebtDecrease(b, amount, now);
    var cash :- ApplyLiquidityIncrease(debt.books, amount, now);
    Ok(Applied(cash.books, debt.scaledDelta))
  }

  /** The ledger and both reserves after the four postings; for a single reserve both entries hold it. */
  datatype Liquidated = Liquidated(
    ledger: LedgerState, debtReserve: ReserveState, collateralReserve: ReserveState,
    debtBurned: i128, collateralBurned: i128)

  function PostLiquidation(q: LiquidationRequest, p: PreparedLiquidation, ledger: LedgerState): Result<Liquidated> {
    var same := q.debtReserveId == q.collateralReserveId;
    var paid :- PayIn(Books(ledger, p.debt.accounting), p.debtToCover, q.now);
    var start := if same then paid.books else Books(paid.books.ledger, p.collateral.accounting);
    var cash :- PayOut(start, p.collateralToSeize, q.now);
    var debtReserve := if same then cash.books.reserve else paid.books.reserve;
    Ok(Liquidated(cash.books.ledger, debtReserve, cash.books.reserve, paid.scaledDelta, cash.scaledDelta))
  }

  /** Plain checked subtraction: a negative share balance would not be refused here. */
  function BurnShares(shares: i128, burned: i128): Result<i128> {
    Checked(shares - burned, MathUnderflow)
  }

  function LiquidationFinalChecks(l: Liquidated): Result<()> {
    var _ :- ValidateAccountingLedger(l.ledger);
    var _ :- ValidateReserveAccounting(l.debtReserve);
    ValidateReserveAccounting(l.collateralReserve)
  }

  function LiquidatedSnapshots(q: LiquidationRequest, p: PreparedLiquidation, l: Liquidated)
    : Result<(UserSnapshot, UserSnapshot)>
  {
    var debtShares :- BurnShares(p.debt.snapshot.scaledDebt, l.debtBurned);
    var debtSnapshot := p.debt.snapshot.(scaledDebt := debtShares, lastUpdatedLedger := q.now);
    var before := if q.debtReserveId == q.collateralReserveId then debtSnapshot else p.collateral.snapshot;
    var supplyShares :- BurnShares(before.scaledSupply, l.collateralBurned);
    var collateralSnapshot := before.(scaledSupply := supplyShares, lastUpdatedLedger := q.now);
    Ok((debtSnapshot, collateralSnapshot))
  }

  function CommitLiquidation(s: State, q: LiquidationRequest, p: PreparedLiquidation, ledger: LedgerState)
    : Result<State>
  {
    var l :- PostLiquidation(q, p, ledger);
    var snapshots :- LiquidatedSnapshots(q, p, l);
    var _ :- LiquidationFinalChecks(l);
    Ok(s.WriteBooks(Books(l.ledger, l.debtReserve))
        .WriteBooks(Books(l.ledger, l.collateralReserve))
        .WriteSnapshot(snapshots.0)
        .WriteSnapshot(snapshots.1))
  }

  function Liquidate(s: State, q: LiquidationRequest): Result<State> {
    var p :- PrepareLiquidation(s, q);
    var ledger :- s.ledger.OkOr(NotInitialized);
    CommitLiquidation(s, q, p, ledger)
  }
}
