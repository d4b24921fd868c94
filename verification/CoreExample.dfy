/** A sound state on which a core liquidation at the full close factor leaves its borrower with minus one debt share. */
module CoreExample {
  import opened Prelude
  import opened Shares
  import opened AccountingModel
  import opened ConfigModel
  import opened Store
  import opened Operations
  import opened Flows
  import opened Totals
  import opened Positions

  const INDEX: i128 := 1_500_000_000_000_000_000_000_000_000

  /** A lender's ten, of which two borrowers took one each: one share apiece, at an index of one and a half. */
  const LOANS := ReserveState(1, 8, 8, 10, 2, 10, 2, 0, 0, 0, RAY, INDEX, 0)

  /** The two units the borrower has as collateral. */
  const COLLATERAL := ReserveState(2, 2, 2, 2, 0, 2, 0, 0, 0, 0, RAY, RAY, 0)

  const LEDGER := LedgerState(12, 12, 0, 10, 12, 2, 0, 0, 0, 0, ACCOUNTING_VERSION)

  /** A close factor of the whole debt passes the configuration's own validation. */
  const RISK := DefaultRiskConfig().(maxCloseFactorBps := 10_000)

  const LOANS_LISTING := Listing(1, "loans", ReserveActive, 1_000, 1_000, 7_500, 8_000, 0, 0)
  const COLLATERAL_LISTING := Listing(2, "collateral", ReserveActive, 1_000, 1_000, 7_500, 8_000, 0, 0)

  const BORROWED := UserSnapshot("borrower", 1, 0, 1, false, 0)
  const PLEDGED := UserSnapshot("borrower", 2, 2, 0, true, 0)
  const OTHER := UserSnapshot("other", 1, 0, 1, false, 0)
  const LENT := UserSnapshot("lender", 1, 10, 0, false, 0)

  const MARKET :=
    Market(Some(PoolStatus(Active, false)), map[1 := LOANS_LISTING, 2 := COLLATERAL_LISTING], map[], None, Some(RISK))

  const STATE :=
    State(Some(LEDGER), map[1 := LOANS, 2 := COLLATERAL],
          map[("lender", 1) := LENT, ("borrower", 1) := BORROWED, ("other", 1) := OTHER, ("borrower", 2) := PLEDGED],
          MARKET)

  const REQUEST := LiquidationRequest("borrower", 1, 2, "loans", "collateral", 2, 1)

  const PREPARED :=
    PreparedLiquidation(RequiredPosition(BORROWED, LOANS, LOANS_LISTING),
                        RequiredPosition(PLEDGED, COLLATERAL, COLLATERAL_LISTING), 2, 2, 2, 2)

  lemma TotalOfTwo(r1: ReserveState, r2: ReserveState)
    ensures TotalOf(map[1 := r1, 2 := r2]) == r1.Balance().Plus(r2.Balance())
  {
    var none: map<u32, ReserveState> := map[];
    TotalOfUpdate(none, 1, r1);
    TotalOfUpdate(none[1 := r1], 2, r2);
    assert none[1 := r1][2 := r2] == map[1 := r1, 2 := r2];
  }

  /** Two sound reserves whose balances the ledger adds up. */
  lemma TwoReservesAreSound(s: State, l: LedgerState, r1: ReserveState, r2: ReserveState)
    requires s.ledger == Some(l) && s.reserves == map[1 := r1, 2 := r2] && s.WellKeyed()
    requires Mirrors(l, r1.Balance().Plus(r2.Balance())) && SoundReserve(r1) && SoundReserve(r2)
    ensures Sound(s)
  {
    hide Mirrors, TotalOf, SoundReserve;
    TotalOfTwo(r1, r2);
  }

  lemma BothBalances()
    ensures LOANS.Balance() == Entry(8, 10, 2, 10, 2, 0, 0, 0) && COLLATERAL.Balance() == Entry(2, 2, 0, 2, 0, 0, 0, 0)
    ensures SoundReserve(LOANS) && SoundReserve(COLLATERAL)
  {
  }

  lemma LedgerAddsUp(e: Entry, f: Entry)
    requires e == Entry(8, 10, 2, 10, 2, 0, 0, 0) && f == Entry(2, 2, 0, 2, 0, 0, 0, 0)
    ensures Mirrors(LEDGER, e.Plus(f))
  {
  }

  lemma StateIsWellKeyed(s: State)
    requires s == STATE
    ensures s.WellKeyed() && s.ledger == Some(LEDGER) && s.reserves == map[1 := LOANS, 2 := COLLATERAL]
  {
  }

  lemma StateIsSound()
    ensures Sound(STATE) && ValidateRiskConfig(RISK).Ok?
  {
    hide Mirrors, Sound, SoundReserve, State.WellKeyed, ReserveState.Balance, Entry.Plus;
    StateIsWellKeyed(STATE);
    BothBalances();
    LedgerAddsUp(LOANS.Balance(), COLLATERAL.Balance());
    TwoReservesAreSound(STATE, LEDGER, LOANS, COLLATERAL);
  }

  lemma CollateralAtRay()
    ensures ScaledSupplyToActual(2, RAY) == Ok(2) && ActualSupplyToScaled(2, RAY) == Ok(2)
  {
    assert Gcd(2 * RAY, RAY) == RAY;
  }

  lemma RequestIsPrepared()
    ensures PrepareLiquidation(STATE, REQUEST) == Ok(PREPARED)
  {
    hide ScaledSupplyToActual, ScaledDebtToActual;
    FullCoverExample();
    CollateralAtRay();
  }

  // ----- the postings -----

  /** Shares of a debt can be burned when both records hold the amount and the shares. */
  lemma DebtCanBeBurned(b: Books, amount: i128, shares: i128, now: u32)
    requires ValidateContext(b, now).Ok? && b.reserve.badDebt == 0
    requires amount > 0 && shares > 0 && ActualDebtToScaled(amount, b.reserve.borrowIndex) == Ok(shares)
    requires shares <= b.reserve.totalScaledDebt && shares <= b.ledger.totalScaledDebt
    requires amount <= b.reserve.totalActualDebt && amount <= b.ledger.totalAssets
    ensures ApplyDebtDecrease(b, amount, now)
            == Ok(Applied(
                 Books(b.ledger.(totalScaledDebt := b.ledger.totalScaledDebt - shares,
                                 totalAssets := b.ledger.totalAssets - amount, lastUpdatedLedger := now),
                       b.reserve.(totalScaledDebt := b.reserve.totalScaledDebt - shares,
                                  totalActualDebt := b.reserve.totalActualDebt - amount, lastUpdatedLedger := now)),
                 shares))
  {
    hide ActualDebtToScaled, Posts;
  }

  lemma CashCanComeIn(b: Books, amount: i128, now: u32)
    requires ValidateContext(b, now).Ok? && amount >= 0
    requires InI128(b.reserve.totalLiquidity + amount) && InI128(b.ledger.totalLiquidity + amount)
    requires InI128(b.ledger.totalAssets + amount)
    ensures ApplyLiquidityIncrease(b, amount, now)
            == Ok(Applied(
                 Books(b.ledger.(totalLiquidity := b.ledger.totalLiquidity + amount,
                                 totalAssets := b.ledger.totalAssets + amount, lastUpdatedLedger := now),
                       b.reserve.(totalLiquidity := b.reserve.totalLiquidity + amount,
                                  availableLiquidity := b.reserve.availableLiquidity + amount,
                                  lastUpdatedLedger := now)),
                 0))
  {
    hide Posts;
  }

  lemma SupplyCanBeBurned(b: Books, amount: i128, shares: i128, now: u32)
    requires ValidateContext(b, now).Ok?
    requires amount > 0 && shares > 0 && ActualSupplyToScaled(amount, b.reserve.supplyIndex) == Ok(shares)
    requires shares <= b.reserve.totalScaledSupply && shares <= b.ledger.totalScaledSupply
    requires amount <= b.reserve.totalActualSupply && amount <= b.ledger.totalLiabilities
    requires amount <= b.reserve.availableLiquidity && amount <= b.ledger.totalLiquidity
    requires amount <= b.ledger.totalAssets
    ensures PayOut(b, amount, now).Ok? && PayOut(b, amount, now).value.scaledDelta == shares
  {
    hide ActualSupplyToScaled, Posts;
  }

  /** The ledger of a liquidation between two reserves, each of which can give what is asked of it. */
  lemma LiquidationCanBePosted(q: LiquidationRequest, p: PreparedLiquidation, l: LedgerState, burned: i128,
                               seized: i128)
    requires q.debtReserveId != q.collateralReserveId && p.debt.accounting.badDebt == 0
    requires ValidateContext(Books(l, p.debt.accounting), q.now).Ok?
    requires ValidateContext(Books(l, p.collateral.accounting), q.now).Ok?
    requires p.debtToCover > 0 && burned > 0 && p.collateralToSeize > 0 && seized > 0
    requires ActualDebtToScaled(p.debtToCover, p.debt.accounting.borrowIndex) == Ok(burned)
    requires ActualSupplyToScaled(p.collateralToSeize, p.collateral.accounting.supplyIndex) == Ok(seized)
    requires burned <= p.debt.accounting.totalScaledDebt && burned <= l.totalScaledDebt
    requires p.debtToCover <= p.debt.accounting.totalActualDebt && p.debtToCover <= l.totalAssets
    requires seized <= p.collateral.accounting.totalScaledSupply && seized <= l.totalScaledSupply
    requires p.collateralToSeize <= p.collateral.accounting.totalActualSupply
    requires p.collateralToSeize <= l.totalLiabilities
    requires p.collateralToSeize <= p.collateral.accounting.availableLiquidity
    requires p.collateralToSeize <= l.totalLiquidity && p.collateralToSeize <= l.totalAssets
    requires InI128(p.debt.accounting.totalLiquidity + p.debtToCover) && InI128(l.totalLiquidity + p.debtToCover)
    ensures var r := PostLiquidation(q, p, l);
            && r.Ok? && r.value.debtBurned == burned && r.value.collateralBurned == seized
            && r.value.debtReserve.reserveId == p.debt.accounting.reserveId
            && r.value.collateralReserve.reserveId == p.collateral.accounting.reserveId
            && r.value.debtReserve.totalScaledDebt == p.debt.accounting.totalScaledDebt - burned
  {
    hide ActualSupplyToScaled, ActualDebtToScaled, ApplyDebtDecrease, ApplyLiquidityIncrease, PayOut, Posts;
    DebtCanBeBurned(Books(l, p.debt.accounting), p.debtToCover, burned, q.now);
    var paid := ApplyDebtDecrease(Books(l, p.debt.accounting), p.debtToCover, q.now).value.books;
    CashCanComeIn(paid, p.debtToCover, q.now);
    var repaid := ApplyLiquidityIncrease(paid, p.debtToCover, q.now).value.books;
    var start := Books(repaid.ledger, p.collateral.accounting);
    SupplyCanBeBurned(start, p.collateralToSeize, seized, q.now);
    PayOutKeepsReserve(start, p.collateralToSeize, q.now);
  }

  lemma PayOutKeepsReserve(b: Books, amount: i128, now: u32)
    requires PayOut(b, amount, now).Ok?
    ensures PayOut(b, amount, now).value.books.reserve.reserveId == b.reserve.reserveId
  {
    hide PayOut, ValidatePostState;
    PayOutPosts(b, amount, now);
  }

  lemma ContextsAreValid()
    ensures ValidateContext(Books(LEDGER, LOANS), 1).Ok? && ValidateContext(Books(LEDGER, COLLATERAL), 1).Ok?
  {
  }

  lemma RequestIsPosted(l: LedgerState)
    requires l == LEDGER
    ensures var r := PostLiquidation(REQUEST, PREPARED, l);
            && r.Ok? && r.value.debtBurned == 2 && r.value.collateralBurned == 2
            && r.value.debtReserve.reserveId == 1 && r.value.debtReserve.totalScaledDebt == 0
            && r.value.collateralReserve.reserveId == 2
  {
    hide ActualSupplyToScaled, ActualDebtToScaled, ValidateContext, PostLiquidation;
    FullCoverExample();
    CollateralAtRay();
    ContextsAreValid();
    LiquidationCanBePosted(REQUEST, PREPARED, l, 2, 2);
  }

  /** What the last writes leave, when both share balances fit. */
  lemma WritesAreStored(s: State, q: LiquidationRequest, p: PreparedLiquidation, l: Liquidated, ledger: LedgerState)
    requires CommitLiquidation(s, q, p, ledger).Ok? && PostLiquidation(q, p, ledger) == Ok(l)
    requires q.debtReserveId != q.collateralReserveId
    requires p.debt.snapshot.user == p.collateral.snapshot.user == q.borrower
    requires p.debt.snapshot.reserveId == q.debtReserveId && p.collateral.snapshot.reserveId == q.collateralReserveId
    requires l.debtReserve.reserveId == q.debtReserveId && l.collateralReserve.reserveId == q.collateralReserveId
    ensures var t := CommitLiquidation(s, q, p, ledger).value;
            && t.Snapshot(q.borrower, q.debtReserveId).Some?
            && t.Snapshot(q.borrower, q.debtReserveId).value.scaledDebt == p.debt.snapshot.scaledDebt - l.debtBurned
            && q.debtReserveId in t.reserves && t.reserves[q.debtReserveId] == l.debtReserve
            && forall u: string, k: u32 :: u != q.borrower ==> t.Snapshot(u, k) == s.Snapshot(u, k)
  {
    hide PostLiquidation, LiquidationFinalChecks;
  }

  /** The borrower's one share owes two; covering both burns two shares, of which the other borrower had one. */
  lemma FullCoverStoresMinusOne() returns (s: State, q: LiquidationRequest, t: State)
    ensures Sound(s) && Liquidate(s, q) == Ok(t) && Sound(t)
    ensures s.Snapshot(q.borrower, q.debtReserveId) == Some(BORROWED)
    ensures t.Snapshot(q.borrower, q.debtReserveId).Some?
    ensures t.Snapshot(q.borrower, q.debtReserveId).value.scaledDebt == -1
    ensures t.Snapshot("other", q.debtReserveId) == s.Snapshot("other", q.debtReserveId) == Some(OTHER)
    ensures q.debtReserveId in t.reserves && t.reserves[q.debtReserveId].totalScaledDebt == 0
    ensures s == STATE && q == REQUEST && ValidateRiskConfig(RISK).Ok?
  {
    hide Sound, PrepareLiquidation, PostLiquidation, CommitLiquidation, ReadRequiredPosition, LiquidatedSnapshots;
    s, q := STATE, REQUEST;
    StateIsSound();
    RequestIsPrepared();
    RequestIsPosted(LEDGER);
    var l := PostLiquidation(q, PREPARED, LEDGER).value;
    LiquidationNeverFailsItsFinalChecks(s, q, PREPARED, l);
    assert LiquidatedSnapshots(q, PREPARED, l).Ok? by { SharesFit(l); }
    t := Liquidate(s, q).value;
    WritesAreStored(s, q, PREPARED, l, LEDGER);
  }

  lemma SharesFit(l: Liquidated)
    requires l.debtBurned == 2 && l.collateralBurned == 2
    ensures LiquidatedSnapshots(REQUEST, PREPARED, l).Ok?
  {
  }
}
