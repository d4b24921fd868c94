/** Whole runs: any sequence of flows, primitives and administrative changes, failed steps included. */
module Runs {
  import opened Prelude
  import opened AccountingModel
  import opened Store
  import opened Primitives
  import opened Operations
  import opened Flows
  import opened Totals
  import opened Sums

  datatype Primitive =
    | LiquidityIn(amount: i128)
    | LiquidityOut(amount: i128)
    | SupplyIn(scaled: i128, amount: i128)
    | SupplyOut(scaled: i128, amount: i128)
    | DebtIn(scaled: i128, amount: i128)
    | DebtOut(scaled: i128, amount: i128)
    | BadDebtRecorded(amount: i128)
    | BadDebtReduced(amount: i128)
    | BadDebtCovered(amount: i128, scaled: i128)
    | TreasuryAccrued(amount: i128)
    | TreasuryWithdrawn(amount: i128)
    | InsuranceAccrued(amount: i128)
  {
    function Run(b: Books, now: u32): Result<Books> {
      match this
      case LiquidityIn(a) => IncreaseLiquidity(b, a, now)
      case LiquidityOut(a) => DecreaseLiquidity(b, a, now)
      case SupplyIn(x, a) => IncreaseScaledSupply(b, x, a, now)
      case SupplyOut(x, a) => DecreaseScaledSupply(b, x, a, now)
      case DebtIn(x, a) => IncreaseScaledDebt(b, x, a, now)
      case DebtOut(x, a) => DecreaseScaledDebt(b, x, a, now)
      case BadDebtRecorded(a) => RecordBadDebt(b, a, now)
      case BadDebtReduced(a) => ReduceBadDebt(b, a, now)
      case BadDebtCovered(a, x) => CoverBadDebt(b, a, x, now)
      case TreasuryAccrued(a) => AccrueToTreasury(b, a, now)
      case TreasuryWithdrawn(a) => WithdrawFromTreasury(b, a, now)
      case InsuranceAccrued(a) => AccrueToInsurance(b, a, now)
    }
  }

  datatype Op =
    | DoDeposit(q: Request)
    | DoWithdraw(q: Request)
    | DoBorrow(q: Request)
    | DoRepay(q: Request)
    | DoLiquidate(l: LiquidationRequest)
    | DoPrimitive(k: u32, p: Primitive, now: u32)
    | DoSetIndices(k: u32, supplyIndex: i128, borrowIndex: i128, now: u32)
    | DoAddReserve(k: u32, now: u32)
    | DoSetMarket(market: Market)

  function Step(s: State, op: Op): Result<State> {
    match op
    case DoDeposit(q) => Deposit(s, q)
    case DoWithdraw(q) => Withdraw(s, q)
    case DoBorrow(q) => Borrow(s, q)
    case DoRepay(q) => Repay(s, q)
    case DoLiquidate(q) => Liquidate(s, q)
    case DoPrimitive(k, p, now) =>
      var ledger :- s.ledger.OkOr(NotInitialized);
      var reserve :- Lookup(s.reserves, k).OkOr(NotInitialized);
      var after :- p.Run(Books(ledger, reserve), now);
      Ok(s.WriteBooks(after))
    case DoSetIndices(k, supplyIndex, borrowIndex, now) =>
      var reserve :- Lookup(s.reserves, k).OkOr(NotInitialized);
      var after :- SetReserveIndices(reserve, supplyIndex, borrowIndex, now);
      Ok(s.(reserves := s.reserves[k := after]))
    case DoAddReserve(k, now) =>
      var _ :- Reject(k in s.reserves, AlreadyInitialized);
      Ok(s.(reserves := s.reserves[k := NewReserve(k, now)]))
    case DoSetMarket(market) => Ok(s.(market := market))
  }

  /** A failed step leaves the stored state as it was. */
  function Next(s: State, op: Op): State {
    match Step(s, op)
    case Ok(t) => t
    case Err(_) => s
  }

  function Run(s: State, ops: seq<Op>): State
    decreases |ops|
  {
    if ops == [] then s else Run(Next(s, ops[0]), ops[1..])
  }

  function Genesis(now: u32, market: Market): State {
    State(Some(NewLedger(now)), map[], map[], market)
  }

  // ----- the shape of a successful flow: one posting, one snapshot -----

  ghost function SharesAt(m: map<Position, UserSnapshot>, p: Position): (int, int) {
    if p in m then (m[p].scaledSupply, m[p].scaledDebt) else (0, 0)
  }

  /** The user's shares move by exactly what the entry says. */
  ghost predicate Matches(s: State, user: string, k: u32, u: UserSnapshot, e: Entry) {
    && u.user == user && u.reserveId == k
    && u.scaledSupply == SharesAt(s.snapshots, (user, k)).0 + e.scaledSupply
    && u.scaledDebt == SharesAt(s.snapshots, (user, k)).1 + e.scaledDebt
  }

  lemma DepositShape(s: State, q: Request) returns (after: Books, e: Entry)
    requires Deposit(s, q).Ok?
    ensures s.ledger.Some? && q.reserveId in s.reserves && s.reserves[q.reserveId].supplyIndex > 0
    ensures Posts(Before(s, q.reserveId), after, e, q.now)
    ensures e.scaledDebt == 0 && e.scaledSupply == q.amount * RAY / s.reserves[q.reserveId].supplyIndex
    ensures Deposit(s, q).value == s.WriteBooks(after)
  {
    var p, b := PrepareDeposit(s, q).value, Before(s, q.reserveId);
    var a := TakeDeposit(b, q.amount, p.supplyCap, q.now).value;
    TakeDepositPosts(b, q.amount, p.supplyCap, q.now);
    after, e := a.books, Liquidity(q.amount).Plus(Supply(a.scaledDelta, q.amount));
  }

  lemma WithdrawShape(s: State, q: Request) returns (after: Books, e: Entry, u: UserSnapshot)
    requires s.WellKeyed() && Withdraw(s, q).Ok?
    ensures s.ledger.Some? && q.reserveId in s.reserves
    ensures Posts(Before(s, q.reserveId), after, e, q.now) && Matches(s, q.actor, q.reserveId, u, e)
    ensures Withdraw(s, q).value == s.WriteBooks(after).WriteSnapshot(u)
  {
    var p, b := PrepareWithdraw(s, q).value, Before(s, q.reserveId);
    var a := PayOut(b, q.amount, q.now).value;
    PayOutPosts(b, q.amount, q.now);
    after, e := a.books, Supply(a.scaledDelta, q.amount).Negated().Plus(Liquidity(q.amount).Negated());
    u := WithdrawnSnapshot(p.snapshot, a.scaledDelta, q.now);
  }

  lemma BorrowShape(s: State, q: Request) returns (after: Books, e: Entry, u: UserSnapshot)
    requires s.WellKeyed() && Borrow(s, q).Ok?
    ensures s.ledger.Some? && q.reserveId in s.reserves
    ensures Posts(Before(s, q.reserveId), after, e, q.now) && Matches(s, q.actor, q.reserveId, u, e)
    ensures Borrow(s, q).value == s.WriteBooks(after).WriteSnapshot(u)
  {
    var p, b := PrepareBorrow(s, q).value, Before(s, q.reserveId);
    var a := LendOut(b, q.amount, p.borrowCap, q.now).value;
    LendOutPosts(b, q.amount, p.borrowCap, q.now);
    after, e := a.books, Debt(a.scaledDelta, q.amount).Plus(Liquidity(q.amount).Negated());
    u := BorrowerSnapshot(s, q);
    u := u.(scaledDebt := u.scaledDebt + a.scaledDelta, lastUpdatedLedger := q.now);
  }

  lemma RepayShape(s: State, q: Request) returns (after: Books, e: Entry, u: UserSnapshot)
    requires s.WellKeyed() && Repay(s, q).Ok?
    ensures s.ledger.Some? && q.reserveId in s.reserves
    ensures Posts(Before(s, q.reserveId), after, e, q.now) && Matches(s, q.actor, q.reserveId, u, e)
    ensures Repay(s, q).value == s.WriteBooks(after).WriteSnapshot(u)
  {
    var p, b := PrepareRepay(s, q).value, Before(s, q.reserveId);
    var v := p.preview;
    var a := TakeRepayment(b, v, q.now).value;
    TakeRepaymentPosts(b, v, q.now);
    after, e := a.books, Debt(v.scaledToBurn, v.actualRepay).Negated().Plus(Liquidity(v.actualRepay));
    u := p.snapshot.(scaledDebt := p.snapshot.scaledDebt - v.scaledToBurn, lastUpdatedLedger := q.now);
  }

  /** A liquidation is two such moves in a row: the debt paid in, then the collateral paid out. */
  lemma LiquidationShape(s: State, q: LiquidationRequest)
    returns (paid: Books, e: Entry, u: UserSnapshot, mid: State, after: Books, f: Entry, v: UserSnapshot)
    requires s.WellKeyed() && Liquidate(s, q).Ok?
    ensures s.ledger.Some? && q.debtReserveId in s.reserves && q.collateralReserveId in s.reserves
    ensures (q.borrower, q.debtReserveId) in s.snapshots && (q.borrower, q.collateralReserveId) in s.snapshots
    ensures Posts(Before(s, q.debtReserveId), paid, e, q.now) && Matches(s, q.borrower, q.debtReserveId, u, e)
    ensures mid == s.WriteBooks(paid).WriteSnapshot(u) && q.collateralReserveId in mid.reserves
    ensures Posts(Before(mid, q.collateralReserveId), after, f, q.now)
    ensures Matches(mid, q.borrower, q.collateralReserveId, v, f)
    ensures Liquidate(s, q).value == mid.WriteBooks(after).WriteSnapshot(v)
  {
    var p := PrepareLiquidation(s, q).value;
    var l := PostLiquidation(q, p, s.ledger.value).value;
    u, v := LiquidatedSnapshots(q, p, l).value.0, LiquidatedSnapshots(q, p, l).value.1;
    paid, e, mid, after, f := LiquidationMoves(s, q, p, l, u);
    LiquidationSharesMatch(s, q, p, l, e, f, mid);
    assert mid.reserves[q.collateralReserveId := after.reserve]
        == s.reserves[q.debtReserveId := l.debtReserve][q.collateralReserveId := after.reserve];
  }

  lemma LiquidationMoves(s: State, q: LiquidationRequest, p: PreparedLiquidation, l: Liquidated, u: UserSnapshot)
    returns (paid: Books, e: Entry, mid: State, after: Books, f: Entry)
    requires s.ledger.Some? && s.WellKeyed()
    requires q.debtReserveId in s.reserves && q.collateralReserveId in s.reserves
    requires p.debt.accounting == s.reserves[q.debtReserveId]
    requires p.collateral.accounting == s.reserves[q.collateralReserveId]
    requires PostLiquidation(q, p, s.ledger.value) == Ok(l)
    ensures Posts(Before(s, q.debtReserveId), paid, e, q.now)
    ensures e.scaledSupply == 0 && e.scaledDebt + l.debtBurned == 0
    ensures mid == s.WriteBooks(paid).WriteSnapshot(u) && q.collateralReserveId in mid.reserves
    ensures Posts(Before(mid, q.collateralReserveId), after, f, q.now)
    ensures f.scaledSupply + l.collateralBurned == 0 && f.scaledDebt == 0
    ensures after == Books(l.ledger, l.collateralReserve)
    ensures l.collateralReserve.reserveId == q.collateralReserveId && l.debtReserve.reserveId == q.debtReserveId
    ensures mid.reserves[q.collateralReserveId := after.reserve]
            == s.reserves[q.debtReserveId := l.debtReserve][q.collateralReserveId := after.reserve]
  {
    var applied, half := LiquidationHalves(s, q, p, l);
    PayInPosts(Before(s, q.debtReserveId), p.debtToCover, q.now);
    PayOutPosts(Before(half, q.collateralReserveId), p.collateralToSeize, q.now);
    paid, e := applied.books, Debt(l.debtBurned, p.debtToCover).Negated().Plus(Liquidity(p.debtToCover));
    mid := half.WriteSnapshot(u);
    after := Books(l.ledger, l.collateralReserve);
    f := Supply(l.collateralBurned, p.collateralToSeize).Negated().Plus(Liquidity(p.collateralToSeize).Negated());
  }

  lemma LiquidationSharesMatch(s: State, q: LiquidationRequest, p: PreparedLiquidation, l: Liquidated,
                               e: Entry, f: Entry, mid: State)
    requires s.WellKeyed() && LiquidatedSnapshots(q, p, l).Ok?
    requires s.Snapshot(q.borrower, q.debtReserveId) == Some(p.debt.snapshot)
    requires s.Snapshot(q.borrower, q.collateralReserveId) == Some(p.collateral.snapshot)
    requires e.scaledSupply == 0 && e.scaledDebt + l.debtBurned == 0
    requires f.scaledSupply + l.collateralBurned == 0 && f.scaledDebt == 0
    requires mid.snapshots == s.WriteSnapshot(LiquidatedSnapshots(q, p, l).value.0).snapshots
    ensures Matches(s, q.borrower, q.debtReserveId, LiquidatedSnapshots(q, p, l).value.0, e)
    ensures Matches(mid, q.borrower, q.collateralReserveId, LiquidatedSnapshots(q, p, l).value.1, f)
  {
  }

  // ----- every global total is the sum over reserves -----

  lemma DepositKeepsMirrored(s: State, q: Request)
    requires Mirrored(s) && Deposit(s, q).Ok?
    ensures Mirrored(Deposit(s, q).value)
  {
    var after, e := DepositShape(s, q);
    PostingKeepsTotals(s, Before(s, q.reserveId), after, e, q.now);
  }

  lemma WithdrawKeepsMirrored(s: State, q: Request)
    requires Mirrored(s) && Withdraw(s, q).Ok?
    ensures Mirrored(Withdraw(s, q).value)
  {
    var after, e, u := WithdrawShape(s, q);
    PostingKeepsTotals(s, Before(s, q.reserveId), after, e, q.now);
  }

  lemma BorrowKeepsMirrored(s: State, q: Request)
    requires Mirrored(s) && Borrow(s, q).Ok?
    ensures Mirrored(Borrow(s, q).value)
  {
    var after, e, u := BorrowShape(s, q);
    PostingKeepsTotals(s, Before(s, q.reserveId), after, e, q.now);
  }

  lemma RepayKeepsMirrored(s: State, q: Request)
    requires Mirrored(s) && Repay(s, q).Ok?
    ensures Mirrored(Repay(s, q).value)
  {
    var after, e, u := RepayShape(s, q);
    PostingKeepsTotals(s, Before(s, q.reserveId), after, e, q.now);
  }

  lemma LiquidationKeepsMirrored(s: State, q: LiquidationRequest)
    requires Mirrored(s) && Liquidate(s, q).Ok?
    ensures Mirrored(Liquidate(s, q).value)
  {
    hide Liquidate;
    var paid, e, u, mid, after, f, v := LiquidationShape(s, q);
    PostingKeepsTotals(s, Before(s, q.debtReserveId), paid, e, q.now);
    PostingKeepsTotals(mid, Before(mid, q.collateralReserveId), after, f, q.now);
  }

  lemma PrimitivePosts(b: Books, p: Primitive, now: u32) returns (e: Entry)
    requires p.Run(b, now).Ok?
    ensures Posts(b, p.Run(b, now).value, e, now)
  {
    match p
    case LiquidityIn(a) => e := Liquidity(a);
    case LiquidityOut(a) => e := Liquidity(a).Negated();
    case SupplyIn(x, a) => e := Supply(x, a);
    case SupplyOut(x, a) => e := Supply(x, a).Negated();
    case DebtIn(x, a) => e := Debt(x, a);
    case DebtOut(x, a) => e := Debt(x, a).Negated();
    case BadDebtRecorded(a) => e := Nothing.(badDebt := a);
    case BadDebtReduced(a) => e := Nothing.(badDebt := a).Negated();
    case BadDebtCovered(a, x) => e := Debt(x, a).(badDebt := a, insurance := a).Negated();
    case TreasuryAccrued(a) => e := Nothing.(treasury := a);
    case TreasuryWithdrawn(a) => e := Liquidity(a).(treasury := a).Negated();
    case InsuranceAccrued(a) => e := Nothing.(insurance := a);
  }

  lemma PrimitiveKeepsMirrored(s: State, k: u32, p: Primitive, now: u32)
    requires Mirrored(s) && k in s.reserves && p.Run(Before(s, k), now).Ok?
    ensures Mirrored(s.WriteBooks(p.Run(Before(s, k), now).value))
  {
    var e := PrimitivePosts(Before(s, k), p, now);
    PostingKeepsTotals(s, Before(s, k), p.Run(Before(s, k), now).value, e, now);
  }

  /** Storing a reserve whose contribution equals the one it replaces (nothing, if it is new) keeps the totals. */
  lemma NeutralWriteKeepsMirrored(s: State, k: u32, r: ReserveState)
    requires Mirrored(s) && r.reserveId == k
    requires r.Balance() == (if k in s.reserves then s.reserves[k].Balance() else Nothing)
    ensures Mirrored(s.(reserves := s.reserves[k := r]))
  {
    TotalOfUpdate(s.reserves, k, r);
    PlusMinus(TotalOf(s.reserves), r.Balance());
  }

  lemma PlusMinus(t: Entry, e: Entry)
    ensures t.Plus(e).Minus(e) == t
    ensures e == Nothing ==> t.Plus(e).Minus(Nothing) == t
  {
  }

  lemma AdminKeepsMirrored(s: State, op: Op)
    requires Mirrored(s) && Step(s, op).Ok?
    requires op.DoSetIndices? || op.DoAddReserve? || op.DoSetMarket?
    ensures Mirrored(Step(s, op).value)
  {
    match op
    case DoSetIndices(k, si, bi, now) =>
      NeutralWriteKeepsMirrored(s, k, SetReserveIndices(s.reserves[k], si, bi, now).value);
    case DoAddReserve(k, now) => NeutralWriteKeepsMirrored(s, k, NewReserve(k, now));
    case DoSetMarket(_) =>
  }

  lemma StepKeepsMirrored(s: State, op: Op)
    requires Mirrored(s)
    ensures Mirrored(Next(s, op))
  {
    if Step(s, op).Ok? {
      match op
      case DoDeposit(q) => DepositKeepsMirrored(s, q);
      case DoWithdraw(q) => WithdrawKeepsMirrored(s, q);
      case DoBorrow(q) => BorrowKeepsMirrored(s, q);
      case DoRepay(q) => RepayKeepsMirrored(s, q);
      case DoLiquidate(q) => LiquidationKeepsMirrored(s, q);
      case DoPrimitive(k, p, now) => PrimitiveKeepsMirrored(s, k, p, now);
      case _ => AdminKeepsMirrored(s, op);
    }
  }

  /** Over every run, on any number of reserves, each global total equals the sum over the reserves. */
  lemma {:induction false} RunKeepsMirrored(s: State, ops: seq<Op>)
    requires Mirrored(s)
    ensures Mirrored(Run(s, ops))
    decreases |ops|
  {
    if ops != [] {
      StepKeepsMirrored(s, ops[0]);
      RunKeepsMirrored(Next(s, ops[0]), ops[1..]);
    }
  }

  // ----- runs of flows keep every accounting equation -----

  predicate IsFlow(op: Op) {
    !op.DoPrimitive?
  }

  lemma AdministrationKeepsSound(s: State, op: Op)
    requires Sound(s) && (op.DoSetIndices? || op.DoAddReserve? || op.DoSetMarket?)
    ensures Sound(Next(s, op))
  {
    StepKeepsMirrored(s, op);
  }

  lemma LiquidationStepKeepsSound(s: State, q: LiquidationRequest)
    requires Sound(s) && Liquidate(s, q).Ok?
    ensures Sound(Liquidate(s, q).value)
  {
    hide PostLiquidation, PrepareLiquidation, LiquidatedSnapshots, LiquidationFinalChecks;
    var p := PrepareLiquidation(s, q).value;
    LiquidationNeverFailsItsFinalChecks(s, q, p, PostLiquidation(q, p, s.ledger.value).value);
  }

  lemma StepKeepsSound(s: State, op: Op)
    requires Sound(s) && IsFlow(op)
    ensures Sound(Next(s, op))
  {
    hide SoundReserve, Mirrored, Liquidate;
    if Step(s, op).Ok? {
      match op
      case DoDeposit(q) => DepositNeverFailsItsFinalChecks(s, q);
      case DoWithdraw(q) => WithdrawNeverFailsItsFinalChecks(s, q);
      case DoBorrow(q) => BorrowNeverFailsItsFinalChecks(s, q);
      case DoRepay(q) => RepayNeverFailsItsFinalChecks(s, q);
      case DoLiquidate(q) => LiquidationStepKeepsSound(s, q);
      case _ => AdministrationKeepsSound(s, op);
    }
  }

  /** From an empty protocol, any run of flows keeps every reserve equation, and with them the global one. */
  lemma {:induction false} FlowRunKeepsEquations(s: State, ops: seq<Op>)
    requires Sound(s) && forall op <- ops :: IsFlow(op)
    ensures Sound(Run(s, ops))
    ensures var l := Run(s, ops).ledger.value; l.totalAssets == l.totalLiabilities + l.protocolEquity
    decreases |ops|
  {
    if ops == [] {
      ReserveEquationsImplyGlobal(s);
    } else {
      StepKeepsSound(s, ops[0]);
      FlowRunKeepsEquations(Next(s, ops[0]), ops[1..]);
    }
  }

  lemma GenesisIsSound(now: u32, market: Market)
    ensures Sound(Genesis(now, market)) && SharesMatch(Genesis(now, market))
  {
    assert TotalOf(map[]) == Nothing;
  }

  // ----- user shares against reserve totals -----

  ghost function DebtShares(m: map<Position, UserSnapshot>, k: u32): int {
    SumOf(DebtColumn(m, k))
  }

  ghost function DebtColumn(m: map<Position, UserSnapshot>, k: u32): map<Position, int> {
    map p | p in m && p.1 == k :: m[p].scaledDebt
  }

  ghost function SupplyShares(m: map<Position, UserSnapshot>, k: u32): int {
    SumOf(SupplyColumn(m, k))
  }

  ghost function SupplyColumn(m: map<Position, UserSnapshot>, k: u32): map<Position, int> {
    map p | p in m && p.1 == k :: m[p].scaledSupply
  }

  lemma SharesUpdate(m: map<Position, UserSnapshot>, p: Position, u: UserSnapshot, k: u32)
    ensures SupplyShares(m[p := u], k)
            == SupplyShares(m, k) + if p.1 == k then u.scaledSupply - SharesAt(m, p).0 else 0
    ensures DebtShares(m[p := u], k)
            == DebtShares(m, k) + if p.1 == k then u.scaledDebt - SharesAt(m, p).1 else 0
  {
    if p.1 == k {
      SumUpdate(DebtColumn(m, k), p, u.scaledDebt);
      SumUpdate(SupplyColumn(m, k), p, u.scaledSupply);
      assert DebtColumn(m[p := u], k) == DebtColumn(m, k)[p := u.scaledDebt];
      assert SupplyColumn(m[p := u], k) == SupplyColumn(m, k)[p := u.scaledSupply];
    } else {
      assert DebtColumn(m[p := u], k) == DebtColumn(m, k);
      assert SupplyColumn(m[p := u], k) == SupplyColumn(m, k);
    }
  }

  /** Debt shares held by users minus debt shares issued, and supply shares issued minus those held. */
  ghost function DebtGap(s: State, k: u32): int
    requires k in s.reserves
  {
    DebtShares(s.snapshots, k) - s.reserves[k].totalScaledDebt
  }

  ghost function SupplyGap(s: State, k: u32): int
    requires k in s.reserves
  {
    s.reserves[k].totalScaledSupply - SupplyShares(s.snapshots, k)
  }

  ghost predicate SharesMatch(s: State) {
    && s.WellKeyed()
    && (forall p <- s.snapshots :: p.1 in s.reserves)
    && (forall k <- s.reserves :: DebtGap(s, k) == 0)
  }

  /** The shares a step mints for a depositor without recording them on any user. */
  ghost function Unrecorded(s: State, op: Op, k: u32): int {
    if op.DoDeposit? && Deposit(s, op.q).Ok? && op.q.reserveId == k && k in s.reserves && s.reserves[k].supplyIndex > 0
    then op.q.amount * RAY / s.reserves[k].supplyIndex
    else 0
  }

  /** Both columns of one reserve after a record and a snapshot are replaced. */
  lemma GapsAfterWrite(s: State, t: State, r: ReserveState, user: string, u: UserSnapshot, e: Entry, k: u32)
    requires u.reserveId in s.reserves && k in s.reserves
    requires t.reserves == s.reserves[u.reserveId := r] && t.snapshots == s.snapshots[(user, u.reserveId) := u]
    requires r.totalScaledDebt == s.reserves[u.reserveId].totalScaledDebt + e.scaledDebt
    requires r.totalScaledSupply == s.reserves[u.reserveId].totalScaledSupply + e.scaledSupply
    requires Matches(s, user, u.reserveId, u, e)
    ensures DebtGap(t, k) == DebtGap(s, k) && SupplyGap(t, k) == SupplyGap(s, k)
  {
    hide SharesAt, DebtShares, SupplyShares;
    SharesUpdate(s.snapshots, (u.user, u.reserveId), u, k);
  }

  /** One write of books and of one user's snapshot moves both sides by the same shares. */
  lemma MatchedWrite(s: State, after: Books, e: Entry, now: u32, user: string, u: UserSnapshot)
    requires s.ledger.Some? && SharesMatch(s) && u.reserveId in s.reserves
    requires Posts(Before(s, u.reserveId), after, e, now) && Matches(s, user, u.reserveId, u, e)
    ensures SharesKept(s, s.WriteBooks(after).WriteSnapshot(u))
  {
    hide DebtGap, SupplyGap;
    var t := s.WriteBooks(after).WriteSnapshot(u);
    forall k <- s.reserves
      ensures DebtGap(t, k) == DebtGap(s, k) && SupplyGap(t, k) == SupplyGap(s, k)
    {
      GapsAfterWrite(s, t, after.reserve, user, u, e, k);
    }
  }

  ghost predicate SharesKept(s: State, t: State) {
    && SharesMatch(t)
    && t.reserves.Keys == s.reserves.Keys
    && forall k <- s.reserves :: SupplyGap(t, k) == SupplyGap(s, k)
  }

  lemma WithdrawKeepsShares(s: State, q: Request)
    requires SharesMatch(s) && Withdraw(s, q).Ok?
    ensures SharesKept(s, Withdraw(s, q).value)
  {
    var after, e, u := WithdrawShape(s, q);
    MatchedWrite(s, after, e, q.now, q.actor, u);
  }

  lemma BorrowKeepsShares(s: State, q: Request)
    requires SharesMatch(s) && Borrow(s, q).Ok?
    ensures SharesKept(s, Borrow(s, q).value)
  {
    var after, e, u := BorrowShape(s, q);
    MatchedWrite(s, after, e, q.now, q.actor, u);
  }

  lemma RepayKeepsShares(s: State, q: Request)
    requires SharesMatch(s) && Repay(s, q).Ok?
    ensures SharesKept(s, Repay(s, q).value)
  {
    var after, e, u := RepayShape(s, q);
    MatchedWrite(s, after, e, q.now, q.actor, u);
  }

  lemma LiquidationKeepsShares(s: State, q: LiquidationRequest)
    requires SharesMatch(s) && Liquidate(s, q).Ok?
    ensures SharesKept(s, Liquidate(s, q).value)
  {
    var paid, e, u, mid, after, f, v := LiquidationShape(s, q);
    MatchedWrite(s, paid, e, q.now, q.borrower, u);
    MatchedWrite(mid, after, f, q.now, q.borrower, v);
  }

  lemma DepositMovesShares(s: State, q: Request)
    requires SharesMatch(s) && Deposit(s, q).Ok?
    ensures SharesMove(s, Deposit(s, q).value, DoDeposit(q))
  {
    var after, e := DepositShape(s, q);
  }

  lemma NoSharesWithoutSnapshots(m: map<Position, UserSnapshot>, k: u32)
    requires forall p <- m :: p.1 != k
    ensures DebtShares(m, k) == 0 && SupplyShares(m, k) == 0
  {
    assert DebtColumn(m, k) == map[] && SupplyColumn(m, k) == map[];
  }

  ghost predicate SharesMove(s: State, t: State, op: Op) {
    && SharesMatch(t)
    && s.reserves.Keys <= t.reserves.Keys
    && forall k <- s.reserves :: SupplyGap(t, k) == SupplyGap(s, k) + Unrecorded(s, op, k)
  }

  lemma AddReserveMovesShares(s: State, k: u32, now: u32)
    requires SharesMatch(s) && k !in s.reserves
    ensures SharesMove(s, s.(reserves := s.reserves[k := NewReserve(k, now)]), DoAddReserve(k, now))
  {
    NoSharesWithoutSnapshots(s.snapshots, k);
  }

  lemma SetIndicesMovesShares(s: State, k: u32, supplyIndex: i128, borrowIndex: i128, now: u32)
    requires SharesMatch(s) && k in s.reserves && SetReserveIndices(s.reserves[k], supplyIndex, borrowIndex, now).Ok?
    ensures var r := SetReserveIndices(s.reserves[k], supplyIndex, borrowIndex, now).value;
            SharesMove(s, s.(reserves := s.reserves[k := r]), DoSetIndices(k, supplyIndex, borrowIndex, now))
  {
  }

  lemma StepMovesShares(s: State, op: Op)
    requires SharesMatch(s) && IsFlow(op)
    ensures SharesMove(s, Next(s, op), op)
  {
    hide Deposit, Withdraw, Borrow, Repay, Liquidate;
    if Step(s, op).Ok? {
      match op
      case DoDeposit(q) => DepositMovesShares(s, q);
      case DoWithdraw(q) => WithdrawKeepsShares(s, q);
      case DoBorrow(q) => BorrowKeepsShares(s, q);
      case DoRepay(q) => RepayKeepsShares(s, q);
      case DoLiquidate(q) => LiquidationKeepsShares(s, q);
      case DoSetIndices(k, si, bi, now) => SetIndicesMovesShares(s, k, si, bi, now);
      case DoAddReserve(k, now) => AddReserveMovesShares(s, k, now);
      case DoSetMarket(_) =>
    }
  }

  ghost function RunUnrecorded(s: State, ops: seq<Op>, k: u32): int
    decreases |ops|
  {
    if ops == [] then 0 else Unrecorded(s, ops[0], k) + RunUnrecorded(Next(s, ops[0]), ops[1..], k)
  }

  /** Over any run of flows: users' debt shares add up to the reserve's, and the reserve's supply shares exceed the
      users' by exactly what deposits minted. */
  lemma {:induction false} RunMatchesShares(s: State, ops: seq<Op>)
    requires SharesMatch(s) && forall op <- ops :: IsFlow(op)
    ensures SharesMatch(Run(s, ops))
    ensures s.reserves.Keys <= Run(s, ops).reserves.Keys
    ensures forall k <- s.reserves :: SupplyGap(Run(s, ops), k) == SupplyGap(s, k) + RunUnrecorded(s, ops, k)
    decreases |ops|
  {
    if ops != [] {
      StepMovesShares(s, ops[0]);
      RunMatchesShares(Next(s, ops[0]), ops[1..]);
    }
  }
}
