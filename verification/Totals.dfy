/** Global totals: the ledger is the sum of its reserves, and every flow posts a balanced entry. */
module Totals {
  import opened Prelude
  import opened Rounding
  import opened AccountingModel
  import opened Store
  import opened Primitives
  import opened Operations
  import opened Flows

  // ----- the sum of all reserves -----

  ghost function PickReserve(m: map<u32, ReserveState>): (k: u32)
    requires m != map[]
    ensures k in m
  {
    var k :| k in m; k
  }

  ghost function TotalOf(m: map<u32, ReserveState>): Entry {
    if m == map[] then Nothing
    else
      var k := PickReserve(m);
      m[k].Balance().Plus(TotalOf(m - {k}))
  }

  lemma {:induction false} TotalSplit(m: map<u32, ReserveState>, k: u32)
    requires k in m
    ensures TotalOf(m) == m[k].Balance().Plus(TotalOf(m - {k}))
    decreases |m|
  {
    var j := PickReserve(m);
    if j != k {
      TotalSplit(m - {j}, k);
      TotalSplit(m - {k}, j);
      assert m - {j} - {k} == m - {k} - {j};
    }
  }

  lemma TotalOfUpdate(m: map<u32, ReserveState>, k: u32, r: ReserveState)
    ensures TotalOf(m[k := r]) == TotalOf(m).Plus(r.Balance()).Minus(if k in m then m[k].Balance() else Nothing)
  {
    TotalSplit(m[k := r], k);
    assert m[k := r] - {k} == m - {k};
    if k in m {
      TotalSplit(m, k);
    } else {
      assert m - {k} == m;
    }
  }

  // ----- the two invariants -----

  /** The global ledger is, field by field, the sum over all reserves. */
  ghost predicate Mirrored(s: State) {
    s.ledger.Some? && s.WellKeyed() && Mirrors(s.ledger.value, TotalOf(s.reserves))
  }

  ghost predicate SoundReserve(r: ReserveState) {
    r.NonNegative() && r.Equation()
  }

  /** ... and moreover every reserve's own accounting equation holds. */
  ghost predicate Sound(s: State) {
    Mirrored(s) && forall k <- s.reserves :: SoundReserve(s.reserves[k])
  }

  ghost predicate BalancedEntry(e: Entry) {
    e.liquidity + e.actualDebt == e.actualSupply + e.treasury + e.insurance
  }

  lemma PostsCompose(a: Books, b: Books, c: Books, e: Entry, f: Entry, t: u32, now: u32)
    requires Posts(a, b, e, t) && Posts(b, c, f, now)
    ensures Posts(a, c, e.Plus(f), now)
  {
  }

  /** Writing back books that moved by one entry keeps the ledger equal to the sum of the reserves. */
  lemma PostingKeepsTotals(s: State, before: Books, after: Books, e: Entry, now: u32)
    requires Mirrored(s) && s.ledger == Some(before.ledger)
    requires before.reserve.reserveId in s.reserves && s.reserves[before.reserve.reserveId] == before.reserve
    requires Posts(before, after, e, now)
    ensures Mirrored(s.WriteBooks(after))
  {
    TotalOfUpdate(s.reserves, before.reserve.reserveId, after.reserve);
  }

  /** All reserve equations together imply the global one. */
  lemma ReserveEquationsImplyGlobal(s: State)
    requires Sound(s)
    ensures s.ledger.value.totalAssets == s.ledger.value.totalLiabilities + s.ledger.value.protocolEquity
  {
    EquationSums(s.reserves);
  }

  lemma {:induction false} EquationSums(m: map<u32, ReserveState>)
    requires forall k <- m :: m[k].Equation()
    ensures BalancedEntry(TotalOf(m))
    decreases |m|
  {
    if m != map[] {
      EquationSums(m - {PickReserve(m)});
    }
  }

  lemma {:induction false} TotalNonNegative(m: map<u32, ReserveState>)
    requires forall k <- m :: m[k].NonNegative()
    ensures TotalOf(m).liquidity >= 0 && TotalOf(m).actualDebt >= 0
    decreases |m|
  {
    if m != map[] {
      TotalNonNegative(m - {PickReserve(m)});
    }
  }

  /** On a sound state a reserve's cash and loans fit in the ledger's assets, so their sum never overflows. */
  lemma ReserveWithinAssets(s: State, k: u32)
    requires Sound(s) && k in s.reserves
    ensures s.reserves[k].totalLiquidity + s.reserves[k].totalActualDebt <= s.ledger.value.totalAssets
  {
    TotalSplit(s.reserves, k);
    TotalNonNegative(s.reserves - {k});
  }

  /** The closing checks accept any record pair of a sound state. */
  lemma SoundPassesFinalChecks(s: State, k: u32)
    requires Sound(s) && k in s.reserves
    requires ValidatePostState(Books(s.ledger.value, s.reserves[k])).Ok?
    ensures FinalChecks(Books(s.ledger.value, s.reserves[k])).Ok?
  {
    ReserveEquationsImplyGlobal(s);
    ReserveWithinAssets(s, k);
  }

  /** Posting a balanced entry that leaves the reserve non-negative preserves soundness. */
  lemma BalancedPostingKeepsSound(s: State, before: Books, after: Books, e: Entry, now: u32)
    requires Sound(s) && s.ledger == Some(before.ledger)
    requires before.reserve.reserveId in s.reserves && s.reserves[before.reserve.reserveId] == before.reserve
    requires Posts(before, after, e, now) && BalancedEntry(e) && after.reserve.NonNegative()
    ensures Sound(s.WriteBooks(after))
  {
    PostingKeepsTotals(s, before, after, e, now);
  }

  // ----- what each flow posts -----

  lemma TakeDepositPosts(b: Books, amount: i128, cap: i128, now: u32)
    requires TakeDeposit(b, amount, cap, now).Ok?
    ensures b.reserve.supplyIndex > 0
    ensures var a := TakeDeposit(b, amount, cap, now).value;
            && a.scaledDelta == amount * RAY / b.reserve.supplyIndex
            && Posts(b, a.books, Liquidity(amount).Plus(Supply(a.scaledDelta, amount)), now)
            && ValidatePostState(a.books).Ok?
  {
    var cash := ApplyLiquidityIncrease(b, amount, now).value.books;
    var a := TakeDeposit(b, amount, cap, now).value;
    PostsCompose(b, cash, a.books, Liquidity(amount), Supply(a.scaledDelta, amount), now, now);
  }

  lemma PayOutPosts(b: Books, amount: i128, now: u32)
    requires PayOut(b, amount, now).Ok?
    ensures b.reserve.supplyIndex > 0
    ensures var a := PayOut(b, amount, now).value;
            && a.scaledDelta == amount * RAY / b.reserve.supplyIndex
            && Posts(b, a.books, Supply(a.scaledDelta, amount).Negated().Plus(Liquidity(amount).Negated()), now)
            && ValidatePostState(a.books).Ok?
  {
    var supply := ApplySupplyDecrease(b, amount, now).value;
    var a := PayOut(b, amount, now).value;
    PostsCompose(b, supply.books, a.books, Supply(a.scaledDelta, amount).Negated(), Liquidity(amount).Negated(), now, now);
  }

  lemma LendOutPosts(b: Books, amount: i128, cap: i128, now: u32)
    requires LendOut(b, amount, cap, now).Ok?
    ensures b.reserve.borrowIndex > 0
    ensures var a := LendOut(b, amount, cap, now).value;
            && a.scaledDelta == CeilDiv(amount * RAY, b.reserve.borrowIndex)
            && Posts(b, a.books, Debt(a.scaledDelta, amount).Plus(Liquidity(amount).Negated()), now)
            && ValidatePostState(a.books).Ok?
  {
    var debt := ApplyDebtIncrease(b, amount, Some(cap), now).value;
    var a := LendOut(b, amount, cap, now).value;
    PostsCompose(b, debt.books, a.books, Debt(a.scaledDelta, amount), Liquidity(amount).Negated(), now, now);
  }

  lemma PayInPosts(b: Books, amount: i128, now: u32)
    requires PayIn(b, amount, now).Ok?
    ensures b.reserve.borrowIndex > 0
    ensures var a := PayIn(b, amount, now).value;
            && a.scaledDelta == CeilDiv(amount * RAY, b.reserve.borrowIndex)
            && Posts(b, a.books, Debt(a.scaledDelta, amount).Negated().Plus(Liquidity(amount)), now)
            && ValidatePostState(a.books).Ok?
  {
    var debt := ApplyDebtDecrease(b, amount, now).value;
    var a := PayIn(b, amount, now).value;
    PostsCompose(b, debt.books, a.books, Debt(a.scaledDelta, amount).Negated(), Liquidity(amount), now, now);
  }

  lemma TakeRepaymentPosts(b: Books, v: RepayPreview, now: u32)
    requires TakeRepayment(b, v, now).Ok?
    ensures var a := TakeRepayment(b, v, now).value;
            && a.scaledDelta == v.scaledToBurn
            && Posts(b, a.books, Debt(v.scaledToBurn, v.actualRepay).Negated().Plus(Liquidity(v.actualRepay)), now)
            && ValidatePostState(a.books).Ok?
  {
    var debt := DecreaseScaledDebt(b, v.scaledToBurn, v.actualRepay, now).value;
    var a := TakeRepayment(b, v, now).value;
    PostsCompose(b, debt, a.books, Debt(v.scaledToBurn, v.actualRepay).Negated(), Liquidity(v.actualRepay), now, now);
  }

  // ----- flows from a sound state: the closing checks cannot fail, and soundness is kept -----

  ghost function Before(s: State, reserveId: u32): Books
    requires s.ledger.Some? && reserveId in s.reserves
  {
    Books(s.ledger.value, s.reserves[reserveId])
  }

  /** One balanced posting to one reserve, followed by the closing checks and the write-back. */
  lemma BalancedFlow(s: State, k: u32, after: Books, e: Entry, now: u32)
    requires Sound(s) && k in s.reserves
    requires Posts(Before(s, k), after, e, now) && BalancedEntry(e) && ValidatePostState(after).Ok?
    ensures FinalChecks(after).Ok?
    ensures Sound(s.WriteBooks(after)) && s.WriteBooks(after).reserves[k] == after.reserve
  {
    BalancedPostingKeepsSound(s, Before(s, k), after, e, now);
    SoundPassesFinalChecks(s.WriteBooks(after), k);
  }

  lemma DepositNeverFailsItsFinalChecks(s: State, q: Request)
    requires Sound(s) && PrepareDeposit(s, q).Ok?
    requires TakeDeposit(Before(s, q.reserveId), q.amount, PrepareDeposit(s, q).value.supplyCap, q.now).Ok?
    ensures Deposit(s, q).Ok? && Sound(Deposit(s, q).value)
  {
    var b, cap := Before(s, q.reserveId), PrepareDeposit(s, q).value.supplyCap;
    var a := TakeDeposit(b, q.amount, cap, q.now).value;
    TakeDepositPosts(b, q.amount, cap, q.now);
    BalancedFlow(s, q.reserveId, a.books, Liquidity(q.amount).Plus(Supply(a.scaledDelta, q.amount)), q.now);
  }

  lemma WithdrawNeverFailsItsFinalChecks(s: State, q: Request)
    requires Sound(s) && PrepareWithdraw(s, q).Ok? && PayOut(Before(s, q.reserveId), q.amount, q.now).Ok?
    ensures Withdraw(s, q).Ok? && Sound(Withdraw(s, q).value)
  {
    var b := Before(s, q.reserveId);
    var a := PayOut(b, q.amount, q.now).value;
    PayOutPosts(b, q.amount, q.now);
    BalancedFlow(s, q.reserveId, a.books,
                 Supply(a.scaledDelta, q.amount).Negated().Plus(Liquidity(q.amount).Negated()), q.now);
  }

  /** The only step left that can refuse is the user's own share balance overflowing. */
  lemma BorrowNeverFailsItsFinalChecks(s: State, q: Request)
    requires Sound(s) && PrepareBorrow(s, q).Ok?
    requires LendOut(Before(s, q.reserveId), q.amount, PrepareBorrow(s, q).value.borrowCap, q.now).Ok?
    ensures var a := LendOut(Before(s, q.reserveId), q.amount, PrepareBorrow(s, q).value.borrowCap, q.now).value;
            Borrow(s, q).Ok? <==> CheckedAdd(BorrowerSnapshot(s, q).scaledDebt, a.scaledDelta).Ok?
    ensures Borrow(s, q).Ok? ==> Sound(Borrow(s, q).value)
  {
    var b, cap := Before(s, q.reserveId), PrepareBorrow(s, q).value.borrowCap;
    var a := LendOut(b, q.amount, cap, q.now).value;
    LendOutPosts(b, q.amount, cap, q.now);
    BalancedFlow(s, q.reserveId, a.books, Debt(a.scaledDelta, q.amount).Plus(Liquidity(q.amount).Negated()), q.now);
  }

  lemma RepayNeverFailsItsFinalChecks(s: State, q: Request)
    requires Sound(s) && PrepareRepay(s, q).Ok?
    requires TakeRepayment(Before(s, q.reserveId), PrepareRepay(s, q).value.preview, q.now).Ok?
    ensures Repay(s, q).Ok? && Sound(Repay(s, q).value)
  {
    hide Posts, ValidatePostState, PrepareRepay;
    var b, v := Before(s, q.reserveId), PrepareRepay(s, q).value.preview;
    var a := TakeRepayment(b, v, q.now).value;
    TakeRepaymentPosts(b, v, q.now);
    BalancedFlow(s, q.reserveId, a.books, Debt(v.scaledToBurn, v.actualRepay).Negated().Plus(Liquidity(v.actualRepay)),
                 q.now);
  }

  /** The two halves of a liquidation: cash in against debt, then collateral out of the state in between. */
  lemma LiquidationHalves(s: State, q: LiquidationRequest, p: PreparedLiquidation, l: Liquidated)
    returns (paid: Applied, mid: State)
    requires s.ledger.Some? && s.WellKeyed()
    requires q.debtReserveId in s.reserves && q.collateralReserveId in s.reserves
    requires p.debt.accounting == s.reserves[q.debtReserveId]
    requires p.collateral.accounting == s.reserves[q.collateralReserveId]
    requires PostLiquidation(q, p, s.ledger.value) == Ok(l)
    ensures PayIn(Before(s, q.debtReserveId), p.debtToCover, q.now) == Ok(paid)
    ensures mid == s.WriteBooks(paid.books) && q.collateralReserveId in mid.reserves && mid.WellKeyed()
    ensures PayOut(Before(mid, q.collateralReserveId), p.collateralToSeize, q.now)
            == Ok(Applied(Books(l.ledger, l.collateralReserve), l.collateralBurned))
    ensures l.debtBurned == paid.scaledDelta
    ensures l.collateralReserve.reserveId == q.collateralReserveId && l.debtReserve.reserveId == q.debtReserveId
    ensures q.debtReserveId != q.collateralReserveId ==> l.debtReserve == paid.books.reserve
    ensures q.debtReserveId == q.collateralReserveId ==> l.debtReserve == l.collateralReserve
    ensures mid.WriteBooks(Books(l.ledger, l.collateralReserve))
            == s.WriteBooks(Books(l.ledger, l.debtReserve)).WriteBooks(Books(l.ledger, l.collateralReserve))
  {
    hide PayIn, PayOut, ValidatePostState;
    paid := PayIn(Before(s, q.debtReserveId), p.debtToCover, q.now).value;
    PayInPosts(Before(s, q.debtReserveId), p.debtToCover, q.now);
    mid := s.WriteBooks(paid.books);
    var d, c := q.debtReserveId, q.collateralReserveId;
    assert Before(mid, c) == if d == c then paid.books else Books(paid.books.ledger, p.collateral.accounting);
    PayOutPosts(Before(mid, c), p.collateralToSeize, q.now);
    assert l.collateralReserve.reserveId == c;
    if d == c {
      assert s.reserves[d := paid.books.reserve][c := l.collateralReserve]
          == s.reserves[d := l.debtReserve][c := l.collateralReserve];
    }
  }

  lemma PayInKeepsSound(s: State, k: u32, amount: i128, now: u32)
    requires Sound(s) && k in s.reserves && PayIn(Before(s, k), amount, now).Ok?
    ensures var a := PayIn(Before(s, k), amount, now).value;
            && ValidatePostState(a.books).Ok? && Sound(s.WriteBooks(a.books))
            && s.WriteBooks(a.books).reserves[k] == a.books.reserve
  {
    hide PayIn, ValidatePostState;
    var a := PayIn(Before(s, k), amount, now).value;
    PayInPosts(Before(s, k), amount, now);
    BalancedFlow(s, k, a.books, Debt(a.scaledDelta, amount).Negated().Plus(Liquidity(amount)), now);
  }

  lemma PayOutKeepsSound(s: State, k: u32, amount: i128, now: u32)
    requires Sound(s) && k in s.reserves && PayOut(Before(s, k), amount, now).Ok?
    ensures var a := PayOut(Before(s, k), amount, now).value;
            && ValidatePostState(a.books).Ok? && FinalChecks(a.books).Ok? && Sound(s.WriteBooks(a.books))
            && s.WriteBooks(a.books).reserves[k] == a.books.reserve
  {
    hide PayOut, ValidatePostState, FinalChecks;
    var a := PayOut(Before(s, k), amount, now).value;
    PayOutPosts(Before(s, k), amount, now);
    BalancedFlow(s, k, a.books, Supply(a.scaledDelta, amount).Negated().Plus(Liquidity(amount).Negated()), now);
  }

  lemma LiquidationPostingsAreSound(s: State, q: LiquidationRequest, p: PreparedLiquidation, l: Liquidated)
    requires Sound(s)
    requires q.debtReserveId in s.reserves && q.collateralReserveId in s.reserves
    requires p.debt.accounting == s.reserves[q.debtReserveId]
    requires p.collateral.accounting == s.reserves[q.collateralReserveId]
    requires PostLiquidation(q, p, s.ledger.value) == Ok(l)
    ensures LiquidationFinalChecks(l).Ok?
    ensures Sound(s.WriteBooks(Books(l.ledger, l.debtReserve)).WriteBooks(Books(l.ledger, l.collateralReserve)))
  {
    hide PostLiquidation, PayIn, PayOut, SoundReserve, TotalOf, Mirrors;
    var paid, mid := LiquidationHalves(s, q, p, l);
    PayInKeepsSound(s, q.debtReserveId, p.debtToCover, q.now);
    PayOutKeepsSound(mid, q.collateralReserveId, p.collateralToSeize, q.now);
    var end := mid.WriteBooks(Books(l.ledger, l.collateralReserve));
    SoundPassesFinalChecks(end, q.debtReserveId);
  }

  /** The only step left that can refuse is a share balance leaving 128 bits. */
  lemma LiquidationNeverFailsItsFinalChecks(s: State, q: LiquidationRequest, p: PreparedLiquidation, l: Liquidated)
    requires Sound(s) && PrepareLiquidation(s, q) == Ok(p) && PostLiquidation(q, p, s.ledger.value) == Ok(l)
    ensures Liquidate(s, q).Ok? <==> LiquidatedSnapshots(q, p, l).Ok?
    ensures Liquidate(s, q).Ok? ==> Sound(Liquidate(s, q).value)
  {
    hide PostLiquidation, LiquidationFinalChecks;
    LiquidationPostingsAreSound(s, q, p, l);
  }
}
