/** The flows as they run: working copies are updated in place and storage is written only at the very end. */
module Engine {
  import opened Prelude
  import opened AccountingModel
  import opened Store
  import opened Primitives
  import opened Operations
  import opened Flows

  method PayOutInPlace(l: AccountingLedger, a: ReserveAccounting, amount: i128, now: u32) returns (r: Result<i128>)
    modifies l, a
    ensures Applies(PayOut(old(BooksOf(l, a)), amount, now), r, BooksOf(l, a))
  {
    var burned :- ApplySupplyDecreaseInPlace(l, a, amount, now);
    var _ :- ApplyLiquidityDecreaseInPlace(l, a, amount, now);
    r := Ok(burned);
  }

  method PayInInPlace(l: AccountingLedger, a: ReserveAccounting, amount: i128, now: u32) returns (r: Result<i128>)
    modifies l, a
    ensures Applies(PayIn(old(BooksOf(l, a)), amount, now), r, BooksOf(l, a))
  {
    var burned :- ApplyDebtDecreaseInPlace(l, a, amount, now);
    var _ :- ApplyLiquidityIncreaseInPlace(l, a, amount, now);
    r := Ok(burned);
  }

  /** Committing the same records twice, as the two-reserve path would on a single reserve, changes nothing more. */
  lemma SecondWriteWins(s: State, b: Books, u: UserSnapshot, v: UserSnapshot)
    requires u.user == v.user && u.reserveId == v.reserveId
    ensures s.WriteBooks(b).WriteBooks(b).WriteSnapshot(u).WriteSnapshot(v) == s.WriteBooks(b).WriteSnapshot(v)
  {
    assert s.reserves[b.reserve.reserveId := b.reserve][b.reserve.reserveId := b.reserve]
        == s.reserves[b.reserve.reserveId := b.reserve];
    assert s.snapshots[(u.user, u.reserveId) := u][(v.user, v.reserveId) := v]
        == s.snapshots[(v.user, v.reserveId) := v];
  }

  class Env {
    var ledger: Option<LedgerState>
    var reserves: map<u32, ReserveState>
    var snapshots: map<Position, UserSnapshot>
    var market: Market

    constructor (s: State)
      ensures Stored() == s
    {
      ledger, reserves, snapshots, market := s.ledger, s.reserves, s.snapshots, s.market;
    }

    function Stored(): State
      reads this
    {
      State(ledger, reserves, snapshots, market)
    }

    method WriteBooks(l: AccountingLedger, a: ReserveAccounting)
      modifies this
      ensures Stored() == old(Stored()).WriteBooks(old(BooksOf(l, a)))
    {
      ledger := Some(l.State());
      reserves := reserves[a.reserveId := a.State()];
    }

    method WriteSnapshot(u: UserSnapshot)
      modifies this
      ensures Stored() == old(Stored()).WriteSnapshot(u)
    {
      snapshots := snapshots[(u.user, u.reserveId) := u];
    }

    method ExecuteDeposit(q: Request) returns (r: Result<()>)
      modifies this
      ensures Commits(Deposit(old(Stored()), q), r, old(Stored()), Stored())
    {
      var p :- PrepareDeposit(Stored(), q);
      var ledgerState :- ledger.OkOr(NotInitialized);
      r := FinishDeposit(q, p, ledgerState);
    }

    method FinishDeposit(q: Request, p: PreparedDeposit, ledgerState: LedgerState) returns (r: Result<()>)
      modifies this
      ensures Commits(CommitDeposit(old(Stored()), q, p, ledgerState), r, old(Stored()), Stored())
    {
      var l := new AccountingLedger(ledgerState);
      var a := new ReserveAccounting(p.accounting);
      var _ :- ApplyLiquidityIncreaseInPlace(l, a, q.amount, q.now);
      var _ :- ApplySupplyIncreaseInPlace(l, a, q.amount, Some(p.supplyCap), q.now);
      var _ :- ValidateAccountingLedger(l.State());
      var _ :- ValidateReserveAccounting(a.State());
      WriteBooks(l, a);
      r := Ok(());
    }

    method ExecuteWithdraw(q: Request) returns (r: Result<()>)
      modifies this
      ensures Commits(Withdraw(old(Stored()), q), r, old(Stored()), Stored())
    {
      var p :- PrepareWithdraw(Stored(), q);
      var ledgerState :- ledger.OkOr(NotInitialized);
      r := FinishWithdraw(q, p, ledgerState);
    }

    method FinishWithdraw(q: Request, p: PreparedWithdraw, ledgerState: LedgerState) returns (r: Result<()>)
      requires p.accounting.supplyIndex > 0 && q.amount >= 0
      requires p.scaledToBurn == q.amount * RAY / p.accounting.supplyIndex
      requires p.scaledToBurn <= p.snapshot.scaledSupply
      modifies this
      ensures Commits(CommitWithdraw(old(Stored()), q, p, ledgerState), r, old(Stored()), Stored())
    {
      hide PayOut, ValidateAccountingLedger, ValidateReserveAccounting, Posts;
      var l := new AccountingLedger(ledgerState);
      var a := new ReserveAccounting(p.accounting);
      if PayOut(Books(ledgerState, p.accounting), q.amount, q.now).Ok? {
        PayOutBurns(Books(ledgerState, p.accounting), q.amount, q.now);
      }
      var burned :- PayOutInPlace(l, a, q.amount, q.now);
      var user := p.snapshot;
      user := user.(scaledSupply := user.scaledSupply - burned);
      if user.scaledSupply == 0 && user.scaledDebt == 0 {
        user := user.(collateralEnabled := false);
      }
      user := user.(lastUpdatedLedger := q.now);
      var _ :- ValidateAccountingLedger(l.State());
      var _ :- ValidateReserveAccounting(a.State());
      WriteBooks(l, a);
      WriteSnapshot(user);
      r := Ok(());
    }

    method ExecuteBorrow(q: Request) returns (r: Result<()>)
      modifies this
      ensures Commits(Borrow(old(Stored()), q), r, old(Stored()), Stored())
    {
      var p :- PrepareBorrow(Stored(), q);
      var ledgerState :- ledger.OkOr(NotInitialized);
      r := FinishBorrow(q, p, ledgerState);
    }

    method FinishBorrow(q: Request, p: PreparedBorrow, ledgerState: LedgerState) returns (r: Result<()>)
      modifies this
      ensures Commits(CommitBorrow(old(Stored()), q, p, ledgerState), r, old(Stored()), Stored())
    {
      var l := new AccountingLedger(ledgerState);
      var a := new ReserveAccounting(p.accounting);
      var minted :- ApplyDebtIncreaseInPlace(l, a, q.amount, Some(p.borrowCap), q.now);
      var _ :- ApplyLiquidityDecreaseInPlace(l, a, q.amount, q.now);
      var user := BorrowerSnapshot(Stored(), q);
      var scaledDebt :- CheckedAdd(user.scaledDebt, minted);
      user := user.(scaledDebt := scaledDebt);
      user := user.(lastUpdatedLedger := q.now);
      var _ :- ValidateAccountingLedger(l.State());
      var _ :- ValidateReserveAccounting(a.State());
      WriteBooks(l, a);
      WriteSnapshot(user);
      r := Ok(());
    }

    method ExecuteRepay(q: Request) returns (r: Result<()>)
      modifies this
      ensures Commits(Repay(old(Stored()), q), r, old(Stored()), Stored())
    {
      var p :- PrepareRepay(Stored(), q);
      var ledgerState :- ledger.OkOr(NotInitialized);
      r := FinishRepay(q, p, ledgerState);
    }

    method FinishRepay(q: Request, p: PreparedRepay, ledgerState: LedgerState) returns (r: Result<()>)
      modifies this
      ensures Commits(CommitRepay(old(Stored()), q, p, ledgerState), r, old(Stored()), Stored())
    {
      var l := new AccountingLedger(ledgerState);
      var a := new ReserveAccounting(p.accounting);
      if q.now < l.lastUpdatedLedger { return Err(InvalidAmount); }
      var _ :- ValidateAccountingLedger(l.State());
      var _ :- DecreaseScaledDebtInPlace(l, a, p.preview.scaledToBurn, p.preview.actualRepay, q.now);
      var _ :- ApplyLiquidityIncreaseInPlace(l, a, p.preview.actualRepay, q.now);
      var user := p.snapshot;
      var scaledDebt :- CheckedSub(user.scaledDebt, p.preview.scaledToBurn);
      user := user.(scaledDebt := scaledDebt);
      user := user.(lastUpdatedLedger := q.now);
      var _ :- ValidateAccountingLedger(l.State());
      var _ :- ValidateReserveAccounting(a.State());
      WriteBooks(l, a);
      WriteSnapshot(user);
      r := Ok(());
    }

    method ExecuteLiquidation(q: LiquidationRequest) returns (r: Result<()>)
      modifies this
      ensures Commits(Liquidate(old(Stored()), q), r, old(Stored()), Stored())
    {
      var p :- PrepareLiquidation(Stored(), q);
      var ledgerState :- ledger.OkOr(NotInitialized);
      if q.debtReserveId == q.collateralReserveId {
        r := LiquidateSameReserve(q, p, ledgerState);
      } else {
        r := LiquidateTwoReserves(q, p, ledgerState);
      }
    }

    method LiquidateSameReserve(q: LiquidationRequest, p: PreparedLiquidation, ledgerState: LedgerState)
      returns (r: Result<()>)
      requires q.debtReserveId == q.collateralReserveId
      modifies this
      ensures Commits(CommitLiquidation(old(Stored()), q, p, ledgerState), r, old(Stored()), Stored())
    {
      var l := new AccountingLedger(ledgerState);
      var a := new ReserveAccounting(p.debt.accounting);
      var debtBurned :- PayInInPlace(l, a, p.debtToCover, q.now);
      var supplyBurned :- PayOutInPlace(l, a, p.collateralToSeize, q.now);

      var user := p.debt.snapshot;
      var debtShares :- BurnShares(user.scaledDebt, debtBurned);
      user := user.(scaledDebt := debtShares);
      var supplyShares :- BurnShares(user.scaledSupply, supplyBurned);
      user := user.(scaledSupply := supplyShares);
      user := user.(lastUpdatedLedger := q.now);

      var _ :- ValidateAccountingLedger(l.State());
      var _ :- ValidateReserveAccounting(a.State());
      WriteBooks(l, a);
      WriteSnapshot(user);
      SecondWriteWins(old(Stored()), BooksOf(l, a),
                      p.debt.snapshot.(scaledDebt := debtShares, lastUpdatedLedger := q.now),
                      user);
      r := Ok(());
    }

    method LiquidateTwoReserves(q: LiquidationRequest, p: PreparedLiquidation, ledgerState: LedgerState)
      returns (r: Result<()>)
      requires q.debtReserveId != q.collateralReserveId
      modifies this
      ensures Commits(CommitLiquidation(old(Stored()), q, p, ledgerState), r, old(Stored()), Stored())
    {
      var l := new AccountingLedger(ledgerState);
      var d := new ReserveAccounting(p.debt.accounting);
      var c := new ReserveAccounting(p.collateral.accounting);
      var debtBurned :- PayInInPlace(l, d, p.debtToCover, q.now);
      var supplyBurned :- PayOutInPlace(l, c, p.collateralToSeize, q.now);

      var debtUser, collateralUser := p.debt.snapshot, p.collateral.snapshot;
      var debtShares :- BurnShares(debtUser.scaledDebt, debtBurned);
      debtUser := debtUser.(scaledDebt := debtShares, lastUpdatedLedger := q.now);
      var supplyShares :- BurnShares(collateralUser.scaledSupply, supplyBurned);
      collateralUser := collateralUser.(scaledSupply := supplyShares, lastUpdatedLedger := q.now);

      var _ :- ValidateAccountingLedger(l.State());
      var _ :- ValidateReserveAccounting(d.State());
      var _ :- ValidateReserveAccounting(c.State());
      WriteBooks(l, d);
      WriteBooks(l, c);
      WriteSnapshot(debtUser);
      WriteSnapshot(collateralUser);
      r := Ok(());
    }
  }

  /** A flow either commits exactly the specified state or reports the specified error and leaves storage alone. */
  predicate Commits(spec: Result<State>, r: Result<()>, before: State, after: State) {
    match spec
    case Ok(s) => r == Ok(()) && after == s
    case Err(e) => r == Err(e) && after == before
  }
}
