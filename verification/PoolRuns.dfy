/** Whole runs of the lending pool, and what a finished call guarantees. */
module PoolRuns {
  import opened Prelude
  import opened Rounding
  import opened Sums
  import opened PoolMath
  import opened ScaledToken
  import opened Pool
  import opened PoolInvariant
  import opened PoolSafety
  import opened PoolOutcomes
  import opened PoolLiquidation

  datatype Op =
    | ListReserve(config: ReserveConfig, rate: RateConfig)
    | Pause(paused: bool)
    | Pay(asset: Address, from: Address, to: Address, amount: i128)
    | SupplyOp(caller: Address, asset: Address, amount: i128)
    | WithdrawOp(caller: Address, asset: Address, amount: i128)
    | BorrowOp(caller: Address, asset: Address, amount: i128)
    | RepayOp(caller: Address, asset: Address, amount: i128)
    | ToggleOp(caller: Address, asset: Address, on: bool)
    | LiquidateOp(liquidator: Address, borrower: Address, debtAsset: Address, collateralAsset: Address,
                  repay: i128, seize: i128)

  function Call(p: Pool, env: Env, op: Op): Outcome<Pool> {
    match op
    case ListReserve(config, rate) => AddReserve(p, config, rate)
    case Pause(paused) => Done(p.(core := p.core.(paused := paused)))
    case Pay(asset, from, to, amount) =>
      var paid :- Transfer(p.core, asset, from, to, amount);
      Done(p.(core := paid))
    case SupplyOp(caller, asset, amount) => Supply(p, env, caller, asset, amount)
    case WithdrawOp(caller, asset, amount) => Withdraw(p, env, caller, asset, amount)
    case BorrowOp(caller, asset, amount) => Borrow(p, env, caller, asset, amount)
    case RepayOp(caller, asset, amount) => Repay(p, env, caller, asset, amount)
    case ToggleOp(caller, asset, on) => ToggleCollateral(p, env, caller, asset, on)
    case LiquidateOp(liquidator, borrower, debtAsset, collateralAsset, repay, seize) =>
      Liquidate(p, env, liquidator, borrower, debtAsset, collateralAsset, repay, seize)
  }

  /** A panic leaves the state of the host as it was. */
  function Next(p: Pool, env: Env, op: Op): Pool {
    match Call(p, env, op)
    case Done(q) => q
    case Panic => p
  }

  function Run(p: Pool, steps: seq<(Env, Op)>): Pool
    decreases |steps|
  {
    if steps == [] then p else Run(Next(p, steps[0].0, steps[0].1), steps[1..])
  }

  /** The pool itself is nobody's caller, and only new assets with fresh tokens are listed. */
  predicate Allowed(p: Pool, op: Op) {
    match op
    case ListReserve(config, rate) => Admissible(p.core, config, rate)
    case Pay(_, from, _, _) => from != ThisPool
    case SupplyOp(caller, _, _) => caller != ThisPool
    case WithdrawOp(caller, _, _) => caller != ThisPool
    case BorrowOp(caller, _, _) => caller != ThisPool
    case RepayOp(caller, _, _) => caller != ThisPool
    case LiquidateOp(liquidator, _, _, _, _, _) => liquidator != ThisPool
    case Pause(_) => true
    case ToggleOp(_, _, _) => true
  }

  predicate AllowedRun(p: Pool, steps: seq<(Env, Op)>)
    decreases |steps|
  {
    steps == [] || (Allowed(p, steps[0].1) && AllowedRun(Next(p, steps[0].0, steps[0].1), steps[1..]))
  }

  /** The exact change of a reserve's surplus in one step, told from the state before it. */
  function Change(p: Pool, env: Env, op: Op, j: ReserveIndex): int {
    if Call(p, env, op).Panic? then 0
    else
      match op
      case ListReserve(config, _) => if j == p.core.count then p.core.CashOf(config.asset, ThisPool) else 0
      case Pay(asset, _, to, amount) =>
        if to == ThisPool && j in p.core.configs && p.core.configs[j].asset == asset then amount else 0
      case LiquidateOp(_, borrower, debtAsset, collateralAsset, repay, seize) =>
        if debtAsset in p.core.indices && collateralAsset in p.core.indices then
          LiquidationChange(p, borrower, p.core.indices[debtAsset], p.core.indices[collateralAsset], repay, seize, j)
        else 0
      case _ => 0
  }

  function TotalChange(p: Pool, steps: seq<(Env, Op)>, j: ReserveIndex): int
    decreases |steps|
  {
    if steps == [] then 0
    else Change(p, steps[0].0, steps[0].1, j) + TotalChange(Next(p, steps[0].0, steps[0].1), steps[1..], j)
  }

  // ----- one step -----

  lemma LiquidateIsSafe(p: Pool, env: Env, liquidator: Address, borrower: Address,
                        debtAsset: Address, collateralAsset: Address, repay: i128, seize: i128)
    requires Sound(p) && liquidator != ThisPool
    requires Liquidate(p, env, liquidator, borrower, debtAsset, collateralAsset, repay, seize).Done?
    ensures debtAsset in p.core.indices && collateralAsset in p.core.indices
    ensures var q := Liquidate(p, env, liquidator, borrower, debtAsset, collateralAsset, repay, seize).value;
            var d, k := p.core.indices[debtAsset], p.core.indices[collateralAsset];
            && Sound(q)
            && (forall j: ReserveIndex ::
                  Surplus(q.core, j) == Surplus(p.core, j) + LiquidationChange(p, borrower, d, k, repay, seize, j))
  {
    hide SoundCore, Surplus, FlagsMatch, LiquidationHook, Transfer, HookChange;
    var paidIn := Transfer(p.core, debtAsset, liquidator, ThisPool, repay).value;
    TransferEffect(p.core, debtAsset, liquidator, ThisPool, repay);
    CashWritten(p.core, paidIn.cash);
    FlagsIgnoreOtherWrites(p, paidIn);
    var p1 := p.(core := paidIn);
    HookIsSafe(p1, env, liquidator, borrower, debtAsset, collateralAsset, repay, seize);
    ReserveKnown(p.core, debtAsset);
    var d, k := p.core.indices[debtAsset], p.core.indices[collateralAsset];
    HookChangeIgnoresCash(p, paidIn.cash, borrower, d, k, repay, seize);
  }

  lemma HookChangeIgnoresCash(p: Pool, cash: map<(Address, Address), i128>, borrower: Address,
                              d: ReserveIndex, k: ReserveIndex, repay: i128, seize: i128)
    ensures var p1 := p.(core := p.core.(cash := cash));
            forall j: ReserveIndex ::
              HookChange(p1, borrower, d, k, repay, seize, j) == HookChange(p, borrower, d, k, repay, seize, j)
  {
    var p1 := p.(core := p.core.(cash := cash));
    forall s: Side, i: ReserveIndex ensures p1.core.BalanceOf(s, i, borrower) == p.core.BalanceOf(s, i, borrower) {}
    assert p1.FlagsOf(borrower) == p.FlagsOf(borrower);
    assert LosesAll(p1, k, borrower, seize) == LosesAll(p, k, borrower, seize);
  }

  lemma StepIsSafe(p: Pool, env: Env, op: Op)
    requires Sound(p) && Allowed(p, op)
    ensures Sound(Next(p, env, op))
    ensures forall j: ReserveIndex :: Surplus(Next(p, env, op).core, j) == Surplus(p.core, j) + Change(p, env, op, j)
  {
    hide SoundCore, FlagsMatch, Surplus, LiquidationChange;
    hide Supply, Withdraw, Borrow, Repay, ToggleCollateral, Liquidate, AddReserve;
    if Call(p, env, op).Done? {
      match op
      case ListReserve(config, rate) => AddReserveIsSafe(p, config, rate);
      case Pause(paused) => PauseIsSafe(p, paused);
      case Pay(asset, from, to, amount) => PayIsSafe(p, asset, from, to, amount);
      case SupplyOp(caller, asset, amount) => SupplyIsSafe(p, env, caller, asset, amount);
      case WithdrawOp(caller, asset, amount) => WithdrawIsSafe(p, env, caller, asset, amount);
      case BorrowOp(caller, asset, amount) => BorrowIsSafe(p, env, caller, asset, amount);
      case RepayOp(caller, asset, amount) => RepayIsSafe(p, env, caller, asset, amount);
      case ToggleOp(caller, asset, on) => ToggleIsSafe(p, env, caller, asset, on);
      case LiquidateOp(liquidator, borrower, debtAsset, collateralAsset, repay, seize) =>
        LiquidateIsSafe(p, env, liquidator, borrower, debtAsset, collateralAsset, repay, seize);
    }
  }

  lemma PauseIsSafe(p: Pool, paused: bool)
    requires Sound(p)
    ensures var q := p.(core := p.core.(paused := paused)); Sound(q) && SameSurplus(p.core, q.core)
  {
    var q := p.(core := p.core.(paused := paused));
    forall j <- q.core.configs, s: Side ensures Mirrored(q.core, s, j) {
      assert Mirrored(p.core, s, j);
    }
    FlagsIgnoreOtherWrites(p, q.core);
  }

  lemma PayIsSafe(p: Pool, asset: Address, from: Address, to: Address, amount: i128)
    requires Sound(p) && from != ThisPool && Transfer(p.core, asset, from, to, amount).Done?
    ensures var q := p.(core := Transfer(p.core, asset, from, to, amount).value);
            && Sound(q)
            && forall j: ReserveIndex :: Surplus(q.core, j) == Surplus(p.core, j) +
                 if to == ThisPool && j in p.core.configs && p.core.configs[j].asset == asset then amount else 0
  {
    hide SoundCore, FlagsMatch, Surplus, Transfer;
    TransferEffect(p.core, asset, from, to, amount);
    var paid := Transfer(p.core, asset, from, to, amount).value;
    CashWritten(p.core, paid.cash);
    FlagsIgnoreOtherWrites(p, paid);
  }

  // ----- whole runs -----

  lemma {:induction false} RunIsSafe(p: Pool, steps: seq<(Env, Op)>)
    requires Sound(p) && AllowedRun(p, steps)
    ensures Sound(Run(p, steps))
    ensures forall j: ReserveIndex :: Surplus(Run(p, steps).core, j) == Surplus(p.core, j) + TotalChange(p, steps, j)
    decreases |steps|
  {
    hide Sound, Surplus, Allowed, Next, Change;
    if steps != [] {
      var q := Next(p, steps[0].0, steps[0].1);
      StepIsSafe(p, steps[0].0, steps[0].1);
      RunIsSafe(q, steps[1..]);
    }
  }

  /** A freshly initialised pool: nothing listed, whatever token balances exist. */
  function Genesis(cash: map<(Address, Address), i128>): Pool {
    Pool(Core(0, false, map[], map[], map[], map[], map[], map[], cash), map[])
  }

  lemma GenesisIsSound(cash: map<(Address, Address), i128>)
    ensures Sound(Genesis(cash)) && forall j: ReserveIndex :: Surplus(Genesis(cash).core, j) == 0
  {
  }

  /**
   * When the change of every surplus is zero. Between two reserves: the repayment is owed, the seizure is held, and
   * nothing is written off unrecorded. Within one reserve an excess paid in may also make up for an excess paid out.
   */
  predicate Conserves(p: Pool, borrower: Address, d: ReserveIndex, k: ReserveIndex, repay: i128, seize: i128) {
    var owed, held := p.core.BalanceOf(Borrows, d, borrower), p.core.BalanceOf(Deposits, k, borrower);
    if d != k then
      && repay <= owed && seize <= held
      && (LosesAll(p, k, borrower, seize) ==>
            forall j: ReserveIndex | 0 <= j < 64 :: Unrecorded(Residue(p.core, d, borrower, repay, j)) == 0)
    else
      && repay - Burned(p.core, Borrows, d, borrower, repay)
         == seize - Burned(p.core, Deposits, k, borrower, seize)
            + (if LosesAll(p, k, borrower, seize) then Unrecorded(Residue(p.core, d, borrower, repay, d)) else 0)
      && (LosesAll(p, k, borrower, seize) ==>
            forall j: ReserveIndex | 0 <= j < 64 :: j != d ==> Unrecorded(Residue(p.core, d, borrower, repay, j)) == 0)
  }

  lemma ChangeVanishesExactlyWhen(p: Pool, borrower: Address, d: ReserveIndex, k: ReserveIndex, repay: i128,
                                  seize: i128)
    requires Sound(p) && repay > 0 && seize > 0
    ensures (forall j: ReserveIndex :: LiquidationChange(p, borrower, d, k, repay, seize, j) == 0)
            <==> Conserves(p, borrower, d, k, repay, seize)
  {
    hide SoundCore, Residue, Unrecorded, LosesAll;
    HeldIsNonNegative(p.core, Borrows, d, borrower);
    HeldIsNonNegative(p.core, Deposits, k, borrower);
    forall j: ReserveIndex ensures Residue(p.core, d, borrower, repay, j) >= 0 {
      ResidueIsNonNegative(p, borrower, d, repay, j);
    }
    forall j: ReserveIndex ensures Unrecorded(Residue(p.core, d, borrower, repay, j)) >= 0 {
      UnrecordedIsNonNegative(Residue(p.core, d, borrower, repay, j));
    }
    NothingIsLeftOfAnOverpaidDebt(p, borrower, d, repay);
    var dd := LiquidationChange(p, borrower, d, k, repay, seize, d);
    var kk := LiquidationChange(p, borrower, d, k, repay, seize, k);
    if forall j: ReserveIndex :: LiquidationChange(p, borrower, d, k, repay, seize, j) == 0 {
      assert dd == 0 && kk == 0;
      forall j: ReserveIndex | LosesAll(p, k, borrower, seize) && j != d && j != k
        ensures Unrecorded(Residue(p.core, d, borrower, repay, j)) == 0
      {
        assert LiquidationChange(p, borrower, d, k, repay, seize, j) == 0;
      }
    }
  }

  lemma ResidueIsNonNegative(p: Pool, borrower: Address, d: ReserveIndex, repay: i128, j: ReserveIndex)
    requires Sound(p) && repay > 0
    ensures Residue(p.core, d, borrower, repay, j) >= 0
  {
    hide SoundCore;
    HeldIsNonNegative(p.core, Borrows, j, borrower);
  }

  lemma UnrecordedIsNonNegative(owed: int)
    requires owed >= 0
    ensures Unrecorded(owed) >= 0
  {
  }

  lemma NothingIsLeftOfAnOverpaidDebt(p: Pool, borrower: Address, d: ReserveIndex, repay: i128)
    requires p.core.BalanceOf(Borrows, d, borrower) >= 0
    ensures repay >= p.core.BalanceOf(Borrows, d, borrower) ==> Unrecorded(Residue(p.core, d, borrower, repay, d)) == 0
  {
  }

  /**
   * A finished liquidation leaves the surplus of every reserve as it was if and only if the state before it says so.
   */
  lemma LiquidationConservesExactlyWhen(p: Pool, env: Env, liquidator: Address, borrower: Address,
                                        debtAsset: Address, collateralAsset: Address, repay: i128, seize: i128)
    requires Sound(p) && liquidator != ThisPool
    requires Liquidate(p, env, liquidator, borrower, debtAsset, collateralAsset, repay, seize).Done?
    ensures debtAsset in p.core.indices && collateralAsset in p.core.indices
    ensures var q := Liquidate(p, env, liquidator, borrower, debtAsset, collateralAsset, repay, seize).value;
            SameSurplus(p.core, q.core)
            <==> Conserves(p, borrower, p.core.indices[debtAsset], p.core.indices[collateralAsset], repay, seize)
  {
    LiquidationAmountsArePositive(p, env, liquidator, borrower, debtAsset, collateralAsset, repay, seize);
    LiquidateIsSafe(p, env, liquidator, borrower, debtAsset, collateralAsset, repay, seize);
    hide SoundCore, FlagsMatch, Surplus, Liquidate, LiquidationChange, Conserves;
    ChangeVanishesExactlyWhen(p, borrower, p.core.indices[debtAsset], p.core.indices[collateralAsset], repay, seize);
  }

  lemma LiquidationAmountsArePositive(p: Pool, env: Env, liquidator: Address, borrower: Address,
                                      debtAsset: Address, collateralAsset: Address, repay: i128, seize: i128)
    requires Liquidate(p, env, liquidator, borrower, debtAsset, collateralAsset, repay, seize).Done?
    ensures repay > 0 && seize > 0
  {
    hide Transfer, Settle, Socialize;
  }

  /** No donations, no empty-handed listings of assets already held, and liquidations within bounds. */
  predicate Orderly(p: Pool, env: Env, op: Op) {
    match op
    case ListReserve(config, _) => p.core.CashOf(config.asset, ThisPool) == 0
    case Pay(_, _, to, _) => to != ThisPool
    case LiquidateOp(_, borrower, debtAsset, collateralAsset, repay, seize) =>
      debtAsset in p.core.indices && collateralAsset in p.core.indices ==>
        var d, k := p.core.indices[debtAsset], p.core.indices[collateralAsset];
        repay > 0 && seize > 0 && Conserves(p, borrower, d, k, repay, seize)
    case _ => true
  }

  predicate OrderlyRun(p: Pool, steps: seq<(Env, Op)>)
    decreases |steps|
  {
    steps == [] || (Orderly(p, steps[0].0, steps[0].1) && OrderlyRun(Next(p, steps[0].0, steps[0].1), steps[1..]))
  }

  lemma OrderlyStepChangesNothing(p: Pool, env: Env, op: Op, j: ReserveIndex)
    requires Sound(p) && Orderly(p, env, op)
    ensures Change(p, env, op, j) == 0
  {
    hide Call, Next, SoundCore, LiquidationChange, Conserves;
    match op
    case LiquidateOp(_, borrower, debtAsset, collateralAsset, repay, seize) =>
      if debtAsset in p.core.indices && collateralAsset in p.core.indices {
        ChangeVanishesExactlyWhen(p, borrower, p.core.indices[debtAsset], p.core.indices[collateralAsset], repay,
                                  seize);
      }
    case _ =>
  }

  lemma {:induction false} OrderlyRunChangesNothing(p: Pool, steps: seq<(Env, Op)>, j: ReserveIndex)
    requires Sound(p) && AllowedRun(p, steps) && OrderlyRun(p, steps)
    ensures TotalChange(p, steps, j) == 0
    decreases |steps|
  {
    hide Sound, Allowed, Orderly, Next, Change, Surplus;
    if steps != [] {
      StepIsSafe(p, steps[0].0, steps[0].1);
      OrderlyStepChangesNothing(p, steps[0].0, steps[0].1, j);
      OrderlyRunChangesNothing(Next(p, steps[0].0, steps[0].1), steps[1..], j);
    }
  }

  /**
   * In every reachable state, for every reserve: both indices are one RAY; on either side the pool's book is the
   * token contract's ledger, sums to its total and holds no negative balance; and borrow flags mark exactly the debts.
   */
  lemma ReachableStatesMirror(cash: map<(Address, Address), i128>, steps: seq<(Env, Op)>,
                              i: ReserveIndex, user: Address)
    requires AllowedRun(Genesis(cash), steps) && i in Run(Genesis(cash), steps).core.configs
    ensures var p := Run(Genesis(cash), steps);
            && p.core.CellOf(i).liquidityIndex == RAY && p.core.CellOf(i).borrowIndex == RAY
            && (i in p.FlagsOf(user).borrowed <==> p.core.BalanceOf(Borrows, i, user) > 0)
            && forall side: Side ::
                 var book, token := p.core.BookOf(side, i), p.core.TokenOf(p.core.configs[i].TokenAt(side));
                 && book.BalanceOf(user) == token.BalanceOf(user)
                 && book.total == token.total == SumOf(book.balances)
                 && 0 <= book.BalanceOf(user) <= book.total
  {
    GenesisIsSound(cash);
    RunIsSafe(Genesis(cash), steps);
    var p := Run(Genesis(cash), steps);
    hide Run, AllowedRun;
    CellIsSteady(p.core, i);
    forall side: Side
      ensures Mirrored(p.core, side, i)
      ensures 0 <= p.core.BookOf(side, i).BalanceOf(user) <= p.core.BookOf(side, i).total
    {
      assert Mirrored(p.core, side, i);
      BalancedTotal(p.core.BookOf(side, i));
    }
  }

  /** From an empty pool, cash plus loans plus recorded deficit equals deposits in every reserve, whatever happens. */
  lemma OrderlyRunsConserve(cash: map<(Address, Address), i128>, steps: seq<(Env, Op)>, i: ReserveIndex)
    requires AllowedRun(Genesis(cash), steps) && OrderlyRun(Genesis(cash), steps)
    requires i in Run(Genesis(cash), steps).core.configs
    ensures var c := Run(Genesis(cash), steps).core;
            c.CashOf(c.configs[i].asset, ThisPool) + c.BookOf(Borrows, i).total + c.CellOf(i).deficit
            == c.BookOf(Deposits, i).total
  {
    hide Sound;
    GenesisIsSound(cash);
    RunIsSafe(Genesis(cash), steps);
    OrderlyRunChangesNothing(Genesis(cash), steps, i);
    hide Run, AllowedRun, OrderlyRun, TotalChange;
  }

  // ----- what a finished call guarantees -----

  lemma TermsIgnoreCash(c: Core, cash: map<(Address, Address), i128>, f: Flags, env: Env,
                        user: Address, i: ReserveIndex)
    ensures CollateralTerm(c.(cash := cash), f, env, user, i) == CollateralTerm(c, f, env, user, i)
    ensures DebtTerm(c.(cash := cash), f, env, user, i) == DebtTerm(c, f, env, user, i)
  {
    hide WadMul, RayMul, PercentToWad;
    var d := c.(cash := cash);
    assert d.CellOf(i) == c.CellOf(i) && ConfigOf(d, i) == ConfigOf(c, i);
    assert d.BalanceOf(Deposits, i, user) == c.BalanceOf(Deposits, i, user);
    assert d.BalanceOf(Borrows, i, user) == c.BalanceOf(Borrows, i, user);
  }

  /** Cash is no part of a valuation. */
  lemma {:induction false} ValuationIgnoresCash(c: Core, cash: map<(Address, Address), i128>, f: Flags, env: Env,
                                                user: Address, n: ReserveCount)
    ensures Valuation(c.(cash := cash), f, env, user, n) == Valuation(c, f, env, user, n)
  {
    hide CollateralTerm, DebtTerm;
    if n > 0 {
      ValuationIgnoresCash(c, cash, f, env, user, n - 1);
      TermsIgnoreCash(c, cash, f, env, user, n - 1);
    }
  }

  lemma HealthIgnoresCash(p: Pool, cash: map<(Address, Address), i128>, env: Env, user: Address)
    ensures Healthy(p.(core := p.core.(cash := cash)), env, user) <==> Healthy(p, env, user)
  {
    hide Valuation;
    ValuationIgnoresCash(p.core, cash, p.FlagsOf(user), env, user, p.core.count);
    assert p.(core := p.core.(cash := cash)).FlagsOf(user) == p.FlagsOf(user);
  }

  /** The stored position left behind passes the very check that guarded the call. */
  lemma BorrowLeavesHealthy(p: Pool, env: Env, caller: Address, asset: Address, amount: i128)
    requires Borrow(p, env, caller, asset, amount).Done?
    ensures Healthy(Borrow(p, env, caller, asset, amount).value, env, caller)
  {
    hide Accrue, Transfer, Credit, Scaled, HealthFactor;
    var i := ReserveOf(p.core, asset).value;
    var accrued := Accrue(p.core, i, env.now).value;
    var scaled := Scaled(amount, accrued.CellOf(i).borrowIndex).value;
    var credited := Credit(accrued, Borrows, i, p.core.configs[i], caller, scaled).value;
    var flagged := p.(core := credited).SetBorrowed(caller, i, true);
    TransferEffect(credited, asset, ThisPool, caller, amount);
    HealthIgnoresCash(flagged, Transfer(credited, asset, ThisPool, caller, amount).value.cash, env, caller);
  }

  lemma WithdrawLeavesHealthy(p: Pool, env: Env, caller: Address, asset: Address, amount: i128)
    requires Withdraw(p, env, caller, asset, amount).Done?
    ensures var q := Withdraw(p, env, caller, asset, amount).value;
            q.FlagsOf(caller).borrowed != {} ==> Healthy(q, env, caller)
  {
    hide Accrue, Transfer, Debit, Scaled, HealthFactor, RayMul;
    var i := ReserveOf(p.core, asset).value;
    var accrued := Accrue(p.core, i, env.now).value;
    var index := accrued.CellOf(i).liquidityIndex;
    var taken := AtMost(amount, RayMul(accrued.BalanceOf(Deposits, i, caller), index).GetOr(0));
    var debited := Debit(accrued, Deposits, i, p.core.configs[i], caller, Scaled(taken, index).value).value;
    var burned := p.(core := debited);
    var emptied := debited.BalanceOf(Deposits, i, caller) == 0;
    var flagged := if emptied then burned.SetCollateral(caller, i, false) else burned;
    TransferEffect(debited, asset, ThisPool, caller, taken);
    HealthIgnoresCash(flagged, Transfer(debited, asset, ThisPool, caller, taken).value.cash, env, caller);
  }

  lemma ToggleOffLeavesHealthy(p: Pool, env: Env, caller: Address, asset: Address)
    requires asset in p.core.indices && p.core.indices[asset] in p.FlagsOf(caller).collateral
    requires ToggleCollateral(p, env, caller, asset, false).Done?
    ensures var q := ToggleCollateral(p, env, caller, asset, false).value;
            q.FlagsOf(caller).borrowed != {} ==> Healthy(q, env, caller)
  {
    hide Accrue, HealthFactor;
    assert p.(core := Accrue(p.core, p.core.indices[asset], env.now).value).FlagsOf(caller) == p.FlagsOf(caller);
  }

  /** What the threshold means: collateral covers the debt up to rounding, or is too large to be compared. */
  lemma HealthThreshold(collateral: i128, debt: i128)
    requires collateral >= 0 && debt > 0
    ensures WadDiv(collateral, debt).GetOr(I128_MAX) >= WAD
            <==> collateral * WAD + debt / 2 > I128_MAX || collateral * WAD + debt / 2 >= debt * WAD
  {
    QuotientsFit(collateral, debt);
    FloorGalois(collateral * WAD + debt / 2, debt, WAD);
  }

  /**
   * A finished hook leaves one of three things: shares of the seized asset, other flagged collateral, or no debt
   * in any reserve, no borrow flag, and the collateral flags of the other reserves as they were.
   */
  lemma HookEndsInOneOfThree(p: Pool, env: Env, liquidator: Address, borrower: Address,
                             debtAsset: Address, collateralAsset: Address, repay: i128, seize: i128)
    requires Sound(p) && liquidator != ThisPool
    requires debtAsset in p.core.indices && collateralAsset in p.core.indices
    requires LiquidationHook(p, env, liquidator, borrower, debtAsset, collateralAsset, repay, seize).Done?
    ensures var q := LiquidationHook(p, env, liquidator, borrower, debtAsset, collateralAsset, repay, seize).value;
            var k := p.core.indices[collateralAsset];
            || q.core.BalanceOf(Deposits, k, borrower) > 0
            || HasCollateral(q.core, q.FlagsOf(borrower), borrower, q.core.count)
            || (&& (forall j: ReserveIndex :: q.core.BalanceOf(Borrows, j, borrower) == 0)
                && q.FlagsOf(borrower).borrowed == {}
                && (forall j: nat :: j != k ==>
                      (j in q.FlagsOf(borrower).collateral <==> j in p.FlagsOf(borrower).collateral)))
  {
    hide SoundCore, Surplus, FlagsMatch, Socialize, Settle, HasCollateral;
    var k := p.core.indices[collateralAsset];
    var settled := Settle(p, env, liquidator, borrower, debtAsset, collateralAsset, repay, seize).value;
    SettleEffect(p, env, liquidator, borrower, debtAsset, collateralAsset, repay, seize);
    SocializeEffect(settled, borrower, k);
    HeldIsNonNegative(settled.core, Deposits, k, borrower);
  }
}
