/** Each operation of the pool keeps it sound and moves every reserve's surplus by an exact amount. */
module PoolSafety {
  import opened Prelude
  import opened PoolMath
  import opened ScaledToken
  import opened Pool
  import opened PoolInvariant

  // ----- borrow flags and debts -----

  lemma FlagsIgnoreOtherWrites(p: Pool, c: Core)
    requires FlagsMatch(p) && c.books == p.core.books
    ensures FlagsMatch(p.(core := c))
  {
    forall u: Address, i: nat | i < 64 ensures c.BalanceOf(Borrows, i, u) == p.core.BalanceOf(Borrows, i, u) {}
    forall u: Address ensures p.(core := c).FlagsOf(u) == p.FlagsOf(u) {}
  }

  lemma FlagsIgnoreDeposits(p: Pool, d: Core, i: ReserveIndex, user: Address, x: int)
    requires FlagsMatch(p) && Shifted(p.core, d, Deposits, i, user, x)
    ensures FlagsMatch(p.(core := d))
  {
    forall u: Address, j: nat | j < 64 ensures d.BalanceOf(Borrows, j, u) == p.core.BalanceOf(Borrows, j, u) {
      assert (Borrows, j) != (Deposits, i);
    }
    forall u: Address ensures p.(core := d).FlagsOf(u) == p.FlagsOf(u) {}
  }

  lemma FlagsIgnoreCollateral(p: Pool, user: Address, i: nat, value: bool)
    requires FlagsMatch(p)
    ensures FlagsMatch(p.SetCollateral(user, i, value))
  {
    var q := p.SetCollateral(user, i, value);
    forall u: Address ensures q.FlagsOf(u).borrowed == p.FlagsOf(u).borrowed {}
  }

  /** Writing the flag of a moved debt to whether anything is owed restores the match. */
  lemma FlagFollowsDebt(p: Pool, d: Core, i: ReserveIndex, user: Address, x: int)
    requires i in p.core.configs && FlagsMatch(p) && Shifted(p.core, d, Borrows, i, user, x)
    ensures FlagsMatch(p.(core := d).SetBorrowed(user, i, d.BalanceOf(Borrows, i, user) > 0))
    ensures (d.BalanceOf(Borrows, i, user) > 0) == (p.core.BalanceOf(Borrows, i, user) > 0) ==> FlagsMatch(p.(core := d))
  {
    ShiftedSurplus(p.core, d, Borrows, i, user, x);
    var q := p.(core := d).SetBorrowed(user, i, d.BalanceOf(Borrows, i, user) > 0);
    forall u: Address, j: nat
      ensures j in q.FlagsOf(u).borrowed <==> if (u, j) == (user, i) then d.BalanceOf(Borrows, i, user) > 0
                                             else j in p.FlagsOf(u).borrowed
    {
    }
    forall u: Address ensures p.(core := d).FlagsOf(u) == p.FlagsOf(u) {}
  }

  // ----- what a call moves -----

  /** One scaled balance and its total moved by x; all others of every user in every reserve stayed. */
  ghost predicate Moved(c: Core, d: Core, side: Side, i: ReserveIndex, user: Address, x: int) {
    && (forall s: Side, j: ReserveIndex, u: Address ::
          d.BalanceOf(s, j, u) == c.BalanceOf(s, j, u) + if (s, j, u) == (side, i, user) then x else 0)
    && (forall s: Side, j: ReserveIndex ::
          d.BookOf(s, j).total == c.BookOf(s, j).total + if (s, j) == (side, i) then x else 0)
  }

  /** The flags of one user became f; all others stayed. */
  ghost predicate Reflagged(p: Pool, q: Pool, user: Address, f: Flags) {
    forall u: Address :: q.FlagsOf(u) == if u == user then f else p.FlagsOf(u)
  }

  lemma ShiftMoves(a: Core, c: Core, d: Core, e: Core, side: Side, i: ReserveIndex, user: Address, x: int)
    requires c.books == a.books && e.books == d.books
    requires i in c.configs && Shifted(c, d, side, i, user, x)
    ensures Moved(a, e, side, i, user, x)
  {
    hide Surplus;
    ShiftedSurplus(c, d, side, i, user, x);
    forall s: Side, j: ReserveIndex, u: Address
      ensures c.BalanceOf(s, j, u) == a.BalanceOf(s, j, u) && e.BalanceOf(s, j, u) == d.BalanceOf(s, j, u)
    {
    }
    forall s: Side, j: ReserveIndex
      ensures c.BookOf(s, j) == a.BookOf(s, j) && e.BookOf(s, j) == d.BookOf(s, j)
    {
    }
  }

  lemma MovedAt(c: Core, d: Core, side: Side, i: ReserveIndex, user: Address, x: int)
    requires Moved(c, d, side, i, user, x)
    ensures d.BalanceOf(side, i, user) == c.BalanceOf(side, i, user) + x
  {
  }

  // ----- deposits -----

  ghost predicate SameSurplus(c: Core, d: Core) {
    forall j: ReserveIndex :: Surplus(d, j) == Surplus(c, j)
  }

  lemma SupplyIsSafe(p: Pool, env: Env, caller: Address, asset: Address, amount: i128)
    requires Sound(p) && caller != ThisPool && Supply(p, env, caller, asset, amount).Done?
    ensures var q := Supply(p, env, caller, asset, amount).value;
            && Sound(q) && SameSurplus(p.core, q.core)
            && var i, f := ReserveOf(p.core, asset).value, p.FlagsOf(caller);
               && Moved(p.core, q.core, Deposits, i, caller, amount)
               && Reflagged(p, q, caller, f.(collateral := f.collateral + {i}))
  {
    hide SoundCore, Surplus, FlagsMatch, Shifted, OnlyAccrued, Moved;
    hide Accrue, Transfer, Credit, Debit, Scaled, RayMul, HealthFactor;
    var i := ReserveOf(p.core, asset).value;
    ReserveKnown(p.core, asset);
    var accrued := Accrue(p.core, i, env.now).value;
    AccrueEffect(p.core, i, env.now);
    AccruedSurplus(p.core, accrued);
    var paid := Transfer(accrued, asset, caller, ThisPool, amount).value;
    TransferEffect(accrued, asset, caller, ThisPool, amount);
    CashWritten(accrued, paid.cash);
    CellIsSteady(paid, i);
    ScaledAtRay(amount);
    CreditEffect(paid, Deposits, i, caller, amount);
    var credited := Credit(paid, Deposits, i, paid.configs[i], caller, amount).value;
    ShiftedSurplus(paid, credited, Deposits, i, caller, amount);
    FlagsIgnoreOtherWrites(p, paid);
    FlagsIgnoreDeposits(p.(core := paid), credited, i, caller, amount);
    FlagsIgnoreCollateral(p.(core := credited), caller, i, true);
    ShiftMoves(p.core, paid, credited, credited, Deposits, i, caller, amount);
  }

  /** What a withdrawal hands out: the request, cut to the balance. */
  function WithdrawnAmount(p: Pool, caller: Address, asset: Address, amount: i128): int
    requires asset in p.core.indices
  {
    AtMost(amount, p.core.BalanceOf(Deposits, p.core.indices[asset], caller))
  }

  /** The steps of a finished withdrawal: the indices are one ray, so the amount burned is the amount paid. */
  lemma WithdrawSteps(p: Pool, env: Env, caller: Address, asset: Address, amount: i128)
    returns (i: ReserveIndex, accrued: Core, taken: i128, debited: Core, paid: Core)
    requires SoundCore(p.core) && Withdraw(p, env, caller, asset, amount).Done?
    ensures asset in p.core.indices && i == p.core.indices[asset] && i in p.core.configs
    ensures SoundCore(accrued) && OnlyAccrued(p.core, accrued)
    ensures taken == WithdrawnAmount(p, caller, asset, amount) && taken > 0
    ensures Debit(accrued, Deposits, i, accrued.configs[i], caller, taken) == Done(debited)
    ensures Transfer(debited, asset, ThisPool, caller, taken) == Done(paid)
    ensures Withdraw(p, env, caller, asset, amount).value
            == (if debited.BalanceOf(Deposits, i, caller) == 0 then p.SetCollateral(caller, i, false) else p).(core := paid)
  {
    hide SoundCore, Accrue, Transfer, Debit, Scaled, RayMul, HealthFactor, OnlyAccrued;
    i := ReserveOf(p.core, asset).value;
    ReserveKnown(p.core, asset);
    accrued := Accrue(p.core, i, env.now).value;
    AccrueEffect(p.core, i, env.now);
    AccruedKeepsReserves(p.core, accrued);
    CellIsSteady(accrued, i);
    var held := accrued.BalanceOf(Deposits, i, caller);
    HeldIsNonNegative(accrued, Deposits, i, caller);
    RayMulByOne(held);
    taken := AtMost(amount, held);
    ScaledAtRay(taken);
    debited := Debit(accrued, Deposits, i, accrued.configs[i], caller, taken).value;
    paid := Transfer(debited, asset, ThisPool, caller, taken).value;
  }

  lemma AccruedKeepsReserves(c: Core, d: Core)
    requires OnlyAccrued(c, d)
    ensures d.books == c.books && d.configs == c.configs && d.indices == c.indices
  {
  }

  lemma WithdrawIsSafe(p: Pool, env: Env, caller: Address, asset: Address, amount: i128)
    requires Sound(p) && caller != ThisPool && Withdraw(p, env, caller, asset, amount).Done?
    ensures var q := Withdraw(p, env, caller, asset, amount).value;
            && Sound(q) && SameSurplus(p.core, q.core)
            && var i, f := ReserveOf(p.core, asset).value, p.FlagsOf(caller);
               var taken := WithdrawnAmount(p, caller, asset, amount);
               && taken > 0
               && Moved(p.core, q.core, Deposits, i, caller, 0 - taken)
               && Reflagged(p, q, caller,
                    if p.core.BalanceOf(Deposits, i, caller) == taken then f.(collateral := f.collateral - {i}) else f)
  {
    hide SoundCore, Surplus, FlagsMatch, Transfer, Debit, Withdraw, WithdrawnAmount, Shifted, Moved;
    var i, accrued, taken, debited, paid := WithdrawSteps(p, env, caller, asset, amount);
    ReserveKnown(p.core, asset);
    AccruedSurplus(p.core, accrued);
    DebitEffect(accrued, Deposits, i, caller, taken);
    ShiftedSurplus(accrued, debited, Deposits, i, caller, 0 - taken as int);
    FlagsIgnoreOtherWrites(p, accrued);
    FlagsIgnoreDeposits(p.(core := accrued), debited, i, caller, 0 - taken as int);
    FlagsIgnoreCollateral(p.(core := debited), caller, i, false);
    TransferEffect(debited, asset, ThisPool, caller, taken);
    CashWritten(debited, paid.cash);
    FlagsIgnoreOtherWrites(
      if debited.BalanceOf(Deposits, i, caller) == 0 then p.(core := debited).SetCollateral(caller, i, false)
      else p.(core := debited), paid);
    ShiftMoves(p.core, accrued, debited, paid, Deposits, i, caller, 0 - taken as int);
    MovedAt(p.core, paid, Deposits, i, caller, 0 - taken as int);
  }

  lemma HeldIsNonNegative(c: Core, side: Side, i: ReserveIndex, user: Address)
    requires SoundCore(c)
    ensures c.BalanceOf(side, i, user) >= 0
  {
    if i in c.configs {
      assert Mirrored(c, side, i);
      BalancedTotal(c.BookOf(side, i));
    }
  }

  // ----- debts -----

  lemma BorrowIsSafe(p: Pool, env: Env, caller: Address, asset: Address, amount: i128)
    requires Sound(p) && caller != ThisPool && Borrow(p, env, caller, asset, amount).Done?
    ensures var q := Borrow(p, env, caller, asset, amount).value;
            && Sound(q) && SameSurplus(p.core, q.core)
            && var i, f := ReserveOf(p.core, asset).value, p.FlagsOf(caller);
               && Moved(p.core, q.core, Borrows, i, caller, amount)
               && Reflagged(p, q, caller, f.(borrowed := f.borrowed + {i}))
  {
    hide SoundCore, Surplus, FlagsMatch, Shifted, OnlyAccrued, Moved;
    hide Accrue, Transfer, Credit, Debit, Scaled, RayMul, HealthFactor;
    var i := ReserveOf(p.core, asset).value;
    ReserveKnown(p.core, asset);
    var accrued := Accrue(p.core, i, env.now).value;
    AccrueEffect(p.core, i, env.now);
    AccruedSurplus(p.core, accrued);
    CellIsSteady(accrued, i);
    ScaledAtRay(amount);
    CreditEffect(accrued, Borrows, i, caller, amount);
    var credited := Credit(accrued, Borrows, i, accrued.configs[i], caller, amount).value;
    ShiftedSurplus(accrued, credited, Borrows, i, caller, amount);
    HeldIsNonNegative(accrued, Borrows, i, caller);
    FlagsIgnoreOtherWrites(p, accrued);
    FlagFollowsDebt(p.(core := accrued), credited, i, caller, amount);
    TransferEffect(credited, asset, ThisPool, caller, amount);
    var paid := Transfer(credited, asset, ThisPool, caller, amount).value;
    CashWritten(credited, paid.cash);
    FlagsIgnoreOtherWrites(p.(core := credited).SetBorrowed(caller, i, true), paid);
    ShiftMoves(p.core, accrued, credited, paid, Borrows, i, caller, amount);
  }

  /** What a repayment takes: the request, cut to the debt. */
  function RepaidAmount(p: Pool, caller: Address, asset: Address, amount: i128): int
    requires asset in p.core.indices
  {
    AtMost(amount, p.core.BalanceOf(Borrows, p.core.indices[asset], caller))
  }

  /** The steps of a finished repayment; the cut to the outstanding balance never bites a second time. */
  lemma RepaySteps(p: Pool, env: Env, caller: Address, asset: Address, amount: i128)
    returns (i: ReserveIndex, accrued: Core, repaid: i128, paid: Core, debited: Core)
    requires SoundCore(p.core) && Repay(p, env, caller, asset, amount).Done?
    ensures asset in p.core.indices && i == p.core.indices[asset] && i in p.core.configs
    ensures SoundCore(accrued) && OnlyAccrued(p.core, accrued)
    ensures repaid >= 0 && (repaid > 0 ==> repaid == RepaidAmount(p, caller, asset, amount))
    ensures Transfer(accrued, asset, caller, ThisPool, repaid) == Done(paid)
    ensures Debit(paid, Borrows, i, accrued.configs[i], caller, repaid) == Done(debited)
    ensures Repay(p, env, caller, asset, amount).value
            == (if debited.BalanceOf(Borrows, i, caller) == 0 then p.SetBorrowed(caller, i, false) else p).(core := debited)
  {
    hide SoundCore, Accrue, Transfer, Debit, Scaled, RayMul, OnlyAccrued;
    i := ReserveOf(p.core, asset).value;
    ReserveKnown(p.core, asset);
    accrued := Accrue(p.core, i, env.now).value;
    AccrueEffect(p.core, i, env.now);
    AccruedKeepsReserves(p.core, accrued);
    CellIsSteady(accrued, i);
    var owed := accrued.BalanceOf(Borrows, i, caller);
    HeldIsNonNegative(accrued, Borrows, i, caller);
    RayMulByOne(owed);
    repaid := AtMost(amount, RayMul(owed, RAY).GetOr(0));
    paid := Transfer(accrued, asset, caller, ThisPool, repaid).value;
    TransferEffect(accrued, asset, caller, ThisPool, repaid);
    ScaledAtRay(repaid);
    debited := Debit(paid, Borrows, i, accrued.configs[i], caller, repaid).value;
  }

  lemma RepayIsSafe(p: Pool, env: Env, caller: Address, asset: Address, amount: i128)
    requires Sound(p) && caller != ThisPool && Repay(p, env, caller, asset, amount).Done?
    ensures var q := Repay(p, env, caller, asset, amount).value;
            && Sound(q) && SameSurplus(p.core, q.core)
            && var i, f := ReserveOf(p.core, asset).value, p.FlagsOf(caller);
               var repaid := RepaidAmount(p, caller, asset, amount);
               && repaid > 0
               && Moved(p.core, q.core, Borrows, i, caller, 0 - repaid)
               && Reflagged(p, q, caller,
                    if p.core.BalanceOf(Borrows, i, caller) == repaid then f.(borrowed := f.borrowed - {i}) else f)
  {
    hide SoundCore, Surplus, FlagsMatch, Transfer, Debit, Repay, RepaidAmount, Shifted, Moved;
    var i, accrued, repaid, paid, debited := RepaySteps(p, env, caller, asset, amount);
    ReserveKnown(p.core, asset);
    AccruedSurplus(p.core, accrued);
    TransferEffect(accrued, asset, caller, ThisPool, repaid);
    CashWritten(accrued, paid.cash);
    DebitEffect(paid, Borrows, i, caller, repaid);
    ShiftedSurplus(paid, debited, Borrows, i, caller, 0 - repaid as int);
    HeldIsNonNegative(debited, Borrows, i, caller);
    FlagsIgnoreOtherWrites(p, paid);
    FlagFollowsDebt(p.(core := paid), debited, i, caller, 0 - repaid as int);
    ShiftMoves(p.core, paid, debited, debited, Borrows, i, caller, 0 - repaid as int);
    MovedAt(p.core, debited, Borrows, i, caller, 0 - repaid as int);
  }

  /** A stored amount beyond the fixed-point range cannot be withdrawn, not even in part. */
  lemma OverRangeDepositIsStuck(p: Pool, env: Env, caller: Address, asset: Address, amount: i128)
    requires Sound(p) && asset in p.core.indices
    requires p.core.BalanceOf(Deposits, p.core.indices[asset], caller) * RAY + HALF_RAY > I128_MAX
    ensures Withdraw(p, env, caller, asset, amount).Panic?
  {
    hide SoundCore, FlagsMatch, Accrue, Transfer, Credit, Debit, Scaled, RayMul, HealthFactor;
    var i := p.core.indices[asset];
    ReserveKnown(p.core, asset);
    if Withdraw(p, env, caller, asset, amount).Done? {
      AccrueEffect(p.core, i, env.now);
      CellIsSteady(Accrue(p.core, i, env.now).value, i);
      HeldIsNonNegative(p.core, Deposits, i, caller);
      RayMulByOne(p.core.BalanceOf(Deposits, i, caller));
    }
  }

  /** Nor can a debt beyond that range be repaid: it reads as zero, and burning nothing panics. */
  lemma OverRangeDebtIsStuck(p: Pool, env: Env, caller: Address, asset: Address, amount: i128)
    requires Sound(p) && asset in p.core.indices
    requires p.core.BalanceOf(Borrows, p.core.indices[asset], caller) * RAY + HALF_RAY > I128_MAX
    ensures Repay(p, env, caller, asset, amount).Panic?
  {
    hide SoundCore, FlagsMatch, Accrue, Transfer, Credit, Debit, Scaled, RayMul;
    var i := p.core.indices[asset];
    ReserveKnown(p.core, asset);
    if Repay(p, env, caller, asset, amount).Done? {
      AccrueEffect(p.core, i, env.now);
      var accrued := Accrue(p.core, i, env.now).value;
      CellIsSteady(accrued, i);
      HeldIsNonNegative(p.core, Borrows, i, caller);
      RayMulByOne(p.core.BalanceOf(Borrows, i, caller));
      TransferEffect(accrued, asset, caller, ThisPool, 0);
      var paid := Transfer(accrued, asset, caller, ThisPool, 0).value;
      ScaledAtRay(0);
      CashWritten(accrued, paid.cash);
      DebitEffect(paid, Borrows, i, caller, 0);
    }
  }

  lemma ToggleIsSafe(p: Pool, env: Env, caller: Address, asset: Address, on: bool)
    requires Sound(p) && ToggleCollateral(p, env, caller, asset, on).Done?
    ensures var q := ToggleCollateral(p, env, caller, asset, on).value;
            && Sound(q) && SameSurplus(p.core, q.core)
            && q.core.books == p.core.books
            && var i, f := ReserveOf(p.core, asset).value, p.FlagsOf(caller);
               Reflagged(p, q, caller, f.(collateral := Toggled(f.collateral, i, on)))
  {
    hide SoundCore, Surplus, FlagsMatch, Shifted, OnlyAccrued, Moved;
    hide Accrue, Transfer, Credit, Debit, Scaled, RayMul, HealthFactor;
    var i := ReserveOf(p.core, asset).value;
    ReserveKnown(p.core, asset);
    var accrued := Accrue(p.core, i, env.now).value;
    AccrueEffect(p.core, i, env.now);
    AccruedSurplus(p.core, accrued);
    FlagsIgnoreOtherWrites(p, accrued);
    FlagsIgnoreCollateral(p.(core := accrued), caller, i, on);
  }

  // ----- listing a reserve -----

  /** A new asset with fresh token contracts and a sane rate model. */
  predicate Admissible(c: Core, config: ReserveConfig, rate: RateConfig) {
    && config.asset !in c.indices
    && config.aToken != config.debtToken
    && (forall i <- c.configs, s: Side ::
          c.configs[i].TokenAt(s) != config.aToken && c.configs[i].TokenAt(s) != config.debtToken)
    && c.TokenOf(config.aToken) == EMPTY_LEDGER && c.TokenOf(config.debtToken) == EMPTY_LEDGER
    && config.reserveFactor <= PERCENTAGE_FACTOR
    && SaneRates(rate)
  }

  lemma ListingStaysRegistered(p: Pool, config: ReserveConfig, rate: RateConfig)
    requires Registered(p.core) && Admissible(p.core, config, rate) && AddReserve(p, config, rate).Done?
    ensures Registered(AddReserve(p, config, rate).value.core)
  {
    NewTokensAreOwn(p.core, config);
    hide OwnTokens;
  }

  lemma NewTokensAreOwn(c: Core, config: ReserveConfig)
    requires c.count < 64 && c.count !in c.configs && OwnTokens(c.configs) && config.aToken != config.debtToken
    requires forall i <- c.configs, s: Side ::
               c.configs[i].TokenAt(s) != config.aToken && c.configs[i].TokenAt(s) != config.debtToken
    ensures OwnTokens(c.configs[c.count := config])
  {
  }

  lemma ListingKeepsMirrors(c: Core, config: ReserveConfig, rate: RateConfig)
    requires SoundCore(c) && Admissible(c, config, rate) && c.count < 64
    ensures var d := Listed(c, config, rate); forall j <- d.configs, s: Side :: Mirrored(d, s, j)
  {
    assert c.count !in c.configs;
    hide Registered;
    var d := Listed(c, config, rate);
    forall j <- d.configs, s: Side ensures Mirrored(d, s, j) {
      if j != c.count { assert Mirrored(c, s, j); }
    }
  }

  lemma ListedSurplus(c: Core, config: ReserveConfig, rate: RateConfig)
    requires SoundCore(c) && c.count < 64
    ensures forall j: ReserveIndex ::
              Surplus(Listed(c, config, rate), j) == Surplus(c, j) +
                if j == c.count then c.CashOf(config.asset, ThisPool) else 0
  {
    assert c.count !in c.configs;
    hide Registered;
    assert forall s: Side :: (s, c.count) !in c.books;
  }

  /** Listing brings in whatever the pool already holds of the asset. */
  lemma AddReserveIsSafe(p: Pool, config: ReserveConfig, rate: RateConfig)
    requires Sound(p) && Admissible(p.core, config, rate) && AddReserve(p, config, rate).Done?
    ensures var q := AddReserve(p, config, rate).value;
            && Sound(q)
            && (forall j: ReserveIndex :: Surplus(q.core, j) == Surplus(p.core, j) +
                  if j == p.core.count then p.core.CashOf(config.asset, ThisPool) else 0)
  {
    ListingStaysRegistered(p, config, rate);
    ListingKeepsMirrors(p.core, config, rate);
    ListedSurplus(p.core, config, rate);
    var q := AddReserve(p, config, rate).value;
    assert q.core == Listed(p.core, config, rate);
    FlagsIgnoreOtherWrites(p, q.core);
    hide Registered, Mirrored, Surplus, FlagsMatch;
  }
}
