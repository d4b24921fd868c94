/** Exactly when the pool's user operations finish, told from the state before the call. */
module PoolOutcomes {
  import opened Prelude
  import opened PoolMath
  import opened ScaledToken
  import opened Pool
  import opened PoolInvariant
  import opened PoolSafety

  // ----- the steps -----

  type Cash = map<(Address, Address), i128>

  function HeldBy(cash: Cash, asset: Address, holder: Address): i128 {
    Lookup(cash, (asset, holder)).GetOr(0)
  }

  /** The asset contract lets x go from one holder to another. */
  predicate Payable(cash: Cash, asset: Address, from: Address, to: Address, x: int) {
    0 <= x <= HeldBy(cash, asset, from) && InI128(HeldBy(cash, asset, to) + x)
  }

  /** Cash moved between two holders of one asset, and nowhere else. */
  ghost predicate Paid(before: Cash, after: Cash, asset: Address, from: Address, to: Address, x: int) {
    forall a: Address, h: Address ::
      HeldBy(after, a, h) == HeldBy(before, a, h)
        + (if (a, h) == (asset, to) then x else 0) - (if (a, h) == (asset, from) then x else 0)
  }

  function MovedCash(cash: Cash, asset: Address, from: Address, to: Address, x: i128): Cash
    requires Payable(cash, asset, from, to, x)
  {
    cash[(asset, from) := HeldBy(cash, asset, from) - x][(asset, to) := HeldBy(cash, asset, to) + x]
  }

  lemma TransferMovesCash(c: Core, asset: Address, from: Address, to: Address, x: i128)
    requires from != to
    ensures Transfer(c, asset, from, to, x)
            == if Payable(c.cash, asset, from, to, x) then Done(c.(cash := MovedCash(c.cash, asset, from, to, x)))
               else Panic
  {
    hide Lookup;
    assert forall h: Address :: c.CashOf(asset, h) == HeldBy(c.cash, asset, h);
    if 0 <= x <= c.CashOf(asset, from) {
      var rest := c.CashOf(asset, from) - x;
      OtherHolderIsUnaffected(c.cash, asset, from, to, rest);
      assert c.(cash := c.cash[(asset, from) := rest]).CashOf(asset, to) == HeldBy(c.cash, asset, to);
    }
  }

  lemma OtherHolderIsUnaffected(cash: Cash, asset: Address, from: Address, to: Address, x: i128)
    requires from != to
    ensures HeldBy(cash[(asset, from) := x], asset, to) == HeldBy(cash, asset, to)
  {
  }

  lemma CashMoves(cash: Cash, asset: Address, from: Address, to: Address, x: i128)
    requires from != to && Payable(cash, asset, from, to, x)
    ensures Paid(cash, MovedCash(cash, asset, from, to, x), asset, from, to, x)
  {
  }

  lemma TransferExactlyWhen(c: Core, asset: Address, from: Address, to: Address, x: i128)
    requires from != to
    ensures Transfer(c, asset, from, to, x).Done? <==> Payable(c.cash, asset, from, to, x)
    ensures Transfer(c, asset, from, to, x).Done? ==>
              var d := Transfer(c, asset, from, to, x).value;
              d == c.(cash := d.cash) && Paid(c.cash, d.cash, asset, from, to, x)
  {
    hide Transfer, Payable, Paid, MovedCash;
    TransferMovesCash(c, asset, from, to, x);
    if Payable(c.cash, asset, from, to, x) {
      CashMoves(c.cash, asset, from, to, x);
    }
  }

  /** A user's balance never exceeds the total, so only the total can leave its range. */
  lemma CreditExactlyWhen(c: Core, side: Side, i: ReserveIndex, user: Address, x: i128)
    requires SoundCore(c) && i in c.configs
    ensures Credit(c, side, i, c.configs[i], user, x).Done? <==> x > 0 && c.BookOf(side, i).total + x <= I128_MAX
    ensures Mint(c.BookOf(side, i), user, x).Done? <==> x > 0 && c.BookOf(side, i).total + x <= I128_MAX
  {
    assert Mirrored(c, side, i);
    BalancedTotal(c.BookOf(side, i));
    CreditWritesOneBook(c, side, i, user, x);
  }

  // ----- what a health check reads -----

  /** Valuations agree on sound states that list the same reserves and hold the same balances of the user. */
  lemma {:induction false} ValuationReads(c: Core, d: Core, f: Flags, env: Env, user: Address, n: ReserveCount)
    requires SoundCore(c) && SoundCore(d) && c.configs == d.configs
    requires forall s: Side, i: ReserveIndex :: c.BalanceOf(s, i, user) == d.BalanceOf(s, i, user)
    ensures Valuation(c, f, env, user, n) == Valuation(d, f, env, user, n)
  {
    hide SoundCore, CollateralTerm, DebtTerm;
    if n > 0 {
      ValuationReads(c, d, f, env, user, n - 1);
      TermsRead(c, d, f, env, user, n - 1);
    }
  }

  lemma TermsRead(c: Core, d: Core, f: Flags, env: Env, user: Address, i: ReserveIndex)
    requires SoundCore(c) && SoundCore(d) && c.configs == d.configs
    requires forall s: Side, j: ReserveIndex :: c.BalanceOf(s, j, user) == d.BalanceOf(s, j, user)
    ensures CollateralTerm(c, f, env, user, i) == CollateralTerm(d, f, env, user, i)
    ensures DebtTerm(c, f, env, user, i) == DebtTerm(d, f, env, user, i)
  {
    hide SoundCore, WadMul, RayMul, PercentToWad, PriceOf;
    CellIsSteady(c, i);
    CellIsSteady(d, i);
    assert c.BalanceOf(Deposits, i, user) == d.BalanceOf(Deposits, i, user);
    assert c.BalanceOf(Borrows, i, user) == d.BalanceOf(Borrows, i, user);
  }

  predicate Healthy(p: Pool, env: Env, user: Address) {
    RequireHealthy(p.core, p.FlagsOf(user), env, user).Done?
  }

  predicate SafeToReduce(p: Pool, env: Env, user: Address) {
    WithdrawalGuard(p, env, user).Done?
  }

  lemma HealthReads(p: Pool, q: Pool, env: Env, user: Address)
    requires SoundCore(p.core) && SoundCore(q.core) && p.core.configs == q.core.configs && p.core.count == q.core.count
    requires forall s: Side, i: ReserveIndex :: p.core.BalanceOf(s, i, user) == q.core.BalanceOf(s, i, user)
    requires p.FlagsOf(user) == q.FlagsOf(user)
    ensures Healthy(p, env, user) <==> Healthy(q, env, user)
    ensures SafeToReduce(p, env, user) <==> SafeToReduce(q, env, user)
  {
    hide SoundCore, Valuation;
    ValuationReads(p.core, q.core, p.FlagsOf(user), env, user, p.core.count);
  }

  // ----- supply -----

  lemma SupplyExactlyWhen(p: Pool, env: Env, caller: Address, asset: Address, amount: i128)
    requires Sound(p) && caller != ThisPool
    ensures Supply(p, env, caller, asset, amount).Done?
            <==> && !p.core.paused && amount > 0 && amount * RAY <= I128_MAX
                 && asset in p.core.indices && p.core.configs[p.core.indices[asset]].isActive
                 && Accrue(p.core, p.core.indices[asset], env.now).Done?
                 && Payable(p.core.cash, asset, caller, ThisPool, amount)
                 && p.core.BookOf(Deposits, p.core.indices[asset]).total + amount <= I128_MAX
    ensures Supply(p, env, caller, asset, amount).Done? ==>
              Paid(p.core.cash, Supply(p, env, caller, asset, amount).value.core.cash, asset, caller, ThisPool, amount)
  {
    hide SoundCore, FlagsMatch, Accrue, Transfer, Credit, Scaled, OnlyAccrued, Payable, Paid;
    if asset in p.core.indices {
      ReserveKnown(p.core, asset);
      var i := p.core.indices[asset];
      if amount > 0 && Accrue(p.core, i, env.now).Done? {
        var accrued := Accrue(p.core, i, env.now).value;
        AccrueEffect(p.core, i, env.now);
        AccruedKeepsRest(p.core, accrued);
        TransferExactlyWhen(accrued, asset, caller, ThisPool, amount);
        if Transfer(accrued, asset, caller, ThisPool, amount).Done? {
          var paid := Transfer(accrued, asset, caller, ThisPool, amount).value;
          CashWritten(accrued, paid.cash);
          CellIsSteady(paid, i);
          ScaledAtRay(amount);
          CreditExactlyWhen(paid, Deposits, i, caller, amount);
          CreditKeepsCash(paid, Deposits, i, paid.configs[i], caller, amount);
        }
      }
    }
  }

  lemma AccruedKeepsRest(c: Core, d: Core)
    requires OnlyAccrued(c, d)
    ensures d == c.(cells := d.cells)
    ensures forall s: Side, i: ReserveIndex :: d.BookOf(s, i) == c.BookOf(s, i)
  {
  }

  lemma CreditKeepsCash(c: Core, side: Side, i: ReserveIndex, config: ReserveConfig, user: Address, x: i128)
    ensures Credit(c, side, i, config, user, x).Done? ==> Credit(c, side, i, config, user, x).value.cash == c.cash
  {
  }

  lemma DebitKeepsCash(c: Core, side: Side, i: ReserveIndex, config: ReserveConfig, user: Address, x: i128)
    ensures Debit(c, side, i, config, user, x).Done? ==> Debit(c, side, i, config, user, x).value.cash == c.cash
  {
  }

  // ----- withdraw -----

  /** The position a withdrawal is checked on: the shares gone, and the flag with the last of them. */
  function Withdrawn(p: Pool, i: ReserveIndex, user: Address, x: i128): Pool
    requires i in p.core.configs
  {
    match Burn(p.core.BookOf(Deposits, i), user, x)
    case Panic => p
    case Done(book) =>
      var q := p.(core := WithBook(p.core, Deposits, i, book));
      if book.BalanceOf(user) == 0 then q.SetCollateral(user, i, false) else q
  }

  lemma GuardSeesWithdrawn(p: Pool, accrued: Core, i: ReserveIndex, user: Address, x: i128, env: Env)
    requires SoundCore(p.core) && SoundCore(accrued) && accrued == p.core.(cells := accrued.cells)
    requires i in p.core.configs && Debit(accrued, Deposits, i, p.core.configs[i], user, x).Done?
    ensures var d := Debit(accrued, Deposits, i, p.core.configs[i], user, x).value;
            var q := if d.BalanceOf(Deposits, i, user) == 0 then p.(core := d).SetCollateral(user, i, false)
                     else p.(core := d);
            SafeToReduce(q, env, user) <==> SafeToReduce(Withdrawn(p, i, user, x), env, user)
  {
    hide SoundCore, Valuation, Debit, Burn, WithdrawalGuard;
    var book := p.core.BookOf(Deposits, i);
    assert accrued.BookOf(Deposits, i) == book;
    BookMirrorsToken(accrued, Deposits, i);
    DebitWritesOneBook(accrued, Deposits, i, user, x);
    DebitEffect(accrued, Deposits, i, user, x);
    BurnedBookIsSound(p.core, Deposits, i, user, x);
    var d := WithBook(accrued, Deposits, i, Burn(book, user, x).value);
    var e := WithBook(p.core, Deposits, i, Burn(book, user, x).value);
    assert d.books == e.books && d.BookOf(Deposits, i) == Burn(book, user, x).value;
    SameBooksSameBalances(d, e, user);
    var q := if d.BalanceOf(Deposits, i, user) == 0 then p.(core := d).SetCollateral(user, i, false) else p.(core := d);
    hide SafeToReduce;
    HealthReads(q, Withdrawn(p, i, user, x), env, user);
  }

  lemma BookMirrorsToken(c: Core, side: Side, i: ReserveIndex)
    requires SoundCore(c) && i in c.configs
    ensures c.BookOf(side, i) == c.TokenOf(c.configs[i].TokenAt(side))
  {
    assert Mirrored(c, side, i);
  }

  lemma SameBooksSameBalances(c: Core, d: Core, user: Address)
    requires c.books == d.books
    ensures forall s: Side, i: ReserveIndex :: c.BalanceOf(s, i, user) == d.BalanceOf(s, i, user)
  {
  }

  /** What fits the product with one ray also fits every smaller product. */
  lemma PartFits(part: int, whole: int)
    requires 0 <= part <= whole && whole * RAY + HALF_RAY <= I128_MAX
    ensures part * RAY <= I128_MAX
  {
  }

  /**
   * A withdrawal of any size finishes exactly when there is a balance whose product with one ray fits 128 bits, the
   * pool holds the cash and the receiver can take it, and the position left behind is allowed.
   */
  lemma WithdrawExactlyWhen(p: Pool, env: Env, caller: Address, asset: Address, amount: i128)
    requires Sound(p) && caller != ThisPool
    ensures Withdraw(p, env, caller, asset, amount).Done?
            <==> && !p.core.paused && amount > 0 && asset in p.core.indices
                 && var i := p.core.indices[asset];
                    var held := p.core.BalanceOf(Deposits, i, caller);
                    && Accrue(p.core, i, env.now).Done?
                    && 0 < held && held * RAY + HALF_RAY <= I128_MAX
                    && SafeToReduce(Withdrawn(p, i, caller, AtMost(amount, held)), env, caller)
                    && Payable(p.core.cash, asset, ThisPool, caller, AtMost(amount, held))
    ensures Withdraw(p, env, caller, asset, amount).Done? ==>
              var taken := AtMost(amount, p.core.BalanceOf(Deposits, p.core.indices[asset], caller));
              Paid(p.core.cash, Withdraw(p, env, caller, asset, amount).value.core.cash, asset, ThisPool, caller, taken)
  {
    hide SoundCore, FlagsMatch, Accrue, Transfer, Debit, Scaled, RayMul, OnlyAccrued, Payable, Paid, SafeToReduce;
    hide Withdrawn;
    if asset in p.core.indices {
      ReserveKnown(p.core, asset);
      var i := p.core.indices[asset];
      var held := p.core.BalanceOf(Deposits, i, caller);
      HeldIsNonNegative(p.core, Deposits, i, caller);
      if amount > 0 && !p.core.paused && Accrue(p.core, i, env.now).Done? {
        var accrued := Accrue(p.core, i, env.now).value;
        AccrueEffect(p.core, i, env.now);
        AccruedKeepsRest(p.core, accrued);
        CellIsSteady(accrued, i);
        assert accrued.BalanceOf(Deposits, i, caller) == held;
        RayMulByOne(held);
        if 0 < held && held * RAY + HALF_RAY <= I128_MAX {
          WithdrawTail(p, env, caller, asset, amount, i, accrued, held);
        }
      }
    }
  }

  lemma WithdrawTail(p: Pool, env: Env, caller: Address, asset: Address, amount: i128, i: ReserveIndex,
                     accrued: Core, held: i128)
    requires Sound(p) && SoundCore(accrued) && caller != ThisPool && amount > 0 && !p.core.paused
    requires asset in p.core.indices && i == p.core.indices[asset] && i in p.core.configs
    requires Accrue(p.core, i, env.now) == Done(accrued) && accrued == p.core.(cells := accrued.cells)
    requires accrued.CellOf(i).liquidityIndex == RAY
    requires held == accrued.BalanceOf(Deposits, i, caller) && 0 < held && held * RAY + HALF_RAY <= I128_MAX
    requires RayMul(held, RAY) == Some(held)
    ensures var taken, q := AtMost(amount, held), Withdraw(p, env, caller, asset, amount);
            && (q.Done? <==> SafeToReduce(Withdrawn(p, i, caller, taken), env, caller)
                             && Payable(p.core.cash, asset, ThisPool, caller, taken))
            && (q.Done? ==> Paid(p.core.cash, q.value.core.cash, asset, ThisPool, caller, taken))
  {
    hide SoundCore, FlagsMatch, Accrue, Transfer, Debit, Scaled, RayMul, Payable, Paid, Withdrawn, WithdrawalGuard;
    var taken := AtMost(amount, held);
    PartFits(taken, held);
    ScaledAtRay(taken);
    DebitEffect(accrued, Deposits, i, caller, taken);
    DebitKeepsCash(accrued, Deposits, i, accrued.configs[i], caller, taken);
    GuardSeesWithdrawn(p, accrued, i, caller, taken, env);
    TransferExactlyWhen(Debit(accrued, Deposits, i, accrued.configs[i], caller, taken).value, asset, ThisPool,
                        caller, taken);
  }

  // ----- borrow -----

  /** The position a borrow is checked on: the debt and its flag already there. */
  function Indebted(p: Pool, i: ReserveIndex, user: Address, x: i128): Pool
    requires i in p.core.configs
  {
    match Mint(p.core.BookOf(Borrows, i), user, x)
    case Panic => p
    case Done(book) => p.(core := WithBook(p.core, Borrows, i, book)).SetBorrowed(user, i, true)
  }

  lemma GuardSeesIndebted(p: Pool, accrued: Core, i: ReserveIndex, user: Address, x: i128, env: Env)
    requires SoundCore(p.core) && SoundCore(accrued) && accrued == p.core.(cells := accrued.cells)
    requires i in p.core.configs && Credit(accrued, Borrows, i, p.core.configs[i], user, x).Done?
    ensures var credited := Credit(accrued, Borrows, i, p.core.configs[i], user, x).value;
            var q := p.(core := credited).SetBorrowed(user, i, true);
            Healthy(q, env, user) <==> Healthy(Indebted(p, i, user, x), env, user)
  {
    hide SoundCore, Valuation, Credit, Mint;
    var book := p.core.BookOf(Borrows, i);
    assert accrued.BookOf(Borrows, i) == book;
    BookMirrorsToken(accrued, Borrows, i);
    CreditWritesOneBook(accrued, Borrows, i, user, x);
    CreditEffect(accrued, Borrows, i, user, x);
    MintedBookIsSound(p.core, Borrows, i, user, x);
    var d := WithBook(accrued, Borrows, i, Mint(book, user, x).value);
    var e := WithBook(p.core, Borrows, i, Mint(book, user, x).value);
    assert d.books == e.books;
    SameBooksSameBalances(d, e, user);
    hide Healthy;
    HealthReads(p.(core := d).SetBorrowed(user, i, true), Indebted(p, i, user, x), env, user);
  }

  /** What is left of a borrow once the debt is accrued and scaled. */
  lemma CreditedLoan(p: Pool, accrued: Core, env: Env, caller: Address, asset: Address, i: ReserveIndex, amount: i128)
    requires SoundCore(p.core) && i in p.core.configs && SoundCore(accrued) && OnlyAccrued(p.core, accrued)
    requires caller != ThisPool && amount > 0
    ensures var r := Credit(accrued, Borrows, i, p.core.configs[i], caller, amount);
            && (r.Done? <==> p.core.BookOf(Borrows, i).total + amount <= I128_MAX)
            && (r.Done? ==>
                  && (Healthy(p.(core := r.value).SetBorrowed(caller, i, true), env, caller)
                      <==> Healthy(Indebted(p, i, caller, amount), env, caller))
                  && var t := Transfer(r.value, asset, ThisPool, caller, amount);
                     && (t.Done? <==> Payable(p.core.cash, asset, ThisPool, caller, amount))
                     && (t.Done? ==> Paid(p.core.cash, t.value.cash, asset, ThisPool, caller, amount)))
  {
    hide SoundCore, Transfer, Credit, Payable, Paid, Indebted, Healthy, Pool.SetBorrowed, Core.BookOf;
    AccruedKeepsRest(p.core, accrued);
    CreditExactlyWhen(accrued, Borrows, i, caller, amount);
    if Credit(accrued, Borrows, i, p.core.configs[i], caller, amount).Done? {
      CreditKeepsCash(accrued, Borrows, i, p.core.configs[i], caller, amount);
      GuardSeesIndebted(p, accrued, i, caller, amount, env);
      TransferExactlyWhen(Credit(accrued, Borrows, i, p.core.configs[i], caller, amount).value, asset, ThisPool, caller,
                          amount);
    }
  }

  lemma BorrowExactlyWhen(p: Pool, env: Env, caller: Address, asset: Address, amount: i128)
    requires Sound(p) && caller != ThisPool
    ensures Borrow(p, env, caller, asset, amount).Done?
            <==> && !p.core.paused && amount > 0 && amount * RAY <= I128_MAX && asset in p.core.indices
                 && var i := p.core.indices[asset];
                    && p.core.configs[i].isActive && p.core.configs[i].isBorrowingEnabled
                    && Accrue(p.core, i, env.now).Done?
                    && p.core.BookOf(Borrows, i).total + amount <= I128_MAX
                    && Healthy(Indebted(p, i, caller, amount), env, caller)
                    && Payable(p.core.cash, asset, ThisPool, caller, amount)
    ensures Borrow(p, env, caller, asset, amount).Done? ==>
              Paid(p.core.cash, Borrow(p, env, caller, asset, amount).value.core.cash, asset, ThisPool, caller, amount)
  {
    hide SoundCore, FlagsMatch, Accrue, Transfer, Credit, Scaled, OnlyAccrued, Payable, Paid, Indebted, HealthFactor;
    hide Core.BookOf, Pool.FlagsOf;
    if asset in p.core.indices {
      ReserveKnown(p.core, asset);
      var i := p.core.indices[asset];
      if amount > 0 && Accrue(p.core, i, env.now).Done? {
        var accrued := Accrue(p.core, i, env.now).value;
        AccrueEffect(p.core, i, env.now);
        CellIsSteady(accrued, i);
        ScaledAtRay(amount);
        CreditedLoan(p, accrued, env, caller, asset, i, amount);
      }
    }
  }

  // ----- repay -----

  /**
   * A repayment of any size finishes exactly when there is a debt whose product with one ray fits 128 bits and the
   * caller holds the amount, cut to the debt.
   */
  lemma RepayExactlyWhen(p: Pool, env: Env, caller: Address, asset: Address, amount: i128)
    requires Sound(p) && caller != ThisPool
    ensures Repay(p, env, caller, asset, amount).Done?
            <==> && !p.core.paused && amount > 0 && asset in p.core.indices
                 && var i := p.core.indices[asset];
                    var owed := p.core.BalanceOf(Borrows, i, caller);
                    && Accrue(p.core, i, env.now).Done?
                    && 0 < owed && owed * RAY + HALF_RAY <= I128_MAX
                    && Payable(p.core.cash, asset, caller, ThisPool, AtMost(amount, owed))
    ensures Repay(p, env, caller, asset, amount).Done? ==>
              var repaid := AtMost(amount, p.core.BalanceOf(Borrows, p.core.indices[asset], caller));
              Paid(p.core.cash, Repay(p, env, caller, asset, amount).value.core.cash, asset, caller, ThisPool, repaid)
  {
    hide SoundCore, FlagsMatch, Accrue, Transfer, Debit, Scaled, RayMul, OnlyAccrued, Payable, Paid;
    if asset in p.core.indices {
      ReserveKnown(p.core, asset);
      var i := p.core.indices[asset];
      var owed := p.core.BalanceOf(Borrows, i, caller);
      HeldIsNonNegative(p.core, Borrows, i, caller);
      if amount > 0 && !p.core.paused && Accrue(p.core, i, env.now).Done? {
        var accrued := Accrue(p.core, i, env.now).value;
        AccrueEffect(p.core, i, env.now);
        AccruedKeepsRest(p.core, accrued);
        CellIsSteady(accrued, i);
        assert accrued.BalanceOf(Borrows, i, caller) == owed;
        RayMulByOne(owed);
        if owed * RAY + HALF_RAY > I128_MAX {
          OverRangeDebtIsStuck(p, env, caller, asset, amount);
        } else if 0 < owed {
          RepayTail(p, env, caller, asset, amount, i, accrued, owed);
        }
      }
    }
  }

  lemma RepayTail(p: Pool, env: Env, caller: Address, asset: Address, amount: i128, i: ReserveIndex, accrued: Core,
                  owed: i128)
    requires Sound(p) && SoundCore(accrued) && caller != ThisPool && amount > 0 && !p.core.paused
    requires asset in p.core.indices && i == p.core.indices[asset] && i in p.core.configs
    requires Accrue(p.core, i, env.now) == Done(accrued) && accrued == p.core.(cells := accrued.cells)
    requires accrued.CellOf(i).borrowIndex == RAY
    requires owed == accrued.BalanceOf(Borrows, i, caller) && 0 < owed && owed * RAY + HALF_RAY <= I128_MAX
    requires RayMul(owed, RAY) == Some(owed)
    ensures var repaid, q := AtMost(amount, owed), Repay(p, env, caller, asset, amount);
            && (q.Done? <==> Payable(p.core.cash, asset, caller, ThisPool, repaid))
            && (q.Done? ==> Paid(p.core.cash, q.value.core.cash, asset, caller, ThisPool, repaid))
  {
    hide SoundCore, FlagsMatch, Accrue, Transfer, Debit, Scaled, RayMul, Payable, Paid;
    var repaid := AtMost(amount, owed);
    PartFits(repaid, owed);
    ScaledAtRay(repaid);
    TransferExactlyWhen(accrued, asset, caller, ThisPool, repaid);
    if Transfer(accrued, asset, caller, ThisPool, repaid).Done? {
      var paid := Transfer(accrued, asset, caller, ThisPool, repaid).value;
      CashWritten(accrued, paid.cash);
      DebitEffect(paid, Borrows, i, caller, repaid);
      DebitKeepsCash(paid, Borrows, i, paid.configs[i], caller, repaid);
      assert paid.BalanceOf(Borrows, i, caller) == owed;
    }
  }

  // ----- what no user operation touches -----

  predicate SameListing(c: Core, d: Core) {
    && d.configs == c.configs && d.rates == c.rates && d.indices == c.indices
    && d.count == c.count && d.paused == c.paused
  }

  lemma AccrueKeepsListing(c: Core, i: ReserveIndex, now: u64)
    ensures Accrue(c, i, now).Done? ==> SameListing(c, Accrue(c, i, now).value)
  {
    hide AccruedCell;
  }

  lemma TransferKeepsListing(c: Core, asset: Address, from: Address, to: Address, x: i128)
    ensures Transfer(c, asset, from, to, x).Done? ==> SameListing(c, Transfer(c, asset, from, to, x).value)
  {
  }

  lemma CreditKeepsListing(c: Core, side: Side, i: ReserveIndex, config: ReserveConfig, user: Address, x: i128)
    ensures Credit(c, side, i, config, user, x).Done? ==> SameListing(c, Credit(c, side, i, config, user, x).value)
  {
    hide Mint;
  }

  lemma DebitKeepsListing(c: Core, side: Side, i: ReserveIndex, config: ReserveConfig, user: Address, x: i128)
    ensures Debit(c, side, i, config, user, x).Done? ==> SameListing(c, Debit(c, side, i, config, user, x).value)
  {
    hide Burn;
  }

  lemma SupplyKeepsListing(p: Pool, env: Env, caller: Address, asset: Address, amount: i128)
    requires Supply(p, env, caller, asset, amount).Done?
    ensures SameListing(p.core, Supply(p, env, caller, asset, amount).value.core)
  {
    hide Accrue, Transfer, Credit, Scaled;
    var i := p.core.indices[asset];
    var config := p.core.configs[i];
    AccrueKeepsListing(p.core, i, env.now);
    var accrued := Accrue(p.core, i, env.now).value;
    TransferKeepsListing(accrued, asset, caller, ThisPool, amount);
    var paid := Transfer(accrued, asset, caller, ThisPool, amount).value;
    CreditKeepsListing(paid, Deposits, i, config, caller, Scaled(amount, paid.CellOf(i).liquidityIndex).value);
  }

  lemma BorrowKeepsListing(p: Pool, env: Env, caller: Address, asset: Address, amount: i128)
    requires Borrow(p, env, caller, asset, amount).Done?
    ensures SameListing(p.core, Borrow(p, env, caller, asset, amount).value.core)
  {
    hide Accrue, Transfer, Credit, Scaled, HealthFactor;
    var i := p.core.indices[asset];
    var config := p.core.configs[i];
    AccrueKeepsListing(p.core, i, env.now);
    var accrued := Accrue(p.core, i, env.now).value;
    var scaled := Scaled(amount, accrued.CellOf(i).borrowIndex).value;
    CreditKeepsListing(accrued, Borrows, i, config, caller, scaled);
    TransferKeepsListing(Credit(accrued, Borrows, i, config, caller, scaled).value, asset, ThisPool, caller, amount);
  }

  lemma WithdrawKeepsListing(p: Pool, env: Env, caller: Address, asset: Address, amount: i128)
    requires SoundCore(p.core) && Withdraw(p, env, caller, asset, amount).Done?
    ensures SameListing(p.core, Withdraw(p, env, caller, asset, amount).value.core)
  {
    hide SoundCore, Accrue, Transfer, Debit, Withdraw, WithdrawnAmount;
    var i, accrued, taken, debited, paid := WithdrawSteps(p, env, caller, asset, amount);
    DebitKeepsListing(accrued, Deposits, i, accrued.configs[i], caller, taken);
    TransferKeepsListing(debited, asset, ThisPool, caller, taken);
  }

  /** The two positions the guards look at, as balances and flags. */
  lemma IndebtedHolds(p: Pool, i: ReserveIndex, user: Address, x: i128)
    requires SoundCore(p.core) && i in p.core.configs && Mint(p.core.BookOf(Borrows, i), user, x).Done?
    ensures var q, f := Indebted(p, i, user, x), p.FlagsOf(user);
            && SoundCore(q.core) && SameListing(p.core, q.core)
            && Moved(p.core, q.core, Borrows, i, user, x)
            && q.FlagsOf(user) == f.(borrowed := f.borrowed + {i})
  {
    hide SoundCore, Mint, Moved, Shifted;
    var d := WithBook(p.core, Borrows, i, Mint(p.core.BookOf(Borrows, i), user, x).value);
    MintedBookIsSound(p.core, Borrows, i, user, x);
    MintShifts(p.core, Borrows, i, user, x);
    ShiftMoves(p.core, p.core, d, d, Borrows, i, user, x);
  }

  lemma WithdrawnHolds(p: Pool, i: ReserveIndex, user: Address, x: i128)
    requires SoundCore(p.core) && i in p.core.configs && 0 < x <= p.core.BalanceOf(Deposits, i, user)
    ensures var q, f := Withdrawn(p, i, user, x), p.FlagsOf(user);
            && SoundCore(q.core) && SameListing(p.core, q.core)
            && Moved(p.core, q.core, Deposits, i, user, 0 - x as int)
            && q.FlagsOf(user) == if p.core.BalanceOf(Deposits, i, user) == x
                                  then f.(collateral := f.collateral - {i}) else f
  {
    hide SoundCore, Burn, Moved, Shifted;
    BurnedBookIsSound(p.core, Deposits, i, user, x);
    var book := Burn(p.core.BookOf(Deposits, i), user, x).value;
    var d := WithBook(p.core, Deposits, i, book);
    BurnShifts(p.core, Deposits, i, user, x);
    ShiftMoves(p.core, p.core, d, d, Deposits, i, user, 0 - x as int);
    MovedAt(p.core, d, Deposits, i, user, 0 - x as int);
    assert d.BookOf(Deposits, i) == book;
  }
}
