/** Exactly when a liquidation finishes, and the cash it moves. */
module PoolLiquidationOutcomes {
  import opened Prelude
  import opened PoolMath
  import opened ScaledToken
  import opened Pool
  import opened PoolInvariant
  import opened PoolSafety
  import opened PoolLiquidation
  import opened PoolOutcomes

  // ----- the burns -----

  lemma BurnPartExactlyWhen(p: Pool, side: Side, i: ReserveIndex, user: Address, amount: i128)
    requires Sound(p) && i in p.core.configs && amount > 0
    ensures BurnPart(p, side, i, user, amount, RAY).Done?
            <==> p.core.BalanceOf(side, i, user) > 0 ==> amount * RAY <= I128_MAX
    ensures BurnPart(p, side, i, user, amount, RAY).Done? ==>
              var d := BurnPart(p, side, i, user, amount, RAY).value.core;
              d.cash == p.core.cash && d.cells == p.core.cells && SameListing(p.core, d)
  {
    hide SoundCore, FlagsMatch, Debit, Scaled, SameListing;
    var held := p.core.BalanceOf(side, i, user);
    if held > 0 {
      ScaledAtRay(amount);
      DebitEffect(p.core, side, i, user, AtMost(amount, held));
      DebitKeepsListing(p.core, side, i, p.core.configs[i], user, AtMost(amount, held));
      DebitKeepsCash(p.core, side, i, p.core.configs[i], user, AtMost(amount, held));
      DebitKeepsCells(p.core, side, i, p.core.configs[i], user, AtMost(amount, held));
    } else {
      assert SameListing(p.core, p.core) by { ListingIsItself(p.core); }
    }
  }

  lemma ListingIsItself(c: Core)
    ensures SameListing(c, c)
  {
  }

  lemma DebitKeepsCells(c: Core, side: Side, i: ReserveIndex, config: ReserveConfig, user: Address, x: i128)
    ensures Debit(c, side, i, config, user, x).Done? ==> Debit(c, side, i, config, user, x).value.cells == c.cells
  {
    hide Burn;
  }

  // ----- writing off -----

  /** The deficit can take the part of a debt that gets recorded. */
  predicate Recordable(c: Core, user: Address, j: ReserveIndex) {
    var owed := c.BalanceOf(Borrows, j, user);
    c.CellOf(j).deficit + owed - Unrecorded(owed) <= I128_MAX
  }

  lemma WipeOneExactlyWhen(c: Core, user: Address, i: ReserveIndex)
    requires SoundCore(c) && i in c.configs
    ensures WipeOne(c, user, i).Done? <==> Recordable(c, user, i)
  {
    hide SoundCore, Debit, RayMul, Core.CellOf;
    var owed := c.BalanceOf(Borrows, i, user);
    HeldIsNonNegative(c, Borrows, i, user);
    CellIsSteady(c, i);
    if owed > 0 {
      RayMulByOne(owed);
      var deficit := c.CellOf(i).deficit + RayMul(owed, RAY).GetOr(0);
      if InI128(deficit) {
        CellWritten(c, i, c.CellOf(i).(deficit := deficit));
        DebitEffect(c.(cells := c.cells[i := c.CellOf(i).(deficit := deficit)]), Borrows, i, user, owed);
      }
    }
  }

  lemma {:induction false} WipeExactlyWhen(c: Core, borrowed: set<nat>, user: Address, n: ReserveCount)
    requires SoundCore(c) && n <= c.count
    ensures Wipe(c, borrowed, user, n).Done?
            <==> forall j: ReserveIndex | 0 <= j < n :: j in borrowed ==> Recordable(c, user, j)
  {
    hide SoundCore, WipeOne, Wiped, Recordable;
    if n > 0 {
      WipeExactlyWhen(c, borrowed, user, n - 1);
      if Wipe(c, borrowed, user, n - 1).Done? && n - 1 in borrowed {
        var before := Wipe(c, borrowed, user, n - 1).value;
        WipeEffect(c, borrowed, user, n - 1);
        WipedKeepsReserves(c, before, user, FirstOf(borrowed, n - 1), n - 1);
        WipeOneExactlyWhen(before, user, n - 1);
        NotYetWiped(c, before, user, FirstOf(borrowed, n - 1), n - 1);
      }
    }
  }

  lemma NotYetWiped(c: Core, d: Core, user: Address, chosen: set<nat>, i: ReserveIndex)
    requires Wiped(c, d, user, chosen) && i !in chosen
    ensures Recordable(d, user, i) <==> Recordable(c, user, i)
  {
    hide Surplus, Unrecorded;
    assert d.BalanceOf(Borrows, i, user) == c.BalanceOf(Borrows, i, user);
  }

  lemma SocializeExactlyWhen(p: Pool, borrower: Address, k: ReserveIndex)
    requires Sound(p)
    ensures Socialize(p, borrower, k).Done?
            <==> (Wipes(p, borrower, k) ==> forall j: ReserveIndex | 0 <= j < 64 :: Recordable(p.core, borrower, j))
    ensures Socialize(p, borrower, k).Done? ==>
              var d := Socialize(p, borrower, k).value.core; d.cash == p.core.cash && SameListing(p.core, d)
  {
    hide SoundCore, FlagsMatch, Wipe, HasCollateral, Recordable, SameListing;
    ListingIsItself(p.core);
    if Wipes(p, borrower, k) {
      var f := p.FlagsOf(borrower);
      WipeExactlyWhen(p.core, f.borrowed, borrower, p.core.count);
      FlaggedAreAllDebts(p, borrower);
      forall j: ReserveIndex | j !in FirstOf(f.borrowed, p.core.count) ensures Recordable(p.core, borrower, j) {
        NoDebtIsRecordable(p.core, borrower, j);
      }
      if Wipe(p.core, f.borrowed, borrower, p.core.count).Done? {
        WipeEffect(p.core, f.borrowed, borrower, p.core.count);
        WipedKeepsListing(p.core, Wipe(p.core, f.borrowed, borrower, p.core.count).value, borrower,
                          FirstOf(f.borrowed, p.core.count));
      }
    }
  }

  lemma WipedKeepsListing(c: Core, d: Core, user: Address, chosen: set<nat>)
    requires Wiped(c, d, user, chosen)
    ensures SameListing(c, d) && d.cash == c.cash
  {
  }

  lemma NoDebtIsRecordable(c: Core, user: Address, j: ReserveIndex)
    requires c.BalanceOf(Borrows, j, user) == 0
    ensures Recordable(c, user, j)
  {
  }

  // ----- the whole hook -----

  lemma AccruedCellIgnoresCash(c: Core, cash: Cash, i: ReserveIndex, now: u64)
    requires now > c.CellOf(i).lastUpdate
    ensures c.(cash := cash).CellOf(i) == c.CellOf(i)
    ensures AccruedCell(c.(cash := cash), i, now) == AccruedCell(c, i, now)
  {
    hide CompoundedInterest, RayMul, UtilizationRate, SupplyRate, LinearInterest, BorrowRate;
    var d := c.(cash := cash);
    assert d.BookOf(Deposits, i) == c.BookOf(Deposits, i) && d.BookOf(Borrows, i) == c.BookOf(Borrows, i);
    assert ConfigOf(d, i) == ConfigOf(c, i);
  }

  lemma AccrueIgnoresCash(c: Core, cash: Cash, i: ReserveIndex, now: u64)
    ensures var a, b := Accrue(c.(cash := cash), i, now), Accrue(c, i, now);
            a.Done? == b.Done? && (a.Done? ==> a.value == b.value.(cash := cash))
  {
    hide AccruedCell;
    assert c.(cash := cash).CellOf(i) == c.CellOf(i);
    if now > c.CellOf(i).lastUpdate {
      AccruedCellIgnoresCash(c, cash, i, now);
    }
  }

  /** The accruals of both reserves, one after the other. */
  predicate AccrueBoth(c: Core, d: ReserveIndex, k: ReserveIndex, now: u64) {
    Accrue(c, d, now).Done? && Accrue(Accrue(c, d, now).value, k, now).Done?
  }

  /** Each burn that takes place can be scaled. */
  predicate Scalable(c: Core, user: Address, d: ReserveIndex, k: ReserveIndex, repay: i128, seize: i128) {
    && (c.BalanceOf(Borrows, d, user) > 0 ==> repay * RAY <= I128_MAX)
    && (c.BalanceOf(Deposits, k, user) > 0 ==> seize * RAY <= I128_MAX)
  }

  ghost predicate SameDeficits(c: Core, d: Core) {
    forall j: ReserveIndex :: d.CellOf(j).deficit == c.CellOf(j).deficit
  }

  lemma AccruedDeficits(c: Core, d: Core, e: Core, f: Core)
    requires c.cells == d.cells && OnlyAccrued(d, e) && f.cells == e.cells
    ensures SameDeficits(c, f)
  {
    forall j: ReserveIndex ensures c.CellOf(j) == d.CellOf(j) && f.CellOf(j) == e.CellOf(j) {}
  }

  lemma TwoAccruals(c: Core, d: Core, e: Core)
    requires OnlyAccrued(c, d) && OnlyAccrued(d, e)
    ensures OnlyAccrued(c, e)
  {
  }

  /** The two burns on an accrued state. */
  lemma BurnsExactlyWhen(p: Pool, borrower: Address, d: ReserveIndex, k: ReserveIndex, repay: i128, seize: i128)
    requires Sound(p) && d in p.core.configs && k in p.core.configs && repay > 0 && seize > 0
    ensures var r := BurnPart(p, Borrows, d, borrower, repay, RAY);
            var s := if r.Done? then BurnPart(r.value, Deposits, k, borrower, seize, RAY) else Panic;
            && (s.Done? <==> Scalable(p.core, borrower, d, k, repay, seize))
            && (s.Done? ==> s.value.core.cash == p.core.cash && s.value.core.cells == p.core.cells
                            && SameListing(p.core, s.value.core))
  {
    hide SoundCore, FlagsMatch, BurnPart, Surplus, SameListing;
    BurnPartExactlyWhen(p, Borrows, d, borrower, repay);
    if BurnPart(p, Borrows, d, borrower, repay, RAY).Done? {
      var q := BurnPart(p, Borrows, d, borrower, repay, RAY).value;
      BurnPartEffect(p, Borrows, d, borrower, repay);
      BurnPartExactlyWhen(q, Deposits, k, borrower, seize);
      if BurnPart(q, Deposits, k, borrower, seize, RAY).Done? {
        SameListingTwice(p.core, q.core, BurnPart(q, Deposits, k, borrower, seize, RAY).value.core);
      }
    }
  }

  lemma SameListingTwice(c: Core, d: Core, e: Core)
    requires SameListing(c, d) && SameListing(d, e)
    ensures SameListing(c, e)
  {
  }

  lemma SettleExactlyWhen(p: Pool, env: Env, liquidator: Address, borrower: Address,
                          debtAsset: Address, collateralAsset: Address, repay: i128, seize: i128)
    requires Sound(p) && liquidator != ThisPool && repay > 0 && seize > 0
    ensures var r := Settle(p, env, liquidator, borrower, debtAsset, collateralAsset, repay, seize);
            && (r.Done? <==>
                  && Payable(p.core.cash, collateralAsset, ThisPool, liquidator, seize)
                  && debtAsset in p.core.indices && collateralAsset in p.core.indices
                  && var d, k := p.core.indices[debtAsset], p.core.indices[collateralAsset];
                     AccrueBoth(p.core, d, k, env.now) && Scalable(p.core, borrower, d, k, repay, seize))
            && (r.Done? ==>
                  && r.value.core.cash == MovedCash(p.core.cash, collateralAsset, ThisPool, liquidator, seize)
                  && SameListing(p.core, r.value.core) && SameDeficits(p.core, r.value.core))
  {
    hide SoundCore, FlagsMatch, Accrue, Transfer, BurnPart, Payable, MovedCash, OnlyAccrued, SameDeficits;
    TransferMovesCash(p.core, collateralAsset, ThisPool, liquidator, seize);
    if Payable(p.core.cash, collateralAsset, ThisPool, liquidator, seize)
      && debtAsset in p.core.indices && collateralAsset in p.core.indices
    {
      var d, k := p.core.indices[debtAsset], p.core.indices[collateralAsset];
      var cash := MovedCash(p.core.cash, collateralAsset, ThisPool, liquidator, seize);
      ReserveKnown(p.core, debtAsset);
      ReserveKnown(p.core, collateralAsset);
      AccrueIgnoresCash(p.core, cash, d, env.now);
      if Accrue(p.core, d, env.now).Done? {
        AccrueIgnoresCash(Accrue(p.core, d, env.now).value, cash, k, env.now);
        if AccrueBoth(p.core, d, k, env.now) {
          SettleTail(p, env, borrower, d, k, repay, seize, cash);
        }
      }
    }
  }

  lemma SettleTail(p: Pool, env: Env, borrower: Address, d: ReserveIndex, k: ReserveIndex, repay: i128, seize: i128,
                   cash: Cash)
    requires Sound(p) && d in p.core.configs && k in p.core.configs && repay > 0 && seize > 0
    requires AccrueBoth(p.core, d, k, env.now)
    ensures var a1 := Accrue(p.core, d, env.now).value;
            var a2 := Accrue(a1, k, env.now).value;
            && a1.(cash := cash).CellOf(d).borrowIndex == RAY && a2.(cash := cash).CellOf(k).liquidityIndex == RAY
            && var r := BurnPart(p.(core := a2.(cash := cash)), Borrows, d, borrower, repay, RAY);
               var s := if r.Done? then BurnPart(r.value, Deposits, k, borrower, seize, RAY) else Panic;
               && (s.Done? <==> Scalable(p.core, borrower, d, k, repay, seize))
               && (s.Done? ==> s.value.core.cash == cash && SameListing(p.core, s.value.core)
                               && SameDeficits(p.core, s.value.core))
  {
    hide SoundCore, FlagsMatch, Accrue, BurnPart, OnlyAccrued, SameDeficits;
    var a1 := Accrue(p.core, d, env.now).value;
    AccrueEffect(p.core, d, env.now);
    AccruedKeepsRest(p.core, a1);
    var a2 := Accrue(a1, k, env.now).value;
    AccrueEffect(a1, k, env.now);
    AccruedKeepsRest(a1, a2);
    TwoAccruals(p.core, a1, a2);
    CashWritten(a1, cash);
    CashWritten(a2, cash);
    CellIsSteady(a1.(cash := cash), d);
    CellIsSteady(a2.(cash := cash), k);
    var p1 := p.(core := a2.(cash := cash));
    FlagsIgnoreOtherWrites(p, p1.core);
    BurnsExactlyWhen(p1, borrower, d, k, repay, seize);
    assert p1.core.BalanceOf(Borrows, d, borrower) == p.core.BalanceOf(Borrows, d, borrower);
    assert p1.core.BalanceOf(Deposits, k, borrower) == p.core.BalanceOf(Deposits, k, borrower);
    var r := BurnPart(p1, Borrows, d, borrower, repay, RAY);
    if r.Done? && BurnPart(r.value, Deposits, k, borrower, seize, RAY).Done? {
      AccruedDeficits(p.core, p.core, a2, BurnPart(r.value, Deposits, k, borrower, seize, RAY).value.core);
    }
  }

  /** Whatever is written off and recorded still fits the reserve's deficit. */
  predicate DeficitsFit(p: Pool, borrower: Address, d: ReserveIndex, k: ReserveIndex, repay: i128, seize: i128) {
    LosesAll(p, k, borrower, seize) ==>
      forall j: ReserveIndex | 0 <= j < 64 ::
        var owed := Residue(p.core, d, borrower, repay, j);
        p.core.CellOf(j).deficit + owed - Unrecorded(owed) <= I128_MAX
  }

  lemma HookExactlyWhen(p: Pool, env: Env, liquidator: Address, borrower: Address,
                        debtAsset: Address, collateralAsset: Address, repay: i128, seize: i128)
    requires Sound(p) && liquidator != ThisPool
    ensures var r := LiquidationHook(p, env, liquidator, borrower, debtAsset, collateralAsset, repay, seize);
            && (r.Done? <==>
                  && !p.core.paused && repay > 0 && seize > 0
                  && Payable(p.core.cash, collateralAsset, ThisPool, liquidator, seize)
                  && debtAsset in p.core.indices && collateralAsset in p.core.indices
                  && var d, k := p.core.indices[debtAsset], p.core.indices[collateralAsset];
                     && AccrueBoth(p.core, d, k, env.now) && Scalable(p.core, borrower, d, k, repay, seize)
                     && DeficitsFit(p, borrower, d, k, repay, seize))
            && (r.Done? ==>
                  && r.value.core.cash == MovedCash(p.core.cash, collateralAsset, ThisPool, liquidator, seize)
                  && SameListing(p.core, r.value.core))
  {
    hide SoundCore, FlagsMatch, Settle, Socialize, Payable, MovedCash, SameDeficits, AccrueBoth, Scalable, DeficitsFit;
    hide Settled, SameListing;
    if !p.core.paused && repay > 0 && seize > 0 {
      SettleExactlyWhen(p, env, liquidator, borrower, debtAsset, collateralAsset, repay, seize);
      var r := Settle(p, env, liquidator, borrower, debtAsset, collateralAsset, repay, seize);
      if r.Done? {
        var d, k := p.core.indices[debtAsset], p.core.indices[collateralAsset];
        SettleEffect(p, env, liquidator, borrower, debtAsset, collateralAsset, repay, seize);
        SocializeExactlyWhen(r.value, borrower, k);
        DeficitsSettled(p, r.value, borrower, d, k, repay, seize);
        if Socialize(r.value, borrower, k).Done? {
          SameListingTwice(p.core, r.value.core, Socialize(r.value, borrower, k).value.core);
        }
      }
    }
  }

  lemma DeficitsSettled(p: Pool, q: Pool, borrower: Address, d: ReserveIndex, k: ReserveIndex, repay: i128, seize: i128)
    requires SoundCore(p.core) && Settled(p, q, borrower, d, k, repay, seize) && SameDeficits(p.core, q.core)
    requires seize > 0
    ensures DeficitsFit(p, borrower, d, k, repay, seize)
            <==> (Wipes(q, borrower, k) ==> forall j: ReserveIndex | 0 <= j < 64 :: Recordable(q.core, borrower, j))
  {
    hide SoundCore, Settled, Wipes, LosesAll, Unrecorded, Residue;
    HeldIsNonNegative(p.core, Deposits, k, borrower);
    WipesExactlyWhenAllIsLost(p, q, borrower, d, k, repay, seize);
    forall j: ReserveIndex
      ensures var owed := Residue(p.core, d, borrower, repay, j);
              Recordable(q.core, borrower, j) <==> p.core.CellOf(j).deficit + owed - Unrecorded(owed) <= I128_MAX
    {
      assert q.core.BalanceOf(Borrows, j, borrower) == Residue(p.core, d, borrower, repay, j);
    }
  }

  /** The cash of a whole liquidation: in from the liquidator, then out to the liquidator. */
  predicate LiquidationPayable(cash: Cash, debtAsset: Address, collateralAsset: Address, liquidator: Address,
                               repay: i128, seize: i128) {
    && Payable(cash, debtAsset, liquidator, ThisPool, repay)
    && Payable(MovedCash(cash, debtAsset, liquidator, ThisPool, repay), collateralAsset, ThisPool, liquidator, seize)
  }

  lemma LiquidateExactlyWhen(p: Pool, env: Env, liquidator: Address, borrower: Address,
                             debtAsset: Address, collateralAsset: Address, repay: i128, seize: i128)
    requires Sound(p) && liquidator != ThisPool
    ensures var r := Liquidate(p, env, liquidator, borrower, debtAsset, collateralAsset, repay, seize);
            && (r.Done? <==>
                  && !p.core.paused && repay > 0 && seize > 0
                  && LiquidationPayable(p.core.cash, debtAsset, collateralAsset, liquidator, repay, seize)
                  && debtAsset in p.core.indices && collateralAsset in p.core.indices
                  && var d, k := p.core.indices[debtAsset], p.core.indices[collateralAsset];
                     && AccrueBoth(p.core, d, k, env.now) && Scalable(p.core, borrower, d, k, repay, seize)
                     && DeficitsFit(p, borrower, d, k, repay, seize))
            && (r.Done? ==>
                  && r.value.core.cash
                     == MovedCash(MovedCash(p.core.cash, debtAsset, liquidator, ThisPool, repay),
                                  collateralAsset, ThisPool, liquidator, seize)
                  && SameListing(p.core, r.value.core))
  {
    hide SoundCore, FlagsMatch, LiquidationHook, Transfer, Payable, MovedCash, AccrueBoth, Scalable, DeficitsFit;
    hide SameListing;
    TransferMovesCash(p.core, debtAsset, liquidator, ThisPool, repay);
    if Payable(p.core.cash, debtAsset, liquidator, ThisPool, repay) {
      var cash := MovedCash(p.core.cash, debtAsset, liquidator, ThisPool, repay);
      var p1 := p.(core := p.core.(cash := cash));
      CashWritten(p.core, cash);
      FlagsIgnoreOtherWrites(p, p1.core);
      HookExactlyWhen(p1, env, liquidator, borrower, debtAsset, collateralAsset, repay, seize);
      ListingIgnoresCash(p.core, cash);
      if debtAsset in p.core.indices && collateralAsset in p.core.indices {
        HookReadsNoCash(p, cash, borrower, p.core.indices[debtAsset], p.core.indices[collateralAsset], repay, seize,
                        env.now);
      }
    }
  }

  lemma ListingIgnoresCash(c: Core, cash: Cash)
    ensures forall d: Core :: SameListing(c.(cash := cash), d) <==> SameListing(c, d)
  {
  }

  lemma HookReadsNoCash(p: Pool, cash: Cash, borrower: Address, d: ReserveIndex, k: ReserveIndex,
                        repay: i128, seize: i128, now: u64)
    ensures var q := p.(core := p.core.(cash := cash));
            && (AccrueBoth(q.core, d, k, now) <==> AccrueBoth(p.core, d, k, now))
            && (Scalable(q.core, borrower, d, k, repay, seize) <==> Scalable(p.core, borrower, d, k, repay, seize))
            && (DeficitsFit(q, borrower, d, k, repay, seize) <==> DeficitsFit(p, borrower, d, k, repay, seize))
  {
    hide Accrue, Unrecorded;
    AccrueIgnoresCash(p.core, cash, d, now);
    if Accrue(p.core, d, now).Done? {
      AccrueIgnoresCash(Accrue(p.core, d, now).value, cash, k, now);
    }
    var q := p.(core := p.core.(cash := cash));
    forall s: Side, i: ReserveIndex ensures q.core.BalanceOf(s, i, borrower) == p.core.BalanceOf(s, i, borrower) {}
    assert q.FlagsOf(borrower) == p.FlagsOf(borrower);
    assert LosesAll(q, k, borrower, seize) == LosesAll(p, k, borrower, seize);
    forall j: ReserveIndex
      ensures Residue(q.core, d, borrower, repay, j) == Residue(p.core, d, borrower, repay, j)
      ensures q.core.CellOf(j) == p.core.CellOf(j)
    {
    }
  }

  /** Every balance after a finished liquidation, from the state before it. */
  lemma LiquidateMovesExactly(p: Pool, env: Env, liquidator: Address, borrower: Address,
                              debtAsset: Address, collateralAsset: Address, repay: i128, seize: i128)
    requires Sound(p) && liquidator != ThisPool
    requires Liquidate(p, env, liquidator, borrower, debtAsset, collateralAsset, repay, seize).Done?
    ensures debtAsset in p.core.indices && collateralAsset in p.core.indices
    ensures var q := Liquidate(p, env, liquidator, borrower, debtAsset, collateralAsset, repay, seize).value;
            var d, k := p.core.indices[debtAsset], p.core.indices[collateralAsset];
            forall s: Side, j: ReserveIndex, u: Address ::
              q.core.BalanceOf(s, j, u) == BalanceAfterHook(p, borrower, d, k, repay, seize, s, j, u)
  {
    hide SoundCore, FlagsMatch, Surplus, LiquidationHook, Transfer, HookChange, BalanceAfterHook;
    var paid := Transfer(p.core, debtAsset, liquidator, ThisPool, repay).value;
    TransferEffect(p.core, debtAsset, liquidator, ThisPool, repay);
    CashWritten(p.core, paid.cash);
    FlagsIgnoreOtherWrites(p, paid);
    var p1 := p.(core := paid);
    HookIsSafe(p1, env, liquidator, borrower, debtAsset, collateralAsset, repay, seize);
    HookMovesExactly(p1, env, liquidator, borrower, debtAsset, collateralAsset, repay, seize);
    BalancesIgnoreCash(p, paid.cash, borrower, p.core.indices[debtAsset], p.core.indices[collateralAsset], repay,
                       seize);
  }

  lemma BalancesIgnoreCash(p: Pool, cash: Cash, borrower: Address, d: ReserveIndex, k: ReserveIndex, repay: i128,
                           seize: i128)
    ensures var q := p.(core := p.core.(cash := cash));
            forall s: Side, j: ReserveIndex, u: Address ::
              BalanceAfterHook(q, borrower, d, k, repay, seize, s, j, u)
              == BalanceAfterHook(p, borrower, d, k, repay, seize, s, j, u)
  {
    hide Unrecorded;
    var q := p.(core := p.core.(cash := cash));
    forall s: Side, i: ReserveIndex, u: Address ensures q.core.BalanceOf(s, i, u) == p.core.BalanceOf(s, i, u) {}
    assert q.FlagsOf(borrower) == p.FlagsOf(borrower);
    assert LosesAll(q, k, borrower, seize) == LosesAll(p, k, borrower, seize);
  }
}
