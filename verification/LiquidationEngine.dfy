/**
 * The liquidation engine in front of the pool: a session is priced when it is prepared and paid when it is executed.
 */
module LiquidationEngine {
  import opened Prelude
  import opened PoolMath
  import opened ScaledToken
  import opened Pool
  import opened PoolInvariant
  import opened PoolSafety
  import opened PoolLiquidation
  import opened PoolOutcomes
  import opened PoolLiquidationOutcomes
  import opened PoolRuns

  const SESSION_MAX_AGE: u32 := 20

  datatype Session = Session(
    liquidator: Address, borrower: Address, debtAsset: Address, collateralAsset: Address,
    cover: i128, seize: i128, createdAt: u32)

  function OrPanic(x: Option<i128>): Outcome<i128> {
    if x.Some? then Done(x.value) else Panic
  }

  /** `get_user_deposit`: the amount a balance stands for, or nothing when it is out of range. */
  function DepositOf(c: Core, i: ReserveIndex, user: Address): i128 {
    RayMul(c.BalanceOf(Deposits, i, user), c.CellOf(i).liquidityIndex).GetOr(0)
  }

  /** Collateral for the debt covered and the bonus; when that exceeds the deposit, all of it and a smaller cover. */
  function Prepare(p: Pool, env: Env, liquidator: Address, borrower: Address,
                   debtAsset: Address, collateralAsset: Address, cover: i128, ledger: u32): Outcome<Session>
  {
    var _ :- Require(cover > 0);
    var health :- HealthFactor(p.core, p.FlagsOf(borrower), env, borrower);
    var _ :- Require(health < WAD);
    var k :- ReserveOf(p.core, collateralAsset);
    var config :- ConfigOf(p.core, k);
    var bonusFactor: i128 := WAD + PercentToWad(config.liquidationBonus);
    var debtPrice :- PriceOf(env, debtAsset);
    var collateralPrice :- PriceOf(env, collateralAsset);
    var deposit := DepositOf(p.core, k, borrower);
    var debtValue :- OrPanic(WadMul(cover, debtPrice));
    var seizedValue :- OrPanic(WadMul(debtValue, bonusFactor));
    var seize :- OrPanic(WadDiv(seizedValue, collateralPrice));
    if seize <= deposit then
      Done(Session(liquidator, borrower, debtAsset, collateralAsset, cover, seize, ledger))
    else
      var depositValue :- OrPanic(WadMul(deposit, collateralPrice));
      var coverValue :- OrPanic(WadDiv(depositValue, bonusFactor));
      var smaller :- OrPanic(WadDiv(coverValue, debtPrice));
      Done(Session(liquidator, borrower, debtAsset, collateralAsset, smaller, deposit, ledger))
  }

  /** Nothing is priced or checked again: the amounts of the session go to the pool as they are. */
  function Execute(p: Pool, env: Env, s: Session, caller: Address, ledger: u32): Outcome<Pool> {
    var _ :- Require(s.liquidator == caller);
    var _ :- Require(s.createdAt + SESSION_MAX_AGE <= U32_MAX && ledger <= s.createdAt + SESSION_MAX_AGE);
    Liquidate(p, env, s.liquidator, s.borrower, s.debtAsset, s.collateralAsset, s.cover, s.seize)
  }

  /** A prepared session belongs to an unhealthy borrower and asks for no more shares than there are at that moment. */
  lemma PreparedWithinDeposit(p: Pool, env: Env, liquidator: Address, borrower: Address,
                              debtAsset: Address, collateralAsset: Address, cover: i128, ledger: u32)
    requires Sound(p) && Prepare(p, env, liquidator, borrower, debtAsset, collateralAsset, cover, ledger).Done?
    ensures var s := Prepare(p, env, liquidator, borrower, debtAsset, collateralAsset, cover, ledger).value;
            && !Healthy(p, env, borrower)
            && collateralAsset in p.core.indices
            && s.seize <= p.core.BalanceOf(Deposits, p.core.indices[collateralAsset], borrower)
  {
    hide SoundCore, FlagsMatch, HealthFactor, WadMul, WadDiv, PriceOf, PercentToWad, Core.BookOf, Core.CellOf;
    var k := p.core.indices[collateralAsset];
    CellIsSteady(p.core, k);
    HeldIsNonNegative(p.core, Deposits, k, borrower);
    RayMulByOne(p.core.BalanceOf(Deposits, k, borrower));
  }

  /**
   * Executed on the very state it was prepared on, a session between two reserves is conservative exactly when its
   * cover is owed and nothing is written off unrecorded: the engine bounds the seizure, but never the cover.
   */
  lemma ExecutedAtOnceConservesExactlyWhen(p: Pool, env: Env, s: Session, cover: i128, ledger: u32)
    requires Sound(p) && s.liquidator != ThisPool && s.debtAsset != s.collateralAsset
    requires Prepare(p, env, s.liquidator, s.borrower, s.debtAsset, s.collateralAsset, cover, ledger) == Done(s)
    requires Execute(p, env, s, s.liquidator, ledger).Done?
    ensures s.debtAsset in p.core.indices && s.collateralAsset in p.core.indices
    ensures var d, k := p.core.indices[s.debtAsset], p.core.indices[s.collateralAsset];
            SameSurplus(p.core, Execute(p, env, s, s.liquidator, ledger).value.core)
            <==> && s.cover <= p.core.BalanceOf(Borrows, d, s.borrower)
                 && (LosesAll(p, k, s.borrower, s.seize) ==>
                       forall j: ReserveIndex | 0 <= j < 64 ::
                         Unrecorded(Residue(p.core, d, s.borrower, s.cover, j)) == 0)
  {
    hide SoundCore, FlagsMatch, Surplus, Liquidate, Prepare, LosesAll, Unrecorded, Residue, Burned, SameSurplus;
    PreparedWithinDeposit(p, env, s.liquidator, s.borrower, s.debtAsset, s.collateralAsset, cover, ledger);
    LiquidationConservesExactlyWhen(p, env, s.liquidator, s.borrower, s.debtAsset, s.collateralAsset, s.cover, s.seize);
    ReserveKnown(p.core, s.debtAsset);
    ReserveKnown(p.core, s.collateralAsset);
  }

  /**
   * After a liquidation that took all of the borrower's shares of an asset, a second one on the same collateral pays
   * its seizure out of everybody else's tokens: the surplus falls by all of it, less what the same reserve is overpaid.
   */
  lemma SecondSeizureIsUnbacked(p: Pool, env: Env, first: Session, second: Session, env': Env)
    requires Sound(p) && first.liquidator != ThisPool && second.liquidator != ThisPool
    requires first.borrower == second.borrower && first.collateralAsset == second.collateralAsset
    requires Liquidate(p, env, first.liquidator, first.borrower, first.debtAsset, first.collateralAsset,
                       first.cover, first.seize).Done?
    requires first.collateralAsset in p.core.indices
    requires p.core.BalanceOf(Deposits, p.core.indices[first.collateralAsset], first.borrower) <= first.seize
    requires var q := Liquidate(p, env, first.liquidator, first.borrower, first.debtAsset, first.collateralAsset,
                                first.cover, first.seize).value;
             Liquidate(q, env', second.liquidator, second.borrower, second.debtAsset, second.collateralAsset,
                       second.cover, second.seize).Done?
    ensures var k := p.core.indices[first.collateralAsset];
            var q := Liquidate(p, env, first.liquidator, first.borrower, first.debtAsset, first.collateralAsset,
                               first.cover, first.seize).value;
            var r := Liquidate(q, env', second.liquidator, second.borrower, second.debtAsset, second.collateralAsset,
                               second.cover, second.seize).value;
            Surplus(r.core, k) == Surplus(q.core, k) - second.seize
              + if second.debtAsset != second.collateralAsset then 0
                else second.cover - Burned(q.core, Borrows, k, second.borrower, second.cover)
  {
    hide SoundCore, FlagsMatch, Surplus, Liquidate, LosesAll, Unrecorded, Residue, Burned;
    var k := p.core.indices[first.collateralAsset];
    var q := Liquidate(p, env, first.liquidator, first.borrower, first.debtAsset, first.collateralAsset,
                       first.cover, first.seize).value;
    LiquidateIsSafe(p, env, first.liquidator, first.borrower, first.debtAsset, first.collateralAsset, first.cover,
                    first.seize);
    AllSharesTaken(p, env, first, k);
    LiquidateIsSafe(q, env', second.liquidator, second.borrower, second.debtAsset, second.collateralAsset,
                    second.cover, second.seize);
    ReserveKnown(q.core, second.debtAsset);
    ReserveKnown(q.core, second.collateralAsset);
    LiquidationAmountsArePositive(q, env', second.liquidator, second.borrower, second.debtAsset, second.collateralAsset,
                                  second.cover, second.seize);
    NothingHeldNothingBurned(q, k, second.borrower, second.seize, q.core.indices[second.debtAsset], second.cover);
  }

  /** Such a first liquidation leaves no shares, and either other flagged collateral or no debt at all. */
  lemma AllSharesTaken(p: Pool, env: Env, s: Session, k: ReserveIndex)
    requires Sound(p) && s.liquidator != ThisPool
    requires s.collateralAsset in p.core.indices && k == p.core.indices[s.collateralAsset]
    requires Liquidate(p, env, s.liquidator, s.borrower, s.debtAsset, s.collateralAsset, s.cover, s.seize).Done?
    requires p.core.BalanceOf(Deposits, k, s.borrower) <= s.seize
    ensures var q :=
              Liquidate(p, env, s.liquidator, s.borrower, s.debtAsset, s.collateralAsset, s.cover, s.seize).value;
            && q.core.indices == p.core.indices
            && q.core.BalanceOf(Deposits, k, s.borrower) == 0
            && (HasCollateral(q.core, q.FlagsOf(s.borrower), s.borrower, q.core.count)
                || forall j: ReserveIndex :: q.core.BalanceOf(Borrows, j, s.borrower) == 0)
  {
    hide SoundCore, FlagsMatch, Surplus, LiquidationHook, Transfer, LosesAll, Residue, HasCollateral, SameListing;
    LiquidationAmountsArePositive(p, env, s.liquidator, s.borrower, s.debtAsset, s.collateralAsset, s.cover, s.seize);
    var paid := Transfer(p.core, s.debtAsset, s.liquidator, ThisPool, s.cover).value;
    TransferEffect(p.core, s.debtAsset, s.liquidator, ThisPool, s.cover);
    CashWritten(p.core, paid.cash);
    FlagsIgnoreOtherWrites(p, paid);
    var p1 := p.(core := paid);
    HookIsSafe(p1, env, s.liquidator, s.borrower, s.debtAsset, s.collateralAsset, s.cover, s.seize);
    HookExactlyWhen(p1, env, s.liquidator, s.borrower, s.debtAsset, s.collateralAsset, s.cover, s.seize);
    HookMovesExactly(p1, env, s.liquidator, s.borrower, s.debtAsset, s.collateralAsset, s.cover, s.seize);
    HookEndsInOneOfThree(p1, env, s.liquidator, s.borrower, s.debtAsset, s.collateralAsset, s.cover, s.seize);
    var q := LiquidationHook(p1, env, s.liquidator, s.borrower, s.debtAsset, s.collateralAsset, s.cover, s.seize).value;
    assert q.core.indices == p.core.indices by { ListingHasIndices(p1.core, q.core); }
    HeldIsNonNegative(p.core, Deposits, k, s.borrower);
    assert p1.core.BalanceOf(Deposits, k, s.borrower) == p.core.BalanceOf(Deposits, k, s.borrower);
    assert q.core.BalanceOf(Deposits, k, s.borrower)
           == BalanceAfterHook(p1, s.borrower, p.core.indices[s.debtAsset], k, s.cover, s.seize, Deposits, k,
                               s.borrower);
  }

  lemma ListingHasIndices(c: Core, d: Core)
    requires SameListing(c, d)
    ensures d.indices == c.indices
  {
  }

  lemma NothingHeldNothingBurned(q: Pool, k: ReserveIndex, user: Address, seize: i128, d: ReserveIndex, cover: i128)
    requires Sound(q) && seize > 0 && q.core.BalanceOf(Deposits, k, user) == 0
    requires HasCollateral(q.core, q.FlagsOf(user), user, q.core.count)
             || forall j: ReserveIndex :: q.core.BalanceOf(Borrows, j, user) == 0
    ensures Burned(q.core, Deposits, k, user, seize) == 0
    ensures LosesAll(q, k, user, seize) ==> Unrecorded(Residue(q.core, d, user, cover, k)) == 0
  {
  }
}
