/** What the health check is worth: the position it accepts against the position at its true value. */
module PoolCoverage {
  import opened Prelude
  import opened Rounding
  import opened PoolMath
  import opened ScaledToken
  import opened Pool
  import opened PoolInvariant
  import opened PoolSafety
  import opened PoolOutcomes
  import opened PoolRuns

  // ----- true values, without rounding and without range limits -----

  function PriceOrZero(env: Env, asset: Address): (price: int)
    ensures price >= 0
  {
    PriceOf(env, asset).GetOr(0)
  }

  function Threshold(c: Core, i: ReserveIndex): int
    requires i in c.configs
  {
    PercentToWad(c.configs[i].liquidationThreshold)
  }

  /** Amount times price of one flagged debt. */
  function DebtAt(c: Core, f: Flags, env: Env, user: Address, i: ReserveIndex): int {
    if i in f.borrowed && i in c.configs && c.BalanceOf(Borrows, i, user) > 0
    then c.BalanceOf(Borrows, i, user) * PriceOrZero(env, c.configs[i].asset) else 0
  }

  /** Amount times price times threshold of one flagged deposit. */
  function CollateralAt(c: Core, f: Flags, env: Env, user: Address, i: ReserveIndex): int {
    if i in f.collateral && i in c.configs && c.BalanceOf(Deposits, i, user) > 0
    then c.BalanceOf(Deposits, i, user) * PriceOrZero(env, c.configs[i].asset) * Threshold(c, i) else 0
  }

  function TrueDebt(c: Core, f: Flags, env: Env, user: Address, n: ReserveCount): int {
    if n == 0 then 0 else TrueDebt(c, f, env, user, n - 1) + DebtAt(c, f, env, user, n - 1)
  }

  function TrueCollateral(c: Core, f: Flags, env: Env, user: Address, n: ReserveCount): int {
    if n == 0 then 0 else TrueCollateral(c, f, env, user, n - 1) + CollateralAt(c, f, env, user, n - 1)
  }

  /** Half a unit for each of the two roundings of a flagged deposit. */
  function CollateralRounding(c: Core, f: Flags, n: ReserveCount): int {
    if n == 0 then 0
    else
      CollateralRounding(c, f, n - 1)
      + if n - 1 in f.collateral && n - 1 in c.configs then HALF_WAD * (Threshold(c, n - 1) + WAD) else 0
  }

  /** The debt and its value both stay within 128 bits, roundings included. */
  predicate InRange(c: Core, env: Env, user: Address, i: ReserveIndex) {
    i in c.configs ==>
      var owed := c.BalanceOf(Borrows, i, user);
      owed * RAY + HALF_RAY <= I128_MAX && owed * PriceOrZero(env, c.configs[i].asset) + HALF_WAD <= I128_MAX
  }

  predicate DebtsInRange(c: Core, f: Flags, env: Env, user: Address, n: ReserveCount) {
    forall i: ReserveIndex | 0 <= i < n :: i in f.borrowed ==> InRange(c, env, user, i)
  }

  // ----- one term against its true value -----

  lemma RoundedHalfUp(x: int)
    requires x >= 0
    ensures var v := (x + HALF_WAD) / WAD; 0 <= v && v * WAD <= x + HALF_WAD && x <= v * WAD + HALF_WAD
  {
  }

  /**
   * A flagged, priced debt counts as nothing exactly when one of its products leaves 128 bits or it rounds to
   * nothing.
   */
  lemma DebtCountsAsNothingExactlyWhen(c: Core, f: Flags, env: Env, user: Address, i: ReserveIndex)
    requires SoundCore(c) && i in f.borrowed && c.BalanceOf(Borrows, i, user) > 0
    requires i in c.configs && PriceOf(env, c.configs[i].asset).Done?
    ensures DebtTerm(c, f, env, user, i).Done?
    ensures DebtTerm(c, f, env, user, i) == Done(0)
            <==> !InRange(c, env, user, i) || DebtAt(c, f, env, user, i) < HALF_WAD
    ensures InRange(c, env, user, i) ==>
              DebtTerm(c, f, env, user, i) == Done((DebtAt(c, f, env, user, i) + HALF_WAD) / WAD)
  {
    hide SoundCore;
    CellIsSteady(c, i);
    var owed, price := c.BalanceOf(Borrows, i, user), PriceOf(env, c.configs[i].asset).value;
    RayMulByOne(owed);
    ProductIsNonNegative(owed, price);
    assert WadMul(0, price) == Some(0);
  }

  lemma DebtTermIsTrue(c: Core, f: Flags, env: Env, user: Address, i: ReserveIndex)
    requires SoundCore(c) && DebtTerm(c, f, env, user, i).Done?
    requires i in f.borrowed ==> InRange(c, env, user, i)
    ensures var term, x := DebtTerm(c, f, env, user, i).value, DebtAt(c, f, env, user, i);
            0 <= term && x <= term * WAD + HALF_WAD && term * WAD <= x + HALF_WAD
  {
    hide SoundCore, InRange;
    var owed := c.BalanceOf(Borrows, i, user);
    if i in f.borrowed && owed > 0 {
      var config := c.configs[i];
      DebtCountsAsNothingExactlyWhen(c, f, env, user, i);
      ProductIsNonNegative(owed, PriceOrZero(env, config.asset));
      RoundedHalfUp(DebtAt(c, f, env, user, i));
    }
  }

  lemma WadMulAtMost(a: i128, b: i128)
    requires a >= 0 && b >= 0
    ensures 0 <= WadMul(a, b).GetOr(0) && WadMul(a, b).GetOr(0) * WAD <= a * b + HALF_WAD
  {
    ProductIsNonNegative(a, b);
    RoundedHalfUp(a * b);
  }

  lemma TwiceRounded(shares: int, price: int, threshold: int, value: int, weighted: int)
    requires shares >= 0 && price >= 0 && threshold >= 0
    requires value * WAD <= shares * price + HALF_WAD && weighted * WAD <= value * threshold + HALF_WAD
    ensures weighted * WAD * WAD <= shares * price * threshold + HALF_WAD * (threshold + WAD)
  {
    var wad: int, half: int := WAD, HALF_WAD;
    MulMono(value * wad, shares * price + half, threshold);
    assert (value * wad) * threshold == (value * threshold) * wad;
    assert (shares * price + half) * threshold == shares * price * threshold + half * threshold;
    MulMono(weighted * wad, value * threshold + half, wad);
    assert (value * threshold + half) * wad == (value * threshold) * wad + half * wad;
    assert half * (threshold + wad) == half * threshold + half * wad;
  }

  lemma CollateralTermIsTrue(c: Core, f: Flags, env: Env, user: Address, i: ReserveIndex)
    requires SoundCore(c) && CollateralTerm(c, f, env, user, i).Done?
    ensures var term := CollateralTerm(c, f, env, user, i).value;
            0 <= term
            && term * WAD * WAD <= CollateralAt(c, f, env, user, i)
                 + if i in f.collateral && i in c.configs then HALF_WAD * (Threshold(c, i) + WAD) else 0
  {
    hide SoundCore, WadMul;
    var shares := c.BalanceOf(Deposits, i, user);
    if i in f.collateral && shares > 0 {
      var config := c.configs[i];
      CellIsSteady(c, i);
      RayMulByOne(shares);
      var actual, price := RayMul(shares, RAY).GetOr(0), PriceOf(env, config.asset).value;
      var value := WadMul(actual, price).GetOr(0);
      WadMulAtMost(actual, price);
      MulMono(actual, shares, price);
      WadMulAtMost(value, PercentToWad(config.liquidationThreshold));
      TwiceRounded(shares, price, Threshold(c, i), value, CollateralTerm(c, f, env, user, i).value);
    } else if i in c.configs {
      ProductIsNonNegative(HALF_WAD, Threshold(c, i) + WAD);
    }
  }

  lemma {:induction false} ValuationIsTrue(c: Core, f: Flags, env: Env, user: Address, n: ReserveCount)
    requires SoundCore(c) && Valuation(c, f, env, user, n).Done? && DebtsInRange(c, f, env, user, n)
    ensures var (collateral, debt) := Valuation(c, f, env, user, n).value;
            && collateral >= 0 && debt >= 0
            && TrueDebt(c, f, env, user, n) <= debt * WAD + n * HALF_WAD
            && debt * WAD <= TrueDebt(c, f, env, user, n) + n * HALF_WAD
            && collateral * WAD * WAD <= TrueCollateral(c, f, env, user, n) + CollateralRounding(c, f, n)
  {
    hide SoundCore, CollateralTerm, DebtTerm, CollateralAt, DebtAt, InRange, Threshold;
    if n > 0 {
      ValuationIsTrue(c, f, env, user, n - 1);
      CollateralTermIsTrue(c, f, env, user, n - 1);
      DebtTermIsTrue(c, f, env, user, n - 1);
    }
  }

  // ----- what an accepted position is worth -----

  /**
   * The true weighted collateral covers the true debt: to one part in 2·10^18, the half-up rounding of the health
   * factor, and up to half a unit for every rounding of a term.
   */
  predicate Covered(p: Pool, env: Env, user: Address) {
    var c, f, n := p.core, p.FlagsOf(user), p.core.count;
    TrueDebt(c, f, env, user, n) * (2 * WAD - 1)
    <= 2 * TrueCollateral(c, f, env, user, n) + 2 * CollateralRounding(c, f, n) + n * HALF_WAD * (2 * WAD + 1)
  }

  /** The weighted collateral is so large that its quotient by the debt is never computed. */
  predicate BeyondComparison(p: Pool, env: Env, user: Address) {
    var sums := Valuation(p.core, p.FlagsOf(user), env, user, p.core.count);
    sums.Done? && sums.value.0 * WAD + sums.value.1 / 2 > I128_MAX
  }

  lemma {:induction false} ValuationIsNonNegative(c: Core, f: Flags, env: Env, user: Address, n: ReserveCount)
    requires SoundCore(c) && Valuation(c, f, env, user, n).Done?
    ensures Valuation(c, f, env, user, n).value.0 >= 0 && Valuation(c, f, env, user, n).value.1 >= 0
  {
    hide SoundCore, CollateralTerm, DebtTerm;
    if n > 0 {
      ValuationIsNonNegative(c, f, env, user, n - 1);
      CollateralTermIsTrue(c, f, env, user, n - 1);
      DebtTermIsNonNegative(c, f, env, user, n - 1);
    }
  }

  lemma DebtTermIsNonNegative(c: Core, f: Flags, env: Env, user: Address, i: ReserveIndex)
    requires SoundCore(c) && DebtTerm(c, f, env, user, i).Done?
    ensures DebtTerm(c, f, env, user, i).value >= 0
  {
    hide SoundCore, WadMul;
    var owed := c.BalanceOf(Borrows, i, user);
    if i in f.borrowed && owed > 0 {
      CellIsSteady(c, i);
      RayMulByOne(owed);
      WadMulAtMost(RayMul(owed, RAY).GetOr(0), PriceOf(env, c.configs[i].asset).value);
    }
  }

  /** What the check accepts: no debt it can see, collateral beyond comparison, or collateral up to half-up rounding. */
  lemma HealthyExactlyWhen(p: Pool, env: Env, user: Address)
    requires SoundCore(p.core)
    ensures var sums := Valuation(p.core, p.FlagsOf(user), env, user, p.core.count);
            Healthy(p, env, user)
            <==> && sums.Done?
                 && (sums.value.1 == 0 || BeyondComparison(p, env, user)
                     || sums.value.0 * WAD + sums.value.1 / 2 >= sums.value.1 * WAD)
  {
    hide SoundCore, WadDiv;
    var sums := Valuation(p.core, p.FlagsOf(user), env, user, p.core.count);
    if sums.Done? {
      ValuationIsNonNegative(p.core, p.FlagsOf(user), env, user, p.core.count);
      if sums.value.1 > 0 {
        HealthThreshold(sums.value.0, sums.value.1);
      }
    }
  }

  lemma ScaleUp(collateral: int, debt: int, trueDebt: int, weighted: int, slack: int)
    requires collateral * WAD + debt / 2 >= debt * WAD
    requires trueDebt <= debt * WAD + slack && debt * WAD <= trueDebt + slack
    requires collateral * WAD * WAD <= weighted
    ensures trueDebt * (2 * WAD - 1) <= 2 * weighted + slack * (2 * WAD + 1)
  {
  }

  lemma HealthyIsCovered(p: Pool, env: Env, user: Address)
    requires SoundCore(p.core) && Healthy(p, env, user)
    requires DebtsInRange(p.core, p.FlagsOf(user), env, user, p.core.count)
    ensures BeyondComparison(p, env, user) || Covered(p, env, user)
  {
    hide SoundCore, HealthFactor;
    var c, f, n := p.core, p.FlagsOf(user), p.core.count;
    HealthyExactlyWhen(p, env, user);
    ValuationIsTrue(c, f, env, user, n);
    var (collateral, debt) := Valuation(c, f, env, user, n).value;
    if !BeyondComparison(p, env, user) {
      ScaleUp(collateral, debt, TrueDebt(c, f, env, user, n),
              TrueCollateral(c, f, env, user, n) + CollateralRounding(c, f, n), n * HALF_WAD);
      assert n * HALF_WAD * (2 * WAD + 1) == (n * HALF_WAD) * (2 * WAD + 1);
    }
  }

  lemma {:induction false} NoDebtIsCovered(c: Core, f: Flags, env: Env, user: Address, n: ReserveCount)
    requires SoundCore(c) && f.borrowed == {}
    ensures TrueDebt(c, f, env, user, n) == 0
    ensures TrueCollateral(c, f, env, user, n) >= 0 && CollateralRounding(c, f, n) >= 0
  {
    hide SoundCore;
    if n > 0 {
      NoDebtIsCovered(c, f, env, user, n - 1);
      var i := n - 1;
      if i in c.configs {
        ProductIsNonNegative(HALF_WAD, Threshold(c, i) + WAD);
        if c.BalanceOf(Deposits, i, user) > 0 {
          ProductIsNonNegative(c.BalanceOf(Deposits, i, user), PriceOrZero(env, c.configs[i].asset));
          ProductIsNonNegative(c.BalanceOf(Deposits, i, user) * PriceOrZero(env, c.configs[i].asset), Threshold(c, i));
        }
      }
    }
  }

  /**
   * After a finished borrow whose debts are all in range, collateral covers debt at true value, or is beyond
   * comparison.
   */
  lemma BorrowIsCovered(p: Pool, env: Env, caller: Address, asset: Address, amount: i128)
    requires Sound(p) && caller != ThisPool && Borrow(p, env, caller, asset, amount).Done?
    requires var q := Borrow(p, env, caller, asset, amount).value;
             DebtsInRange(q.core, q.FlagsOf(caller), env, caller, q.core.count)
    ensures var q := Borrow(p, env, caller, asset, amount).value;
            BeyondComparison(q, env, caller) || Covered(q, env, caller)
  {
    hide Borrow, SoundCore, FlagsMatch, Healthy, DebtsInRange, BeyondComparison, Covered, SameSurplus, Moved, Reflagged;
    BorrowIsSafe(p, env, caller, asset, amount);
    BorrowLeavesHealthy(p, env, caller, asset, amount);
    HealthyIsCovered(Borrow(p, env, caller, asset, amount).value, env, caller);
  }

  lemma GuardedIsCovered(q: Pool, env: Env, user: Address)
    requires SoundCore(q.core) && DebtsInRange(q.core, q.FlagsOf(user), env, user, q.core.count)
    requires q.FlagsOf(user).borrowed != {} ==> Healthy(q, env, user)
    ensures BeyondComparison(q, env, user) || Covered(q, env, user)
  {
    hide SoundCore, Healthy, BeyondComparison;
    if q.FlagsOf(user).borrowed == {} {
      NoDebtIsCovered(q.core, q.FlagsOf(user), env, user, q.core.count);
    } else {
      HealthyIsCovered(q, env, user);
    }
  }

  lemma WithdrawIsCovered(p: Pool, env: Env, caller: Address, asset: Address, amount: i128)
    requires Sound(p) && caller != ThisPool && Withdraw(p, env, caller, asset, amount).Done?
    requires var q := Withdraw(p, env, caller, asset, amount).value;
             DebtsInRange(q.core, q.FlagsOf(caller), env, caller, q.core.count)
    ensures var q := Withdraw(p, env, caller, asset, amount).value;
            BeyondComparison(q, env, caller) || Covered(q, env, caller)
  {
    hide Withdraw, SoundCore, FlagsMatch, Healthy, DebtsInRange, BeyondComparison, Covered, SameSurplus, Moved;
    hide Reflagged;
    WithdrawIsSafe(p, env, caller, asset, amount);
    WithdrawLeavesHealthy(p, env, caller, asset, amount);
    GuardedIsCovered(Withdraw(p, env, caller, asset, amount).value, env, caller);
  }

  lemma ToggleOffIsCovered(p: Pool, env: Env, caller: Address, asset: Address)
    requires Sound(p) && asset in p.core.indices && p.core.indices[asset] in p.FlagsOf(caller).collateral
    requires ToggleCollateral(p, env, caller, asset, false).Done?
    requires var q := ToggleCollateral(p, env, caller, asset, false).value;
             DebtsInRange(q.core, q.FlagsOf(caller), env, caller, q.core.count)
    ensures var q := ToggleCollateral(p, env, caller, asset, false).value;
            BeyondComparison(q, env, caller) || Covered(q, env, caller)
  {
    hide ToggleCollateral, SoundCore, FlagsMatch, Healthy, DebtsInRange, BeyondComparison, Covered, SameSurplus;
    hide Reflagged;
    ToggleIsSafe(p, env, caller, asset, false);
    ToggleOffLeavesHealthy(p, env, caller, asset);
    GuardedIsCovered(ToggleCollateral(p, env, caller, asset, false).value, env, caller);
  }

  /** Beyond comparison the check says nothing: collateral of 1.8·10^20 passes against a debt of 3·10^20. */
  lemma ComparisonOverflows()
    ensures WadDiv(180_000_000_000_000_000_000, 300_000_000_000_000_000_000).GetOr(I128_MAX) >= WAD
  {
    HealthThreshold(180_000_000_000_000_000_000, 300_000_000_000_000_000_000);
  }
}
