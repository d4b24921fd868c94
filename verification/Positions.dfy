/** What a flow does to one user's position, exact through every floor and ceiling. */
module Positions {
  import opened Prelude
  import opened Rounding
  import opened Shares
  import opened AccountingModel
  import opened Store
  import opened Risk
  import opened Flows
  import opened Totals

  /** Debt a share balance stands for, rounded up. */
  ghost function Owed(shares: int, index: int): int {
    CeilDiv(shares * index, RAY)
  }

  /** Supply a share balance stands for, rounded down. */
  ghost function Claim(shares: int, index: int): int {
    shares * index / RAY
  }

  // ----- burning debt shares -----

  /** Paying less than the debt burns no more shares than are held, lowers the debt by at least the payment, and by
      less than the payment plus one share and one unit. */
  lemma PartialBurn(s: int, i: int, r: int, ray: int, a: int, b: int, a': int)
    requires i > 0 && ray > 0 && 0 <= r
    requires a == CeilDiv(s * i, ray) && r < a
    requires b == CeilDiv(r * ray, i) && a' == CeilDiv((s - b) * i, ray)
    ensures 0 <= b <= s
    ensures 0 <= a' <= a - r
    ensures (a - a') * ray < r * ray + i + ray
  {
    CeilGalois(s * i, ray, r);
    CeilGalois(r * ray, i, s);
    MulMono(0, r, ray);
    CeilNonNegative(r * ray, i);
    SubMul(s, b, i);
    SubMul(a, r, ray);
    CeilGalois((s - b) * i, ray, a - r);
    MulMono(0, s - b, i);
    CeilNonNegative((s - b) * i, ray);
    PartialBurnUpper(s * i, b, i, r * ray, ray, a, a', (s - b) * i);
  }

  lemma PartialBurnUpper(x: int, b: int, i: int, z: int, ray: int, a: int, a': int, y: int)
    requires i > 0 && ray > 0 && y == x - b * i
    requires a == CeilDiv(x, ray) && b == CeilDiv(z, i) && a' == CeilDiv(y, ray)
    ensures (a - a') * ray < z + i + ray
  {
    SubMul(a, a', ray);
    SubMul(a, 1, ray);
    SubMul(b, 1, i);
  }

  /** Paying the whole rounded-up debt through the share conversion burns exactly the balance when the balance is
      worth a whole amount, and at least one share too many otherwise. */
  lemma FullBurn(s: int, i: int, ray: int, a: int)
    requires s >= 0 && i > 0 && ray > 0 && a == CeilDiv(s * i, ray)
    ensures CeilDiv(a * ray, i) >= s
    ensures CeilDiv(a * ray, i) <= s <==> (s * i) % ray == 0
  {
    CeilGalois(a * ray, i, s - 1);
    assert (s - 1) * i == s * i - i;
    CeilGalois(a * ray, i, s);
    FloorBounds(s * i, ray);
    if (s * i) % ray == 0 {
      assert s * i == (s * i / ray) * ray;
      CeilGalois(s * i, ray, s * i / ray);
    } else if a * ray == s * i {
      ExactQuotient(ray, a, s * i);
    }
  }

  /** The repay preview: its underflow guard never fires, full repayment clears every share, and a partial one is
      rounded against the borrower by less than a share and a unit. */
  lemma RepayPreviewIsSafe(requested: i128, user: UserSnapshot, accounting: ReserveState)
    ensures CapRepayToDebt(requested, Some(user), accounting) != Err(MathUnderflow)
    ensures CapRepayToDebt(requested, Some(user), accounting).Ok? ==>
      var v := CapRepayToDebt(requested, Some(user), accounting).value;
      var left := Owed(user.scaledDebt - v.scaledToBurn, accounting.borrowIndex);
      && v.currentDebt == Owed(user.scaledDebt, accounting.borrowIndex)
      && v.scaledToBurn <= user.scaledDebt
      && (requested >= v.currentDebt ==> v.actualRepay == v.currentDebt && v.scaledToBurn == user.scaledDebt)
      && (requested < v.currentDebt ==>
            v.actualRepay == requested && left <= v.currentDebt - requested
            && (v.currentDebt - left) * RAY < requested * RAY + accounting.borrowIndex + RAY)
  {
    if user.scaledDebt > 0 && ScaledDebtToActual(user.scaledDebt, accounting.borrowIndex).Ok? {
      var i := accounting.borrowIndex;
      var debt := Owed(user.scaledDebt, i);
      if 0 <= requested < debt && ActualDebtToScaled(requested, i).Ok? {
        var b := CeilDiv(requested * RAY, i);
        PartialBurn(user.scaledDebt, i, requested, RAY, debt, b, Owed(user.scaledDebt - b, i));
      }
    }
  }

  // ----- burning supply shares -----

  /** A floored burn leaves at least the projected supply, and never more shares than it had. */
  lemma SupplyBurn(s: int, i: int, w: int, ray: int, c: int, b: int, c': int)
    requires i > 0 && ray > 0 && w >= 0
    requires c == s * i / ray && b == w * ray / i && c' == (s - b) * i / ray
    ensures c' >= c - w && b >= 0
    ensures w <= c ==> b <= s
  {
    FloorBounds(w * ray, i);
    FloorBounds(s * i, ray);
    MulMono(0, w, ray);
    FloorGalois(w * ray, i, 0);
    SubMul(s, b, i);
    SubMul(c, w, ray);
    FloorGalois((s - b) * i, ray, c - w);
    if w <= c {
      MulMono(w, c, ray);
      if b > s { MulMono(s + 1, b, i); SubMul(s, -1, i); }
    }
  }

  /** One withdrawal can reach past the rounded-down claim, but never a full share past it. */
  lemma WithdrawalWithinOneShare(amount: i128, user: UserSnapshot, supplyIndex: i128)
    requires ValidateUserBalance(amount, Some(user), supplyIndex).Ok?
    ensures amount * RAY < (user.scaledSupply + 1) * supplyIndex
  {
    FloorBounds(amount * RAY, supplyIndex);
    MulMono(amount * RAY / supplyIndex + 1, user.scaledSupply + 1, supplyIndex);
  }

  // ----- withdraw -----

  /** The stored outcome of a withdrawal on the position's own record. */
  lemma WithdrawOutcome(s: State, q: Request)
    requires s.WellKeyed() && Withdraw(s, q).Ok?
    ensures q.reserveId in s.reserves && (q.actor, q.reserveId) in s.snapshots
    ensures var t, key := Withdraw(s, q).value, (q.actor, q.reserveId);
            && t.market == s.market && q.reserveId in t.reserves && key in t.snapshots
            && s.reserves[q.reserveId].supplyIndex > 0
            && t.reserves[q.reserveId].supplyIndex == s.reserves[q.reserveId].supplyIndex
            && t.reserves[q.reserveId].borrowIndex == s.reserves[q.reserveId].borrowIndex
            && t.snapshots[key].scaledDebt == s.snapshots[key].scaledDebt
            && t.snapshots[key].scaledSupply
               == s.snapshots[key].scaledSupply - q.amount * RAY / s.reserves[q.reserveId].supplyIndex
  {
    PayOutPosts(Before(s, q.reserveId), q.amount, q.now);
  }

  lemma PreparedWithdrawWasChecked(s: State, q: Request)
    requires PrepareWithdraw(s, q).Ok?
    ensures NeedsRiskCheck(PrepareWithdraw(s, q).value.snapshot) ==>
              EvaluateUserPosition(s, q.actor, q.reserveId, q.amount, 0).Ok?
              && EvaluateUserPosition(s, q.actor, q.reserveId, q.amount, 0).value.isAllowed
  {
  }

  /** A debt-free position is always allowed. */
  lemma NoDebtIsAllowed(c: int, pc: i128, pd: i128, l: Listing, minHf: i128)
    requires EvaluatePosition(c, 0, pc, pd, l, minHf).Ok?
    ensures EvaluatePosition(c, 0, pc, pd, l, minHf).value.isAllowed
  {
  }

  /** After any withdrawal, checked or not, the risk check on the stored position allows it whenever it can be run. */
  lemma WithdrawnPositionPassesRecheck(s: State, q: Request)
    requires s.WellKeyed() && Withdraw(s, q).Ok?
    requires EvaluateUserPosition(Withdraw(s, q).value, q.actor, q.reserveId, 0, 0).Ok?
    ensures EvaluateUserPosition(Withdraw(s, q).value, q.actor, q.reserveId, 0, 0).value.isAllowed
  {
    var t, k := Withdraw(s, q).value, q.reserveId;
    WithdrawOutcome(s, q);
    PreparedWithdrawWasChecked(s, q);
    WithdrawRecheck(s, t, q.actor, k, q.amount);
  }

  lemma WithdrawRecheck(s: State, t: State, user: string, k: u32, amount: i128)
    requires t.market == s.market && k in s.reserves && k in t.reserves && amount >= 0
    requires (user, k) in s.snapshots && (user, k) in t.snapshots
    requires s.reserves[k].supplyIndex > 0
    requires t.reserves[k].supplyIndex == s.reserves[k].supplyIndex
    requires t.reserves[k].borrowIndex == s.reserves[k].borrowIndex
    requires var u, u' := s.snapshots[(user, k)], t.snapshots[(user, k)];
             && u'.scaledDebt == u.scaledDebt
             && u'.scaledSupply == u.scaledSupply - amount * RAY / s.reserves[k].supplyIndex
             && (NeedsRiskCheck(u) ==>
                   EvaluateUserPosition(s, user, k, amount, 0).Ok?
                   && EvaluateUserPosition(s, user, k, amount, 0).value.isAllowed)
    requires EvaluateUserPosition(t, user, k, 0, 0).Ok?
    ensures EvaluateUserPosition(t, user, k, 0, 0).value.isAllowed
  {
    var u, u' := s.snapshots[(user, k)], t.snapshots[(user, k)];
    var price, minHf := s.market.Price(k), s.market.RiskConfigOrDefault().minHealthFactor;
    var listing := s.market.listings[k];
    var i := s.reserves[k].supplyIndex;
    var debt := ScaledDebtToActual(u'.scaledDebt, t.reserves[k].borrowIndex).value;
    var after := ScaledSupplyToActual(u'.scaledSupply, i).value;
    if NeedsRiskCheck(u) {
      var before := ScaledSupplyToActual(u.scaledSupply, i).value;
      SupplyBurn(u.scaledSupply, i, amount, RAY, before, amount * RAY / i, after);
      SaferPositionStaysAllowed(before - amount, after, debt, debt, price, price, listing, minHf);
    } else {
      assert debt == 0 by { CeilGalois(0, RAY, 0); CeilNonNegative(0, RAY); }
      NoDebtIsAllowed(after, price, price, listing, minHf);
    }
  }

  // ----- borrow -----

  /** Minted shares recompute to at least the projected debt, and to less than one share and one unit more. */
  lemma BorrowedDebtBounds(s: int, i: int, b: int, ray: int)
    requires i > 0 && ray > 0 && b >= 0
    ensures var a, a' := CeilDiv(s * i, ray), CeilDiv((s + CeilDiv(b * ray, i)) * i, ray);
            && a' >= a + b
            && (a' - (a + b)) * ray < i + ray
  {
    var a, y := CeilDiv(s * i, ray), CeilDiv(b * ray, i);
    var a' := CeilDiv((s + y) * i, ray);
    assert (s + y) * i == s * i + y * i;
    ShiftByMultiple(s * i, b, ray);
    CeilMono(s * i + b * ray, (s + y) * i, ray);
    assert (y - 1) * i == y * i - i && (a' - 1) * ray == a' * ray - ray;
    assert (a' - (a + b)) * ray == a' * ray - a * ray - b * ray;
  }

  ghost predicate RecomputesExactly(s: nat, b: nat, i: int, ray: int)
    requires i > 0 && ray > 0
  {
    CeilDiv((s + CeilDiv(b * ray, i)) * i, ray) == CeilDiv(s * i, ray) + b
  }

  /** Stored debt equals the debt the risk check saw, for every balance and amount, exactly when the index divides a
      whole ray; with indices that only grow from one ray this means an index of one ray. */
  lemma BorrowRecomputesExactlyIff(i: int, ray: int)
    requires i > 0 && ray > 0
    ensures (forall s: nat, b: nat :: RecomputesExactly(s, b, i, ray)) <==> ray % i == 0
  {
    if ray % i == 0 {
      forall s: nat, b: nat ensures RecomputesExactly(s, b, i, ray) {
        BorrowExactOnDivisor(s, b, i, ray, ray / i);
      }
    } else {
      var y := CeilDiv(1 * ray, i);
      if y * i == ray { ExactRemainder(ray, i, y); }
      CeilGalois(y * i, ray, 1);
      CeilGalois(0 * i, ray, 0);
      CeilNonNegative(0 * i, ray);
      assert 0 + y == y;
      assert !RecomputesExactly(0, 1, i, ray);
    }
  }

  lemma ExactRemainder(n: int, d: int, k: int)
    requires d > 0 && n == k * d
    ensures n % d == 0
  {
    ExactQuotient(d, k, n);
    assert n == (n / d) * d + n % d;
  }

  lemma BorrowExactOnDivisor(s: nat, b: nat, i: int, ray: int, k: int)
    requires i > 0 && ray > 0 && ray == k * i
    ensures RecomputesExactly(s, b, i, ray)
  {
    assert b * ray == (b * k) * i;
    CeilGalois((b * k) * i, i, b * k);
    CeilGalois((b * k) * i, i, b * k - 1);
    assert (b * k - 1) * i == (b * k) * i - i;
    assert (s + b * k) * i == s * i + b * ray;
    ShiftByMultiple(s * i, b, ray);
  }

  /** At half again a ray, borrowing one unit already stores a debt of two. */
  lemma BorrowExample()
    ensures ActualDebtToScaled(1, 1_500_000_000_000_000_000_000_000_000) == Ok(1)
    ensures Owed(1, 1_500_000_000_000_000_000_000_000_000) == 2
  {
    GcdOfRayAndExample();
  }

  lemma GcdOfRayAndExample()
    ensures Gcd(1 * RAY, 1_500_000_000_000_000_000_000_000_000) == RAY / 2
    ensures Gcd(2 * RAY, 1_500_000_000_000_000_000_000_000_000) == RAY / 2
    ensures Gcd(1 * 1_500_000_000_000_000_000_000_000_000, RAY) == RAY / 2
  {
    var i: nat, h: nat := 1_500_000_000_000_000_000_000_000_000, 500_000_000_000_000_000_000_000_000;
    GcdFromCoprime(RAY, i, h, 2, 3, -1, 1);
    GcdFromCoprime(2 * RAY, i, h, 4, 3, 1, -1);
    GcdFromCoprime(i, RAY, h, 3, 2, 1, -1);
  }

  /** What a borrow stores: the market and indices untouched, the borrower's debt shares up by the minted ceiling. */
  ghost predicate BorrowStores(s: State, q: Request, t: State) {
    var k, key := q.reserveId, (q.actor, q.reserveId);
    && t.market == s.market && k in s.reserves && k in t.reserves && key in t.snapshots
    && s.reserves[k].borrowIndex > 0 && s.reserves[k].supplyIndex > 0
    && t.reserves[k].supplyIndex == s.reserves[k].supplyIndex
    && t.reserves[k].borrowIndex == s.reserves[k].borrowIndex
    && t.snapshots[key].scaledSupply == BorrowerSnapshot(s, q).scaledSupply
    && t.snapshots[key].scaledDebt
       == BorrowerSnapshot(s, q).scaledDebt + CeilDiv(q.amount * RAY, s.reserves[k].borrowIndex)
  }

  lemma BorrowOutcome(s: State, q: Request, t: State)
    requires s.WellKeyed() && Borrow(s, q) == Ok(t)
    ensures BorrowStores(s, q, t) && q.amount > 0
    ensures CanBorrow(s, q.actor, q.reserveId, q.amount).Ok?
    ensures CanBorrow(s, q.actor, q.reserveId, q.amount).value.isAllowed
  {
    hide LendOut, CanBorrow, PrepareBorrow;
    LendOutPosts(Before(s, q.reserveId), q.amount, PrepareBorrow(s, q).value.borrowCap, q.now);
  }

  /** After a borrow the debt recomputed from the stored shares is at least the debt the risk check approved, by less
      than a share and a unit; at an index of one ray the stored position gets the very same, approving, risk check. */
  lemma BorrowedPositionAgainstItsCheck(s: State, q: Request, t: State)
    requires s.WellKeyed() && Borrow(s, q) == Ok(t)
    ensures q.reserveId in s.reserves && (q.actor, q.reserveId) in t.snapshots
    ensures var index := s.reserves[q.reserveId].borrowIndex;
            var projected := Owed(BorrowerSnapshot(s, q).scaledDebt, index) + q.amount;
            var stored := Owed(t.snapshots[(q.actor, q.reserveId)].scaledDebt, index);
            projected <= stored && (stored - projected) * RAY < index + RAY
    ensures s.reserves[q.reserveId].borrowIndex == RAY ==>
              EvaluateUserPosition(t, q.actor, q.reserveId, 0, 0) == CanBorrow(s, q.actor, q.reserveId, q.amount)
              && EvaluateUserPosition(t, q.actor, q.reserveId, 0, 0).Ok?
              && EvaluateUserPosition(t, q.actor, q.reserveId, 0, 0).value.isAllowed
  {
    hide Borrow, EvaluateUserPosition, CanBorrow;
    BorrowOutcome(s, q, t);
    var index := s.reserves[q.reserveId].borrowIndex;
    BorrowedDebtBounds(BorrowerSnapshot(s, q).scaledDebt, index, q.amount, RAY);
    if index == RAY {
      BorrowRecheckAtRay(s, t, q);
    }
  }

  lemma BorrowRecheckAtRay(s: State, t: State, q: Request)
    requires BorrowStores(s, q, t) && s.reserves[q.reserveId].borrowIndex == RAY && q.amount > 0
    requires CanBorrow(s, q.actor, q.reserveId, q.amount).Ok?
    ensures EvaluateUserPosition(t, q.actor, q.reserveId, 0, 0) == CanBorrow(s, q.actor, q.reserveId, q.amount)
  {
    hide ScaledDebtToActual, ScaledSupplyToActual, EvaluatePosition;
    var old', new' := BorrowerSnapshot(s, q).scaledDebt, t.snapshots[(q.actor, q.reserveId)].scaledDebt;
    WholeAtRay(q.amount);
    if s.Snapshot(q.actor, q.reserveId).Some? {
      DebtAtRay(old');
      assert old' >= 0 by { DebtSharesNonNegative(old'); }
    } else {
      NoSharesNoClaim(t.reserves[q.reserveId].supplyIndex);
    }
    DebtAtRay(new');
  }

  lemma DebtSharesNonNegative(shares: i128)
    requires ScaledDebtToActual(shares, RAY).Ok?
    ensures shares >= 0
  {
  }

  lemma NoSharesNoClaim(index: i128)
    requires index > 0
    ensures ScaledSupplyToActual(0, index) == Ok(0)
  {
  }

  /** At an index of one ray rounding up always succeeds and changes nothing. */
  lemma DebtAtRay(shares: i128)
    ensures shares >= 0 ==> ScaledDebtToActual(shares, RAY) == Ok(shares)
  {
    if shares > 0 {
      MulDivOverflowsExactlyInLowestTerms(shares, RAY, RAY);
      GcdFromCoprime(shares * RAY, RAY, RAY, shares, 1, 0, 1);
      WholeAtRay(shares);
    }
  }

  lemma WholeAtRay(x: int)
    ensures CeilDiv(x * RAY, RAY) == x
  {
    var ray: int := RAY;
    CeilGalois(x * ray, ray, x);
    CeilGalois(x * ray, ray, x - 1);
    assert (x - 1) * ray == x * ray - ray;
  }

  // ----- liquidation -----

  /** What a liquidation stores on the borrower, in both the one-reserve and the two-reserve case. */
  ghost predicate LiquidationStores(q: LiquidationRequest, p: PreparedLiquidation, t: State) {
    var d, c := (q.borrower, q.debtReserveId), (q.borrower, q.collateralReserveId);
    && d.1 in t.reserves && c.1 in t.reserves && d in t.snapshots && c in t.snapshots
    && p.debt.accounting.borrowIndex > 0 && p.collateral.accounting.supplyIndex > 0
    && t.reserves[d.1].borrowIndex == p.debt.accounting.borrowIndex
    && t.reserves[c.1].supplyIndex == p.collateral.accounting.supplyIndex
    && t.snapshots[d].scaledDebt
       == p.debt.snapshot.scaledDebt - CeilDiv(p.debtToCover * RAY, p.debt.accounting.borrowIndex)
    && t.snapshots[c].scaledSupply
       == p.collateral.snapshot.scaledSupply - p.collateralToSeize * RAY / p.collateral.accounting.supplyIndex
  }

  lemma LiquidationOutcome(s: State, q: LiquidationRequest, p: PreparedLiquidation, t: State)
    requires s.WellKeyed() && PrepareLiquidation(s, q) == Ok(p) && Liquidate(s, q) == Ok(t)
    ensures LiquidationStores(q, p, t)
  {
    assert CommitLiquidation(s, q, p, s.ledger.value) == Ok(t);
    CommittedLiquidation(s, q, p, t);
  }

  lemma CommittedLiquidation(s: State, q: LiquidationRequest, p: PreparedLiquidation, t: State)
    requires s.WellKeyed() && s.ledger.Some? && CommitLiquidation(s, q, p, s.ledger.value) == Ok(t)
    requires ReadRequiredPosition(s, q.borrower, q.debtReserveId) == Ok(p.debt)
    requires ReadRequiredPosition(s, q.borrower, q.collateralReserveId) == Ok(p.collateral)
    ensures LiquidationStores(q, p, t)
  {
    hide PostLiquidation, PayIn, PayOut, LiquidationFinalChecks;
    var l := PostLiquidation(q, p, s.ledger.value).value;
    var paid, mid := LiquidationHalves(s, q, p, l);
    PayInPosts(Before(s, q.debtReserveId), p.debtToCover, q.now);
    PayOutPosts(Before(mid, q.collateralReserveId), p.collateralToSeize, q.now);
  }

  /** The amounts a prepared liquidation works with, as the position and the configuration define them. */
  ghost predicate PreparedAmounts(p: PreparedLiquidation, pd: i128, pc: i128, closeFactorBps: u32) {
    && ScaledDebtToActual(p.debt.snapshot.scaledDebt, p.debt.accounting.borrowIndex) == Ok(p.borrowerDebt)
    && ScaledSupplyToActual(p.collateral.snapshot.scaledSupply, p.collateral.accounting.supplyIndex)
       == Ok(p.borrowerCollateral)
    && p.borrowerDebt > 0 && p.borrowerCollateral > 0
    && 0 < p.debtToCover <= p.borrowerDebt && 0 <= p.collateralToSeize <= p.borrowerCollateral
    && CloseFactorAmount(p.borrowerDebt, closeFactorBps).Ok?
    && p.debtToCover <= CloseFactorAmount(p.borrowerDebt, closeFactorBps).value
    && CollateralToSeize(p.debtToCover, pd, pc, p.collateral.listing.liquidationBonus).Ok?
    && p.collateralToSeize <= CollateralToSeize(p.debtToCover, pd, pc, p.collateral.listing.liquidationBonus).value
  }

  lemma PreparedLiquidationAmounts(s: State, q: LiquidationRequest, p: PreparedLiquidation)
    requires PrepareLiquidation(s, q) == Ok(p)
    ensures PreparedAmounts(p, s.market.Price(q.debtReserveId), s.market.Price(q.collateralReserveId),
                            s.market.RiskConfigOrDefault().maxCloseFactorBps)
  {
  }

  /** Seized collateral is never worth more than the covered debt plus the bonus. */
  lemma SeizureWithinBonus(d: i128, pd: i128, pc: i128, bonus: u32, c: int)
    requires CollateralToSeize(d, pd, pc, bonus).Ok? && 0 <= c <= CollateralToSeize(d, pd, pc, bonus).value
    ensures c * pc * 10_000 <= d * pd * (10_000 + bonus)
  {
    var dv := d * pd / WAD;
    var bv := dv * (10_000 + bonus) / 10_000;
    var seize := bv * WAD / pc;
    FloorBounds(d * pd, WAD);
    FloorBounds(dv * (10_000 + bonus), 10_000);
    FloorBounds(bv * WAD, pc);
    MulMono(c, seize, pc);
    assert c * pc <= bv * WAD;
    MulMono(dv * WAD, d * pd, 10_000 + bonus);
    assert (dv * (10_000 + bonus)) * WAD == (dv * WAD) * (10_000 + bonus) by {
      Regroup(dv, 10_000 + bonus, WAD);
      Regroup(dv, WAD, 10_000 + bonus);
    }
    assert (bv * 10_000) * WAD <= (dv * (10_000 + bonus)) * WAD;
  }

  /** Below a full close factor some debt is always left. */
  lemma CloseFactorLeavesDebt(debt: i128, bps: u32, cover: int)
    requires debt > 0 && bps < 10_000
    requires CloseFactorAmount(debt, bps).Ok? && cover <= CloseFactorAmount(debt, bps).value
    ensures cover < debt
  {
    FloorBounds(debt * bps, 10_000);
    MulMono(bps, 9_999, debt);
  }

  /** The share balances a liquidation stores: supply never goes negative; debt goes negative exactly when the whole
      debt is covered and the share balance was not worth a whole amount. Below a full close factor it cannot. */
  lemma LiquidationStaysInBounds(s: State, q: LiquidationRequest, p: PreparedLiquidation, t: State)
    requires s.WellKeyed() && PrepareLiquidation(s, q) == Ok(p) && Liquidate(s, q) == Ok(t)
    ensures (q.borrower, q.debtReserveId) in t.snapshots && (q.borrower, q.collateralReserveId) in t.snapshots
    ensures t.snapshots[(q.borrower, q.collateralReserveId)].scaledSupply >= 0
    ensures t.snapshots[(q.borrower, q.debtReserveId)].scaledDebt >= 0
            <==> p.debtToCover < p.borrowerDebt
                 || (p.debt.snapshot.scaledDebt * p.debt.accounting.borrowIndex) % RAY == 0
    ensures s.market.RiskConfigOrDefault().maxCloseFactorBps < 10_000 ==> p.debtToCover < p.borrowerDebt
    ensures p.collateralToSeize * s.market.Price(q.collateralReserveId) * 10_000
            <= p.debtToCover * s.market.Price(q.debtReserveId) * (10_000 + p.collateral.listing.liquidationBonus)
  {
    LiquidationOutcome(s, q, p, t);
    PreparedLiquidationAmounts(s, q, p);
    BurnBounds(p);
    AmountBounds(p, s.market.Price(q.debtReserveId), s.market.Price(q.collateralReserveId),
                 s.market.RiskConfigOrDefault().maxCloseFactorBps);
  }

  lemma AmountBounds(p: PreparedLiquidation, pd: i128, pc: i128, bps: u32)
    requires PreparedAmounts(p, pd, pc, bps)
    ensures bps < 10_000 ==> p.debtToCover < p.borrowerDebt
    ensures pc > 0
    ensures p.collateralToSeize * pc * 10_000
            <= p.debtToCover * pd * (10_000 + p.collateral.listing.liquidationBonus)
  {
    if bps < 10_000 {
      CloseFactorLeavesDebt(p.borrowerDebt, bps, p.debtToCover);
    }
    SeizureWithinBonus(p.debtToCover, pd, pc, p.collateral.listing.liquidationBonus, p.collateralToSeize);
  }

  lemma BurnBounds(p: PreparedLiquidation)
    requires p.debt.accounting.borrowIndex > 0 && p.collateral.accounting.supplyIndex > 0
    requires ScaledDebtToActual(p.debt.snapshot.scaledDebt, p.debt.accounting.borrowIndex) == Ok(p.borrowerDebt)
    requires ScaledSupplyToActual(p.collateral.snapshot.scaledSupply, p.collateral.accounting.supplyIndex)
             == Ok(p.borrowerCollateral)
    requires 0 < p.debtToCover <= p.borrowerDebt && 0 <= p.collateralToSeize <= p.borrowerCollateral
    ensures CeilDiv(p.debtToCover * RAY, p.debt.accounting.borrowIndex) <= p.debt.snapshot.scaledDebt
            <==> p.debtToCover < p.borrowerDebt
                 || (p.debt.snapshot.scaledDebt * p.debt.accounting.borrowIndex) % RAY == 0
    ensures p.collateralToSeize * RAY / p.collateral.accounting.supplyIndex <= p.collateral.snapshot.scaledSupply
  {
    var sd, bi, d, a := p.debt.snapshot.scaledDebt, p.debt.accounting.borrowIndex, p.debtToCover, p.borrowerDebt;
    var b := CeilDiv(d * RAY, bi);
    if d < a {
      PartialBurn(sd, bi, d, RAY, a, b, Owed(sd - b, bi));
    } else {
      FullBurn(sd, bi, RAY, a);
    }
    var sc, si, c := p.collateral.snapshot.scaledSupply, p.collateral.accounting.supplyIndex, p.collateralToSeize;
    SupplyBurn(sc, si, c, RAY, p.borrowerCollateral, c * RAY / si, Claim(sc - c * RAY / si, si));
  }

  /** At a full close factor one share at index 1.5 owes two, and covering two burns two shares. */
  lemma FullCoverExample()
    ensures var i := 1_500_000_000_000_000_000_000_000_000;
            && ScaledDebtToActual(1, i) == Ok(2)
            && CloseFactorAmount(2, 10_000) == Ok(2)
            && ActualDebtToScaled(2, i) == Ok(2)
            && BurnShares(1, 2) == Ok(-1)
  {
    BorrowExample();
    RoundedUpCover();
    CoveredInFull();
  }

  lemma RoundedUpCover()
    ensures ActualDebtToScaled(2, 1_500_000_000_000_000_000_000_000_000) == Ok(2)
  {
    hide ReduceMulDiv;
    TwoInLowestTerms();
  }

  lemma TwoInLowestTerms()
    ensures ReduceMulDiv(2, RAY, 1_500_000_000_000_000_000_000_000_000) == Ok((4, 3))
  {
    GcdOfRayAndExample();
  }

  lemma CoveredInFull()
    ensures CloseFactorAmount(2, 10_000) == Ok(2) && BurnShares(1, 2) == Ok(-1)
    ensures ScaledDebtToActual(1, 1_500_000_000_000_000_000_000_000_000) == Ok(2)
  {
    GcdOfRayAndExample();
  }

  /** A position whose collateral covers its debt with the bonus is never made worse: the ratio of recomputed
      collateral to recomputed debt does not fall (cross-multiplied; prices cancel on both sides). */
  lemma LiquidationKeepsCoveredRatio(s: State, q: LiquidationRequest, p: PreparedLiquidation, t: State)
    requires s.WellKeyed() && PrepareLiquidation(s, q) == Ok(p) && Liquidate(s, q) == Ok(t)
    requires s.market.RiskConfigOrDefault().maxCloseFactorBps < 10_000
    requires p.borrowerCollateral * s.market.Price(q.collateralReserveId) * 10_000
             >= p.borrowerDebt * s.market.Price(q.debtReserveId) * (10_000 + p.collateral.listing.liquidationBonus)
    ensures RatioNotWorse(q, p, t)
  {
    LiquidationOutcome(s, q, p, t);
    PreparedLiquidationAmounts(s, q, p);
    StoredRatio(q, p, t, s.market.Price(q.debtReserveId), s.market.Price(q.collateralReserveId),
                s.market.RiskConfigOrDefault().maxCloseFactorBps);
  }

  /** Debt and collateral recomputed from the stored shares and indices, against the amounts before. */
  ghost predicate RatioNotWorse(q: LiquidationRequest, p: PreparedLiquidation, t: State) {
    var d, c := (q.borrower, q.debtReserveId), (q.borrower, q.collateralReserveId);
    && d in t.snapshots && c in t.snapshots && d.1 in t.reserves && c.1 in t.reserves
    && var owed := Owed(t.snapshots[d].scaledDebt, t.reserves[d.1].borrowIndex);
    var claim := Claim(t.snapshots[c].scaledSupply, t.reserves[c.1].supplyIndex);
    && 0 <= owed <= p.borrowerDebt - p.debtToCover
    && claim >= p.borrowerCollateral - p.collateralToSeize
    && claim * p.borrowerDebt >= p.borrowerCollateral * owed
  }

  lemma StoredRatio(q: LiquidationRequest, p: PreparedLiquidation, t: State, pd: i128, pc: i128, bps: u32)
    requires LiquidationStores(q, p, t) && PreparedAmounts(p, pd, pc, bps) && bps < 10_000
    requires p.borrowerCollateral * pc * 10_000
             >= p.borrowerDebt * pd * (10_000 + p.collateral.listing.liquidationBonus)
    ensures RatioNotWorse(q, p, t)
  {
    AmountBounds(p, pd, pc, bps);
    var sd, bi := p.debt.snapshot.scaledDebt, p.debt.accounting.borrowIndex;
    var b := CeilDiv(p.debtToCover * RAY, bi);
    PartialBurn(sd, bi, p.debtToCover, RAY, p.borrowerDebt, b, Owed(sd - b, bi));
    var sc, si, c := p.collateral.snapshot.scaledSupply, p.collateral.accounting.supplyIndex, p.collateralToSeize;
    SupplyBurn(sc, si, c, RAY, p.borrowerCollateral, c * RAY / si, Claim(sc - c * RAY / si, si));
    RatioKept(p.borrowerCollateral, p.borrowerDebt, c, p.debtToCover, pc, pd,
              10_000 + p.collateral.listing.liquidationBonus, Claim(sc - c * RAY / si, si), Owed(sd - b, bi));
  }

  lemma RatioKept(C: int, A: int, c: int, d: int, pc: int, pd: int, k: int, C': int, A': int)
    requires C > 0 && A > 0 && c >= 0 && d > 0 && pc > 0
    requires c * pc * 10_000 <= d * pd * k && C * pc * 10_000 >= A * pd * k
    requires C' >= C - c && A' <= A - d
    ensures C' * A >= C * A'
  {
    assert c * A <= C * d by {
      var x, y := pd * k, pc * 10_000;
      assert c * y <= d * x && A * x <= C * y by {
        assert c * y == c * pc * 10_000 && C * y == C * pc * 10_000;
        assert d * x == d * pd * k && A * x == A * pd * k;
      }
      CrossMultiply(c, d, C, A, x, y);
    }
    MulMono(C - c, C', A);
    MulMono(A', A - d, C);
    assert (C - c) * A == C * A - c * A;
    assert (A - d) * C == C * A - C * d;
  }

  lemma CrossMultiply(c: int, d: int, C: int, A: int, x: int, y: int)
    requires A > 0 && d > 0 && y > 0
    requires c * y <= d * x && A * x <= C * y
    ensures c * A <= C * d
  {
    MulMono(c * y, d * x, A);
    MulMono(A * x, C * y, d);
    assert (c * y) * A == (c * A) * y by { Regroup(c, y, A); Regroup(c, A, y); }
    assert (d * x) * A == (A * x) * d by { Regroup(d, x, A); Regroup(A, x, d); Regroup(x, A, d); Regroup(x, d, A); }
    assert (C * y) * d == (C * d) * y by { Regroup(C, y, d); Regroup(C, d, y); }
    if c * A > C * d { MulMono(C * d + 1, c * A, y); }
  }
}
