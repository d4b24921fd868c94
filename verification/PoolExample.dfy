/**
 * One run of the pool from its first listing on. A lender's two deposits and a borrower's two loans of the same asset
 * each fit the fixed-point range and together do not; a second, small debt then makes the borrower liquidatable.
 */
module PoolExample {
  import opened Prelude
  import opened PoolMath
  import opened ScaledToken
  import opened Pool
  import opened PoolInvariant
  import opened PoolSafety
  import opened PoolLiquidation
  import opened PoolOutcomes
  import opened PoolLiquidationOutcomes
  import opened PoolRuns
  import opened PoolCoverage
  import opened LiquidationEngine

  const LENDER := Other(1)
  const USER := Other(2)
  const LIQUIDATOR := Other(3)
  const ASSET_A := Other(10)
  const ASSET_B := Other(20)
  const RESERVE_A := ReserveConfig(ASSET_A, Other(11), Other(12), 8_000, 0, 1_000, true, true)
  const RESERVE_B := ReserveConfig(ASSET_B, Other(21), Other(22), 8_000, 0, 1_000, true, true)
  const CURVE := RateConfig(800_000_000_000_000_000, 0, 0, 0)

  /** Both assets at one, and later the second at a thousand million. */
  const CALM := Env(0, map[ASSET_A := WAD, ASSET_B := WAD])
  const SHOCK := Env(0, map[ASSET_A := WAD, ASSET_B := RAY])

  const START: Cash :=
    map[(ASSET_A, LENDER) := 300_000_000_000, (ASSET_B, LENDER) := 100, (ASSET_A, USER) := 100_000_000_000,
        (ASSET_B, LIQUIDATOR) := 200]

  function AssetAt(i: nat): Address {
    if i == 0 then ASSET_A else ASSET_B
  }

  function OpAt(k: nat): Op {
    match k
    case 0 => ListReserve(RESERVE_A, CURVE)
    case 1 => ListReserve(RESERVE_B, CURVE)
    case 2 => SupplyOp(LENDER, ASSET_A, 150_000_000_000)
    case 3 => SupplyOp(LENDER, ASSET_A, 150_000_000_000)
    case 4 => SupplyOp(LENDER, ASSET_B, 100)
    case 5 => SupplyOp(USER, ASSET_A, 100_000_000_000)
    case 6 => BorrowOp(USER, ASSET_A, 70_000_000_000)
    case 7 => BorrowOp(USER, ASSET_A, 110_000_000_000)
    case _ => BorrowOp(USER, ASSET_B, 100)
  }

  /** The first k steps. */
  function Steps(k: nat): seq<(Env, Op)> {
    if k == 0 then [] else Steps(k - 1) + [(CALM, OpAt(k - 1))]
  }

  function After(k: nat): Pool {
    Run(Genesis(START), Steps(k))
  }

  // ----- what a state looks like -----

  datatype View = View(
    balances: map<(Side, nat, Address), int>, totals: map<(Side, nat), int>, cash: map<(Address, Address), int>,
    flags: Flags)
  {
    function Balance(s: Side, i: nat, u: Address): int {
      Lookup(balances, (s, i, u)).GetOr(0)
    }

    function Total(s: Side, i: nat): int {
      Lookup(totals, (s, i)).GetOr(0)
    }

    function Held(a: Address, h: Address): int {
      Lookup(cash, (a, h)).GetOr(0)
    }

    /** A scaled balance and its total move by x, and the cash the other way. */
    function Move(s: Side, i: nat, u: Address, x: int, from: Address, to: Address, f: Flags): View {
      var a := AssetAt(i);
      View(balances[(s, i, u) := Balance(s, i, u) + x], totals[(s, i) := Total(s, i) + x],
           cash[(a, from) := Held(a, from) - x][(a, to) := Held(a, to) + x], f)
    }
  }

  predicate BothListed(c: Core) {
    && c.count == 2 && !c.paused
    && c.configs == map[0 := RESERVE_A, 1 := RESERVE_B]
    && c.indices == map[ASSET_A := 0, ASSET_B := 1]
  }

  ghost predicate At(p: Pool, v: View) {
    && Sound(p) && BothListed(p.core) && p.FlagsOf(USER) == v.flags
    && (forall s: Side, i: ReserveIndex, u: Address :: p.core.BalanceOf(s, i, u) == v.Balance(s, i, u))
    && (forall s: Side, i: ReserveIndex :: p.core.BookOf(s, i).total == v.Total(s, i))
    && (forall a: Address, h: Address :: HeldBy(p.core.cash, a, h) == v.Held(a, h))
    && (forall j: ReserveIndex :: Surplus(p.core, j) == 0)
  }

  /** What the state after k steps looks like, from the second listing on. */
  function ViewAt(k: nat): View
    requires 2 <= k <= 9
  {
    if k == 2 then View(map[], map[], START, NO_FLAGS)
    else
      var v := ViewAt(k - 1);
      match OpAt(k - 1)
      case SupplyOp(u, a, x) =>
        v.Move(Deposits, if a == ASSET_A then 0 else 1, u, x, u, ThisPool,
               if u == USER then Flags({0}, {}) else v.flags)
      case BorrowOp(u, a, x) =>
        var i := if a == ASSET_A then 0 else 1;
        v.Move(Borrows, i, u, x, ThisPool, u, v.flags.(borrowed := v.flags.borrowed + {i}))
      case _ => v
  }

  // ----- one step -----

  lemma AccrueAtZero(c: Core, i: ReserveIndex)
    ensures Accrue(c, i, 0) == Done(c)
  {
  }

  lemma MoveReads(v: View, s: Side, i: nat, u: Address, x: int, from: Address, to: Address, f: Flags)
    requires from != to
    ensures var w, asset := v.Move(s, i, u, x, from, to, f), AssetAt(i);
            && (forall t: Side, j: nat, h: Address ::
                  w.Balance(t, j, h) == v.Balance(t, j, h) + if (t, j, h) == (s, i, u) then x else 0)
            && (forall t: Side, j: nat :: w.Total(t, j) == v.Total(t, j) + if (t, j) == (s, i) then x else 0)
            && (forall a: Address, h: Address ::
                  w.Held(a, h) == v.Held(a, h)
                    + (if (a, h) == (asset, to) then x else 0) - (if (a, h) == (asset, from) then x else 0))
  {
  }

  lemma ViewMoves(p: Pool, q: Pool, v: View, s: Side, i: ReserveIndex, u: Address, x: int,
                  from: Address, to: Address, f: Flags)
    requires At(p, v) && Sound(q) && SameSurplus(p.core, q.core) && SameListing(p.core, q.core) && i < 2 && from != to
    requires Moved(p.core, q.core, s, i, u, x) && Paid(p.core.cash, q.core.cash, AssetAt(i), from, to, x)
    requires q.FlagsOf(USER) == f
    ensures At(q, v.Move(s, i, u, x, from, to, f))
  {
    hide Sound, Surplus, HeldBy, View.Balance, View.Total, View.Held, AssetAt, Pool.FlagsOf, Core.BookOf;
    hide Core.BalanceOf;
    MoveReads(v, s, i, u, x, from, to, f);
    assert v.Move(s, i, u, x, from, to, f).flags == f;
    hide View.Move;
  }

  lemma SupplyStep(p: Pool, v: View, u: Address, i: ReserveIndex, x: i128)
    requires At(p, v) && i < 2 && u != ThisPool && 0 < x <= v.Held(AssetAt(i), u) && x * RAY <= I128_MAX
    requires 0 <= v.Held(AssetAt(i), ThisPool) <= I128_MAX - x && v.Total(Deposits, i) + x <= I128_MAX
    ensures var r := Supply(p, CALM, u, AssetAt(i), x);
            && r.Done?
            && At(r.value, v.Move(Deposits, i, u, x, u, ThisPool,
                                  if u == USER then v.flags.(collateral := v.flags.collateral + {i}) else v.flags))
  {
    hide SoundCore, FlagsMatch, Supply, SameSurplus, Moved, Paid, HeldBy, Accrue;
    AccrueAtZero(p.core, i);
    assert HeldBy(p.core.cash, AssetAt(i), u) == v.Held(AssetAt(i), u);
    assert HeldBy(p.core.cash, AssetAt(i), ThisPool) == v.Held(AssetAt(i), ThisPool);
    SupplyExactlyWhen(p, CALM, u, AssetAt(i), x);
    SupplyIsSafe(p, CALM, u, AssetAt(i), x);
    SupplyKeepsListing(p, CALM, u, AssetAt(i), x);
    ViewMoves(p, Supply(p, CALM, u, AssetAt(i), x).value, v, Deposits, i, u, x, u, ThisPool,
              if u == USER then v.flags.(collateral := v.flags.collateral + {i}) else v.flags);
  }

  lemma BorrowStep(p: Pool, v: View, i: ReserveIndex, x: i128)
    requires At(p, v) && i < 2 && 0 < x <= v.Held(AssetAt(i), ThisPool) && x * RAY <= I128_MAX
    requires 0 <= v.Held(AssetAt(i), USER) <= I128_MAX - x && v.Total(Borrows, i) + x <= I128_MAX
    requires Healthy(Indebted(p, i, USER, x), CALM, USER)
    ensures var r := Borrow(p, CALM, USER, AssetAt(i), x);
            && r.Done?
            && At(r.value, v.Move(Borrows, i, USER, x, ThisPool, USER, v.flags.(borrowed := v.flags.borrowed + {i})))
  {
    hide SoundCore, FlagsMatch, Borrow, SameSurplus, Moved, Paid, HeldBy, Accrue, Healthy, Indebted;
    AccrueAtZero(p.core, i);
    assert HeldBy(p.core.cash, AssetAt(i), USER) == v.Held(AssetAt(i), USER);
    assert HeldBy(p.core.cash, AssetAt(i), ThisPool) == v.Held(AssetAt(i), ThisPool);
    BorrowExactlyWhen(p, CALM, USER, AssetAt(i), x);
    BorrowIsSafe(p, CALM, USER, AssetAt(i), x);
    BorrowKeepsListing(p, CALM, USER, AssetAt(i), x);
    ViewMoves(p, Borrow(p, CALM, USER, AssetAt(i), x).value, v, Borrows, i, USER, x, ThisPool, USER,
              v.flags.(borrowed := v.flags.borrowed + {i}));
  }

  // ----- the borrower's health -----

  /** The borrower's position as the guards read it. */
  ghost predicate Position(p: Pool, collateral: int, debtA: int, debtB: int, f: Flags) {
    && SoundCore(p.core) && BothListed(p.core) && p.FlagsOf(USER) == f
    && p.core.BalanceOf(Deposits, 0, USER) == collateral && p.core.BalanceOf(Deposits, 1, USER) == 0
    && p.core.BalanceOf(Borrows, 0, USER) == debtA && p.core.BalanceOf(Borrows, 1, USER) == debtB
  }

  lemma CollateralTerms(p: Pool, env: Env, debtA: int, debtB: int, f: Flags)
    requires Position(p, 100_000_000_000, debtA, debtB, f) && f.collateral == {0} && PriceOf(env, ASSET_A) == Done(WAD)
    ensures CollateralTerm(p.core, f, env, USER, 0) == Done(80_000_000_000)
    ensures CollateralTerm(p.core, f, env, USER, 1) == Done(0)
  {
    hide SoundCore;
    CellIsSteady(p.core, 0);
    assert RayMul(100_000_000_000, RAY) == Some(100_000_000_000);
    assert WadMul(100_000_000_000, WAD) == Some(100_000_000_000);
    assert PercentToWad(8_000) == 800_000_000_000_000_000;
    assert WadMul(100_000_000_000, 800_000_000_000_000_000) == Some(80_000_000_000);
  }

  lemma NoCollateralTerms(p: Pool, env: Env, debtA: int, debtB: int, f: Flags)
    requires Position(p, 0, debtA, debtB, f)
    ensures CollateralTerm(p.core, f, env, USER, 0) == Done(0) && CollateralTerm(p.core, f, env, USER, 1) == Done(0)
  {
    hide SoundCore;
  }

  /** In range a debt counts; the sum of two loans that each fit does not. */
  lemma DebtTermOfA(p: Pool, env: Env, collateral: int, debtA: int, debtB: int, f: Flags)
    requires Position(p, collateral, debtA, debtB, f) && 0 in f.borrowed && PriceOf(env, ASSET_A) == Done(WAD)
    requires debtA == 70_000_000_000 || debtA == 180_000_000_000
    ensures DebtTerm(p.core, f, env, USER, 0) == Done(if debtA == 70_000_000_000 then debtA else 0)
  {
    hide SoundCore, DebtTerm;
    DebtCountsAsNothingExactlyWhen(p.core, f, env, USER, 0);
    assert (70_000_000_000 * WAD + HALF_WAD) / WAD == 70_000_000_000;
  }

  lemma DebtTermOfB(p: Pool, env: Env, collateral: int, debtA: int, debtB: int, f: Flags)
    requires Position(p, collateral, debtA, debtB, f) && (debtB == 0 || (debtB == 100 && 1 in f.borrowed))
    requires PriceOf(env, ASSET_B) == Done(WAD) || PriceOf(env, ASSET_B) == Done(RAY)
    ensures DebtTerm(p.core, f, env, USER, 1)
            == Done(if debtB == 0 then 0 else if PriceOf(env, ASSET_B) == Done(WAD) then 100 else 100_000_000_000)
  {
    hide SoundCore;
    if debtB == 100 {
      hide DebtTerm;
      DebtCountsAsNothingExactlyWhen(p.core, f, env, USER, 1);
      assert (100 * WAD + HALF_WAD) / WAD == 100 && (100 * RAY + HALF_WAD) / WAD == 100_000_000_000;
    }
  }

  lemma ValuationOfTwo(c: Core, f: Flags, env: Env, c0: i128, c1: i128, d0: i128, d1: i128)
    requires CollateralTerm(c, f, env, USER, 0) == Done(c0) && CollateralTerm(c, f, env, USER, 1) == Done(c1)
    requires DebtTerm(c, f, env, USER, 0) == Done(d0) && DebtTerm(c, f, env, USER, 1) == Done(d1)
    requires InI128(c0 + c1) && InI128(d0 + d1)
    ensures Valuation(c, f, env, USER, 2) == Done((c0 + c1, d0 + d1))
  {
    hide CollateralTerm, DebtTerm;
    assert Valuation(c, f, env, USER, 0) == Done((0, 0));
    assert Valuation(c, f, env, USER, 1) == Done((c0, d0));
  }

  lemma HealthWithCollateral(p: Pool, env: Env, debtA: i128, debtB: i128, f: Flags)
    requires Position(p, 100_000_000_000, debtA, debtB, f) && f.collateral == {0} && 0 in f.borrowed
    requires env == CALM || env == SHOCK
    requires debtA == 70_000_000_000 || debtA == 180_000_000_000
    requires debtB == 0 || (debtB == 100 && 1 in f.borrowed)
    ensures var debt := (if debtA == 70_000_000_000 then debtA else 0)
                        + (if debtB == 0 then 0 else if env == CALM then 100 else 100_000_000_000);
            HealthFactor(p.core, f, env, USER)
            == Done(if debt == 0 then I128_MAX else WadDiv(80_000_000_000, debt).GetOr(I128_MAX))
  {
    hide SoundCore, CollateralTerm, DebtTerm, WadDiv, Valuation;
    CollateralTerms(p, env, debtA, debtB, f);
    DebtTermOfA(p, env, 100_000_000_000, debtA, debtB, f);
    DebtTermOfB(p, env, 100_000_000_000, debtA, debtB, f);
    ValuationOfTwo(p.core, f, env, 80_000_000_000, 0, if debtA == 70_000_000_000 then debtA else 0,
                   if debtB == 0 then 0 else if env == CALM then 100 else 100_000_000_000);
  }

  lemma HealthWithoutCollateral(p: Pool, f: Flags)
    requires Position(p, 0, 180_000_000_000, 0, f) && 0 in f.borrowed
    ensures HealthFactor(p.core, f, CALM, USER) == Done(I128_MAX)
  {
    hide SoundCore, CollateralTerm, DebtTerm, WadDiv, Valuation;
    NoCollateralTerms(p, CALM, 180_000_000_000, 0, f);
    DebtTermOfA(p, CALM, 0, 180_000_000_000, 0, f);
    DebtTermOfB(p, CALM, 0, 180_000_000_000, 0, f);
    ValuationOfTwo(p.core, f, CALM, 0, 0, 0, 0);
  }

  lemma ThreeQuotients()
    ensures WadDiv(80_000_000_000, 70_000_000_000).GetOr(I128_MAX) >= WAD
    ensures WadDiv(80_000_000_000, 100).GetOr(I128_MAX) >= WAD
    ensures WadDiv(80_000_000_000, 100_000_000_000) == Some(800_000_000_000_000_000)
  {
  }

  // ----- the numbers of every state -----

  /** Cash of the two assets by holder, totals, and the balances the run is about. */
  datatype Figures = Figures(
    lenderA: int, userA: int, poolA: int, lenderB: int, userB: int, poolB: int,
    depositsA: int, depositsB: int, borrowsA: int, borrowsB: int,
    lenderShares: int, userShares: int, debtA: int, debtB: int, flags: Flags)

  predicate Shows(v: View, n: Figures) {
    && v.Held(ASSET_A, LENDER) == n.lenderA && v.Held(ASSET_A, USER) == n.userA && v.Held(ASSET_A, ThisPool) == n.poolA
    && v.Held(ASSET_B, LENDER) == n.lenderB && v.Held(ASSET_B, USER) == n.userB && v.Held(ASSET_B, ThisPool) == n.poolB
    && v.Held(ASSET_A, LIQUIDATOR) == 0 && v.Held(ASSET_B, LIQUIDATOR) == 200
    && v.Total(Deposits, 0) == n.depositsA && v.Total(Deposits, 1) == n.depositsB
    && v.Total(Borrows, 0) == n.borrowsA && v.Total(Borrows, 1) == n.borrowsB
    && v.Balance(Deposits, 0, LENDER) == n.lenderShares && v.Balance(Deposits, 0, USER) == n.userShares
    && v.Balance(Deposits, 1, USER) == 0
    && v.Balance(Borrows, 0, USER) == n.debtA && v.Balance(Borrows, 1, USER) == n.debtB
    && v.flags == n.flags
  }

  const E9 := 1_000_000_000

  function FiguresAt(k: nat): Figures {
    match k
    case 2 => Figures(300 * E9, 100 * E9, 0, 100, 0, 0, 0, 0, 0, 0, 0, 0, 0, 0, NO_FLAGS)
    case 3 => Figures(150 * E9, 100 * E9, 150 * E9, 100, 0, 0, 150 * E9, 0, 0, 0, 150 * E9, 0, 0, 0, NO_FLAGS)
    case 4 => Figures(0, 100 * E9, 300 * E9, 100, 0, 0, 300 * E9, 0, 0, 0, 300 * E9, 0, 0, 0, NO_FLAGS)
    case 5 => Figures(0, 100 * E9, 300 * E9, 0, 0, 100, 300 * E9, 100, 0, 0, 300 * E9, 0, 0, 0, NO_FLAGS)
    case 6 => Figures(0, 0, 400 * E9, 0, 0, 100, 400 * E9, 100, 0, 0, 300 * E9, 100 * E9, 0, 0, Flags({0}, {}))
    case 7 => Figures(0, 70 * E9, 330 * E9, 0, 0, 100, 400 * E9, 100, 70 * E9, 0, 300 * E9, 100 * E9, 70 * E9, 0,
                      Flags({0}, {0}))
    case 8 => Figures(0, 180 * E9, 220 * E9, 0, 0, 100, 400 * E9, 100, 180 * E9, 0, 300 * E9, 100 * E9, 180 * E9, 0,
                      Flags({0}, {0}))
    case _ => Figures(0, 180 * E9, 220 * E9, 0, 100, 0, 400 * E9, 100, 180 * E9, 100, 300 * E9, 100 * E9, 180 * E9, 100,
                      Flags({0}, {0, 1}))
  }

  lemma {:induction false} ViewShows(k: nat)
    requires 2 <= k <= 9
    ensures Shows(ViewAt(k), FiguresAt(k))
  {
    hide View.Balance, View.Total, View.Held, View.Move;
    OneFlagMore();
    match k
    case 2 => StartShows();
    case 3 => ViewShows(2); SupplyShows(ViewAt(2), LENDER, 0, 150 * E9, NO_FLAGS);
    case 4 => ViewShows(3); SupplyShows(ViewAt(3), LENDER, 0, 150 * E9, NO_FLAGS);
    case 5 => ViewShows(4); SupplyShows(ViewAt(4), LENDER, 1, 100, NO_FLAGS);
    case 6 => ViewShows(5); SupplyShows(ViewAt(5), USER, 0, 100 * E9, Flags({0}, {}));
    case 7 => ViewShows(6); BorrowShows(ViewAt(6), 0, 70 * E9, Flags({0}, {0}));
    case 8 => ViewShows(7); BorrowShows(ViewAt(7), 0, 110 * E9, Flags({0}, {0}));
    case _ => ViewShows(8); BorrowShows(ViewAt(8), 1, 100, Flags({0}, {0, 1}));
  }

  lemma OneFlagMore()
    ensures var none: set<nat> := {}; none + {0} == {0}
    ensures var zero: set<nat> := {0}; zero + {0} == zero && zero + {1} == {0, 1}
  {
  }

  lemma StartShows()
    ensures Shows(View(map[], map[], START, NO_FLAGS), FiguresAt(2))
  {
    hide ViewAt, View.Move;
    var v := View(map[], map[], START, NO_FLAGS);
    assert v.Held(ASSET_A, LENDER) == 300 * E9 && v.Held(ASSET_A, USER) == 100 * E9 && v.Held(ASSET_A, ThisPool) == 0;
    assert v.Held(ASSET_B, LENDER) == 100 && v.Held(ASSET_B, USER) == 0 && v.Held(ASSET_B, ThisPool) == 0;
    assert v.Held(ASSET_A, LIQUIDATOR) == 0 && v.Held(ASSET_B, LIQUIDATOR) == 200;
  }

  lemma SupplyShows(v: View, u: Address, i: nat, x: int, f: Flags)
    requires u == LENDER || (u == USER && i == 0)
    ensures v.Move(Deposits, i, u, x, u, ThisPool, f).flags == f
    ensures forall n: Figures | Shows(v, n) && i < 2 ::
              Shows(v.Move(Deposits, i, u, x, u, ThisPool, f), Supplied(n, u, i, x, f))
  {
    hide View.Held, View.Balance, View.Total;
    MoveReads(v, Deposits, i, u, x, u, ThisPool, f);
  }

  function Supplied(n: Figures, u: Address, i: nat, x: int, f: Flags): Figures {
    var m := n.(flags := f,
                depositsA := n.depositsA + if i == 0 then x else 0, depositsB := n.depositsB + if i == 0 then 0 else x,
                poolA := n.poolA + if i == 0 then x else 0, poolB := n.poolB + if i == 0 then 0 else x);
    if u == LENDER then
      m.(lenderA := n.lenderA - if i == 0 then x else 0, lenderB := n.lenderB - if i == 0 then 0 else x,
         lenderShares := n.lenderShares + if i == 0 then x else 0)
    else m.(userA := n.userA - if i == 0 then x else 0, userB := n.userB - if i == 0 then 0 else x,
            userShares := n.userShares + if i == 0 then x else 0)
  }

  function Borrowed(n: Figures, i: nat, x: int, f: Flags): Figures {
    if i == 0 then
      n.(flags := f, borrowsA := n.borrowsA + x, debtA := n.debtA + x, poolA := n.poolA - x, userA := n.userA + x)
    else n.(flags := f, borrowsB := n.borrowsB + x, debtB := n.debtB + x, poolB := n.poolB - x, userB := n.userB + x)
  }

  lemma BorrowShows(v: View, i: nat, x: int, f: Flags)
    ensures v.Move(Borrows, i, USER, x, ThisPool, USER, f).flags == f
    ensures forall n: Figures | Shows(v, n) && i < 2 ::
              Shows(v.Move(Borrows, i, USER, x, ThisPool, USER, f), Borrowed(n, i, x, f))
  {
    hide View.Held, View.Balance, View.Total;
    MoveReads(v, Borrows, i, USER, x, ThisPool, USER, f);
  }

  // ----- the run -----

  /** One more step at the end of a run. */
  lemma {:induction false} RunEndsWith(p: Pool, steps: seq<(Env, Op)>, env: Env, op: Op)
    ensures Run(p, steps + [(env, op)]) == Next(Run(p, steps), env, op)
    ensures AllowedRun(p, steps + [(env, op)]) <==> AllowedRun(p, steps) && Allowed(Run(p, steps), op)
    decreases |steps|
  {
    hide Next, Allowed;
    var longer := steps + [(env, op)];
    if steps == [] {
      assert longer[1..] == [];
    } else {
      assert longer[1..] == steps[1..] + [(env, op)];
      RunEndsWith(Next(p, steps[0].0, steps[0].1), steps[1..], env, op);
    }
  }

  lemma BothAreListed()
    ensures At(After(2), View(map[], map[], START, NO_FLAGS)) && AllowedRun(Genesis(START), Steps(2))
  {
    var p0 := Genesis(START);
    var p1 := p0.(core := Listed(p0.core, RESERVE_A, CURVE));
    var p2 := p1.(core := Listed(p1.core, RESERVE_B, CURVE));
    TwoListings(p0, p1, p2);
    hide Admissible, Listed;
    RunEndsWith(p0, [], CALM, OpAt(0));
    assert Steps(1) == [] + [(CALM, OpAt(0))];
    RunEndsWith(p0, Steps(1), CALM, OpAt(1));
    assert Steps(2) == Steps(1) + [(CALM, OpAt(1))];
  }

  lemma TwoListings(p0: Pool, p1: Pool, p2: Pool)
    requires p0 == Genesis(START) && p1 == p0.(core := Listed(p0.core, RESERVE_A, CURVE))
    requires p2 == p1.(core := Listed(p1.core, RESERVE_B, CURVE))
    ensures Admissible(p0.core, RESERVE_A, CURVE) && Next(p0, CALM, OpAt(0)) == p1
    ensures Admissible(p1.core, RESERVE_B, CURVE) && Next(p1, CALM, OpAt(1)) == p2
    ensures At(p2, View(map[], map[], START, NO_FLAGS))
  {
    hide SoundCore, FlagsMatch, Admissible, Surplus, BothListed;
    GenesisIsSound(START);
    FirstIsAdmissible(p0.core);
    AddReserveIsSafe(p0, RESERVE_A, CURVE);
    SecondIsAdmissible(p0.core, p1.core);
    AddReserveIsSafe(p1, RESERVE_B, CURVE);
    ListedBoth(p0, p1, p2);
  }

  lemma ListedBoth(p0: Pool, p1: Pool, p2: Pool)
    requires p0 == Genesis(START) && p1 == p0.(core := Listed(p0.core, RESERVE_A, CURVE))
    requires p2 == p1.(core := Listed(p1.core, RESERVE_B, CURVE))
    ensures BothListed(p2.core) && p2.core.books == map[] && p2.core.cash == START && p2.flags == map[]
  {
    assert p2.core.configs == map[0 := RESERVE_A, 1 := RESERVE_B];
    assert p2.core.indices == map[ASSET_A := 0, ASSET_B := 1];
  }

  lemma FirstIsAdmissible(c: Core)
    requires c == Genesis(START).core
    ensures Admissible(c, RESERVE_A, CURVE) && c.CashOf(ASSET_A, ThisPool) == 0
  {
  }

  lemma SecondIsAdmissible(c: Core, d: Core)
    requires c == Genesis(START).core && d == Listed(c, RESERVE_A, CURVE)
    ensures Admissible(d, RESERVE_B, CURVE) && d.CashOf(ASSET_B, ThisPool) == 0
  {
  }

  lemma SupplyReaches(p: Pool, k: nat, u: Address, i: ReserveIndex, x: i128)
    requires 2 <= k <= 5 && At(p, ViewAt(k)) && OpAt(k) == SupplyOp(u, AssetAt(i), x) && i < 2
    requires u != ThisPool && 0 < x <= ViewAt(k).Held(AssetAt(i), u) && x * RAY <= I128_MAX
    requires 0 <= ViewAt(k).Held(AssetAt(i), ThisPool) <= I128_MAX - x && ViewAt(k).Total(Deposits, i) + x <= I128_MAX
    requires u == USER ==> ViewAt(k).flags == NO_FLAGS && i == 0
    ensures Call(p, CALM, OpAt(k)).Done? && At(Next(p, CALM, OpAt(k)), ViewAt(k + 1))
  {
    hide At, Supply, View.Move, View.Held, View.Total;
    SupplyStep(p, ViewAt(k), u, i, x);
    OneFlagMore();
    var none: set<nat> := {};
    assert none + {0} == {0};
  }

  lemma BorrowReaches(p: Pool, k: nat, i: ReserveIndex, x: i128)
    requires 6 <= k <= 8 && At(p, ViewAt(k)) && OpAt(k) == BorrowOp(USER, AssetAt(i), x) && i < 2
    requires 0 < x <= ViewAt(k).Held(AssetAt(i), ThisPool) && x * RAY <= I128_MAX
    requires 0 <= ViewAt(k).Held(AssetAt(i), USER) <= I128_MAX - x && ViewAt(k).Total(Borrows, i) + x <= I128_MAX
    requires Healthy(Indebted(p, i, USER, x), CALM, USER)
    ensures Call(p, CALM, OpAt(k)).Done? && At(Next(p, CALM, OpAt(k)), ViewAt(k + 1))
  {
    hide At, Borrow, View.Move, View.Held, View.Total, Healthy;
    BorrowStep(p, ViewAt(k), i, x);
  }

  lemma PositionAt(p: Pool, v: View, n: Figures)
    requires At(p, v) && Shows(v, n)
    ensures Position(p, n.userShares, n.debtA, n.debtB, n.flags)
    ensures p.core.BookOf(Borrows, 0).total == n.borrowsA && p.core.BookOf(Borrows, 1).total == n.borrowsB
    ensures 0 in p.core.configs && 1 in p.core.configs
  {
    hide SoundCore, FlagsMatch, Surplus, HeldBy, View.Held, View.Balance, View.Total, Core.BalanceOf, Core.BookOf;
  }

  lemma MovedPosition(p: Pool, q: Pool, collateral: int, debtA: int, debtB: int, f: Flags, s: Side, i: ReserveIndex,
                      x: int, g: Flags)
    requires Position(p, collateral, debtA, debtB, f) && SoundCore(q.core) && SameListing(p.core, q.core)
    requires Moved(p.core, q.core, s, i, USER, x) && q.FlagsOf(USER) == g && (s == Deposits ==> i == 0) && i < 2
    ensures Position(q, collateral + if s == Deposits then x else 0, debtA + if s == Borrows && i == 0 then x else 0,
                     debtB + if s == Borrows && i == 1 then x else 0, g)
  {
    hide SoundCore, Core.BalanceOf, Core.BookOf;
  }

  /** The position the guard of a borrow sees. */
  lemma PositionWithLoan(p: Pool, v: View, n: Figures, i: ReserveIndex, x: i128)
    requires At(p, v) && Shows(v, n) && i < 2 && 0 < x <= 110 * E9 && n.borrowsA <= 180 * E9 && n.borrowsB <= 180 * E9
    ensures i in p.core.configs
    ensures Position(Indebted(p, i, USER, x), n.userShares, n.debtA + if i == 0 then x else 0,
                     n.debtB + if i == 1 then x else 0, n.flags.(borrowed := n.flags.borrowed + {i}))
  {
    hide SoundCore, FlagsMatch, Indebted, Surplus, Mint, Moved, SameListing, Shows, Core.BalanceOf, Core.BookOf;
    PositionAt(p, v, n);
    CreditExactlyWhen(p.core, Borrows, i, USER, x);
    IndebtedHolds(p, i, USER, x);
    MovedPosition(p, Indebted(p, i, USER, x), n.userShares, n.debtA, n.debtB, n.flags, Borrows, i, x,
                  n.flags.(borrowed := n.flags.borrowed + {i}));
  }

  lemma LoanIsHealthy(p: Pool, k: nat, i: ReserveIndex, x: i128)
    requires 6 <= k <= 8 && At(p, ViewAt(k)) && OpAt(k) == BorrowOp(USER, AssetAt(i), x) && i < 2
    ensures Healthy(Indebted(p, i, USER, x), CALM, USER)
    ensures k == 7 ==> HealthFactor(Indebted(p, i, USER, x).core, Flags({0}, {0}), CALM, USER) == Done(I128_MAX)
  {
    hide At, Indebted, Position, HealthFactor, WadDiv, ViewAt, Shows;
    OneFlagMore();
    ViewShows(k);
    PositionWithLoan(p, ViewAt(k), FiguresAt(k), i, x);
    var q := Indebted(p, i, USER, x);
    ThreeQuotients();
    if k == 8 {
      PositionFlags(q, 100 * E9, 180 * E9, 100, Flags({0}, {0, 1}));
      HealthWithCollateral(q, CALM, 180 * E9, 100, Flags({0}, {0, 1}));
    } else {
      var debt := if k == 6 then 70 * E9 else 180 * E9;
      var none: set<nat> := {};
      assert none + {0} == {0};
      PositionFlags(q, 100 * E9, debt, 0, Flags({0}, {0}));
      HealthWithCollateral(q, CALM, debt, 0, Flags({0}, {0}));
    }
  }

  lemma PositionFlags(p: Pool, collateral: int, debtA: int, debtB: int, f: Flags)
    requires Position(p, collateral, debtA, debtB, f)
    ensures p.FlagsOf(USER) == f
  {
  }

  lemma {:induction false} Reaches(k: nat)
    requires 2 <= k <= 9
    ensures At(After(k), ViewAt(k)) && AllowedRun(Genesis(START), Steps(k))
    ensures k > 2 ==> Call(After(k - 1), CALM, OpAt(k - 1)).Done?
    decreases k
  {
    hide At, Run, AllowedRun, Call, Next, View.Held, View.Total, Healthy, Indebted, ViewAt;
    if k == 2 {
      BothAreListed();
      assert ViewAt(2) == View(map[], map[], START, NO_FLAGS) by { FirstView(); }
    } else {
      Reaches(k - 1);
      var p := After(k - 1);
      RunEndsWith(Genesis(START), Steps(k - 1), CALM, OpAt(k - 1));
      ViewShows(k - 1);
      match k
      case 3 => SupplyReaches(p, 2, LENDER, 0, 150 * E9);
      case 4 => SupplyReaches(p, 3, LENDER, 0, 150 * E9);
      case 5 => SupplyReaches(p, 4, LENDER, 1, 100);
      case 6 => SupplyReaches(p, 5, USER, 0, 100 * E9);
      case 7 => LoanIsHealthy(p, 6, 0, 70 * E9); BorrowReaches(p, 6, 0, 70 * E9);
      case 8 => LoanIsHealthy(p, 7, 0, 110 * E9); BorrowReaches(p, 7, 0, 110 * E9);
      case _ => LoanIsHealthy(p, 8, 1, 100); BorrowReaches(p, 8, 1, 100);
    }
  }

  lemma FirstView()
    ensures ViewAt(2) == View(map[], map[], START, NO_FLAGS)
  {
  }

  /** What is known of a state with given figures. */
  ghost predicate Known(p: Pool, n: Figures) {
    && Sound(p) && Position(p, n.userShares, n.debtA, n.debtB, n.flags)
    && p.core.BalanceOf(Deposits, 0, LENDER) == n.lenderShares
    && p.core.BookOf(Deposits, 0).total == n.depositsA && p.core.BookOf(Deposits, 1).total == n.depositsB
    && p.core.BookOf(Borrows, 0).total == n.borrowsA && p.core.BookOf(Borrows, 1).total == n.borrowsB
    && HeldBy(p.core.cash, ASSET_A, ThisPool) == n.poolA && HeldBy(p.core.cash, ASSET_B, ThisPool) == n.poolB
    && HeldBy(p.core.cash, ASSET_A, USER) == n.userA
    && HeldBy(p.core.cash, ASSET_A, LIQUIDATOR) == 0 && HeldBy(p.core.cash, ASSET_B, LIQUIDATOR) == 200
    && (forall j: ReserveIndex :: Surplus(p.core, j) == 0)
  }

  lemma FiguresAreKnown(p: Pool, v: View, n: Figures)
    requires At(p, v) && Shows(v, n)
    ensures Known(p, n)
  {
    hide SoundCore, FlagsMatch, Surplus, HeldBy, View.Held, View.Balance, View.Total, Core.BalanceOf, Core.BookOf;
  }

  lemma StateAfter(k: nat)
    requires 2 <= k <= 9
    ensures Known(After(k), FiguresAt(k))
    ensures k > 2 ==> Call(After(k - 1), CALM, OpAt(k - 1)).Done? && After(k) == Next(After(k - 1), CALM, OpAt(k - 1))
  {
    hide At, Run, Call, Next, ViewAt, Known, Shows;
    Reaches(k);
    ViewShows(k);
    FiguresAreKnown(After(k), ViewAt(k), FiguresAt(k));
    if k > 2 {
      RunEndsWith(Genesis(START), Steps(k - 1), CALM, OpAt(k - 1));
    }
  }

  // ----- what the run shows -----

  predicate FitsRange(x: int) {
    x * RAY + HALF_RAY <= I128_MAX
  }

  /** Two supplies of an amount that fits leave a balance that does not, and none of it can be withdrawn any more. */
  lemma TwoSuppliesLeaveTheRange(env: Env, amount: i128)
    ensures OpAt(2) == OpAt(3) == SupplyOp(LENDER, ASSET_A, 150 * E9) && FitsRange(150 * E9)
    ensures Call(After(2), CALM, OpAt(2)).Done? && Call(After(3), CALM, OpAt(3)).Done?
    ensures FitsRange(After(3).core.BalanceOf(Deposits, 0, LENDER))
    ensures After(4).core.BalanceOf(Deposits, 0, LENDER) == 300 * E9 && !FitsRange(300 * E9)
    ensures Withdraw(After(4), env, LENDER, ASSET_A, amount).Panic?
  {
    hide After, Call, SoundCore, FlagsMatch, Surplus, HeldBy, Withdraw;
    StateAfter(3);
    StateAfter(4);
    OverRangeDepositIsStuck(After(4), env, LENDER, ASSET_A, amount);
  }

  /** The pool's view of the borrower after the second loan: nothing owed, though more is owed than is held. */
  lemma SecondLoanIsInvisible()
    ensures Call(After(7), CALM, OpAt(7)).Done? && After(8) == Next(After(7), CALM, OpAt(7))
    ensures FitsRange(After(7).core.BalanceOf(Borrows, 0, USER))
    ensures After(8).core.BalanceOf(Borrows, 0, USER) == 180 * E9 && !FitsRange(180 * E9)
    ensures After(8).core.BalanceOf(Deposits, 0, USER) == 100 * E9
    ensures HealthFactor(After(8).core, After(8).FlagsOf(USER), CALM, USER) == Done(I128_MAX)
    ensures !Covered(After(8), CALM, USER)
  {
    hide After, Call, Next, SoundCore, FlagsMatch, Surplus, HeldBy, HealthFactor, Covered;
    StateAfter(7);
    StateAfter(8);
    HealthWithCollateral(After(8), CALM, 180 * E9, 0, Flags({0}, {0}));
    LoansAreUncovered(After(8), 100 * E9, Flags({0}, {0}));
  }

  lemma LoansAreUncovered(p: Pool, collateral: int, f: Flags)
    requires Position(p, collateral, 180 * E9, 0, f) && f.borrowed == {0}
    requires (collateral == 100 * E9 && f.collateral == {0}) || (collateral == 0 && f.collateral == {})
    ensures !Covered(p, CALM, USER)
  {
    hide SoundCore;
    var c := p.core;
    assert DebtAt(c, f, CALM, USER, 0) == 180 * E9 * WAD && DebtAt(c, f, CALM, USER, 1) == 0;
    assert Threshold(c, 0) == 800_000_000_000_000_000;
    assert CollateralAt(c, f, CALM, USER, 0) <= 100 * E9 * WAD * 800_000_000_000_000_000;
    assert CollateralAt(c, f, CALM, USER, 1) == 0;
    assert TrueDebt(c, f, CALM, USER, 1) == 180 * E9 * WAD;
    assert TrueDebt(c, f, CALM, USER, 2) == 180 * E9 * WAD;
    assert TrueCollateral(c, f, CALM, USER, 1) <= 100 * E9 * WAD * 800_000_000_000_000_000;
    assert TrueCollateral(c, f, CALM, USER, 2) <= 100 * E9 * WAD * 800_000_000_000_000_000;
    assert CollateralRounding(c, f, 1) <= HALF_WAD * (800_000_000_000_000_000 + WAD);
    assert CollateralRounding(c, f, 2) <= HALF_WAD * (800_000_000_000_000_000 + WAD);
  }

  /** All the collateral can then leave: the withdrawal finishes and nothing covers the debt any more. */
  lemma CollateralCanLeave()
    ensures var r := Withdraw(After(8), CALM, USER, ASSET_A, 100 * E9);
            && r.Done?
            && r.value.core.BalanceOf(Deposits, 0, USER) == 0 && r.value.core.BalanceOf(Borrows, 0, USER) == 180 * E9
            && !Covered(r.value, CALM, USER)
  {
    hide After, SoundCore, FlagsMatch, Surplus, HeldBy, Withdraw, Withdrawn, Accrue, HealthFactor, SameSurplus;
    hide Reflagged;
    hide Moved, Covered;
    StateAfter(8);
    var p := After(8);
    AccrueAtZero(p.core, 0);
    WithdrawnHolds(p, 0, USER, 100 * E9);
    OneFlagLess();
    MovedPosition(p, Withdrawn(p, 0, USER, 100 * E9), 100 * E9, 180 * E9, 0, Flags({0}, {0}), Deposits, 0, -100 * E9,
                  Flags({}, {0}));
    HealthWithoutCollateral(Withdrawn(p, 0, USER, 100 * E9), Flags({}, {0}));
    WithdrawExactlyWhen(p, CALM, USER, ASSET_A, 100 * E9);
    LeftAfterWithdrawal(p);
  }

  lemma LeftAfterWithdrawal(p: Pool)
    requires Sound(p) && Position(p, 100 * E9, 180 * E9, 0, Flags({0}, {0}))
    requires Withdraw(p, CALM, USER, ASSET_A, 100 * E9).Done?
    ensures var q := Withdraw(p, CALM, USER, ASSET_A, 100 * E9).value;
            && q.core.BalanceOf(Deposits, 0, USER) == 0 && q.core.BalanceOf(Borrows, 0, USER) == 180 * E9
            && !Covered(q, CALM, USER)
  {
    hide SoundCore, FlagsMatch, Surplus, Withdraw, SameSurplus, Moved, Covered, SameListing;
    WithdrawIsSafe(p, CALM, USER, ASSET_A, 100 * E9);
    WithdrawKeepsListing(p, CALM, USER, ASSET_A, 100 * E9);
    OneFlagLess();
    var q := Withdraw(p, CALM, USER, ASSET_A, 100 * E9).value;
    assert WithdrawnAmount(p, USER, ASSET_A, 100 * E9) == 100 * E9;
    MovedPosition(p, q, 100 * E9, 180 * E9, 0, Flags({0}, {0}), Deposits, 0, -100 * E9, Flags({}, {0}));
    LoansAreUncovered(q, 0, Flags({}, {0}));
  }

  lemma OneFlagLess()
    ensures var zero: set<nat> := {0}; zero - {0} == {}
  {
  }

  // ----- a liquidation, executed twice -----

  /** The engine's session on the small debt: covers all of it and takes all the collateral, which it is worth. */
  const SESSION := Session(LIQUIDATOR, USER, ASSET_B, ASSET_A, 100, 100 * E9, 1)

  lemma BothPrices()
    ensures PriceOf(SHOCK, ASSET_A) == Done(WAD) && PriceOf(SHOCK, ASSET_B) == Done(RAY) && SHOCK != CALM
  {
    assert SHOCK.prices[ASSET_B] != CALM.prices[ASSET_B];
  }

  lemma PricedSession()
    ensures WAD + PercentToWad(0) == WAD
    ensures WadMul(100, RAY) == Some(100 * E9) && WadMul(100 * E9, WAD) == Some(100 * E9)
    ensures WadDiv(100 * E9, WAD) == Some(100 * E9)
  {
  }

  lemma SessionIsPrepared(p: Pool, ledger: u32)
    requires Position(p, 100 * E9, 180 * E9, 100, Flags({0}, {0, 1}))
    ensures HealthFactor(p.core, p.FlagsOf(USER), SHOCK, USER) == Done(800_000_000_000_000_000)
    ensures Prepare(p, SHOCK, LIQUIDATOR, USER, ASSET_B, ASSET_A, 100, ledger) == Done(SESSION.(createdAt := ledger))
  {
    hide SoundCore, WadMul, WadDiv, PercentToWad, PriceOf, HealthFactor, RayMul;
    BothPrices();
    PricedSession();
    ThreeQuotients();
    HealthWithCollateral(p, SHOCK, 180 * E9, 100, Flags({0}, {0, 1}));
    CellIsSteady(p.core, 0);
    RayMulByOne(100 * E9);
    assert DepositOf(p.core, 0, USER) == 100 * E9;
  }

  /** Tokens of the liquidator and of the pool in both assets. */
  predicate Tokens(cash: Cash, liquidatorA: int, poolA: int, liquidatorB: int, poolB: int) {
    && HeldBy(cash, ASSET_A, LIQUIDATOR) == liquidatorA && HeldBy(cash, ASSET_A, ThisPool) == poolA
    && HeldBy(cash, ASSET_B, LIQUIDATOR) == liquidatorB && HeldBy(cash, ASSET_B, ThisPool) == poolB
  }

  lemma SessionIsPaid(cash: Cash, liquidatorA: nat, poolA: nat, liquidatorB: nat, poolB: nat)
    requires Tokens(cash, liquidatorA, poolA, liquidatorB, poolB)
    requires poolA >= 100 * E9 && liquidatorB >= 100 && liquidatorA + 100 * E9 <= I128_MAX && poolB + 100 <= I128_MAX
    ensures LiquidationPayable(cash, ASSET_B, ASSET_A, LIQUIDATOR, 100, 100 * E9)
    ensures Tokens(MovedCash(MovedCash(cash, ASSET_B, LIQUIDATOR, ThisPool, 100),
                             ASSET_A, ThisPool, LIQUIDATOR, 100 * E9),
                   liquidatorA + 100 * E9, poolA - 100 * E9, liquidatorB - 100, poolB + 100)
  {
    hide HeldBy, MovedCash;
    CashMoves(cash, ASSET_B, LIQUIDATOR, ThisPool, 100);
    CashMoves(MovedCash(cash, ASSET_B, LIQUIDATOR, ThisPool, 100), ASSET_A, ThisPool, LIQUIDATOR, 100 * E9);
  }

  function Executed(p: Pool): Outcome<Pool> {
    Liquidate(p, SHOCK, LIQUIDATOR, USER, ASSET_B, ASSET_A, 100, 100 * E9)
  }

  lemma SessionAccrues(p: Pool)
    requires BothListed(p.core)
    ensures ASSET_A in p.core.indices && ASSET_B in p.core.indices
    ensures p.core.indices[ASSET_B] == 1 && p.core.indices[ASSET_A] == 0 && AccrueBoth(p.core, 1, 0, 0)
  {
    AccrueAtZero(p.core, 1);
    AccrueAtZero(p.core, 0);
  }

  /** Whatever is left of the position goes with the last collateral, the large debt without a record. */
  lemma PositionIsLost(p: Pool)
    requires Position(p, 100 * E9, 180 * E9, 100, Flags({0}, {0, 1}))
    ensures Scalable(p.core, USER, 1, 0, 100, 100 * E9) && DeficitsFit(p, USER, 1, 0, 100, 100 * E9)
    ensures LosesAll(p, 0, USER, 100 * E9)
    ensures LiquidationChange(p, USER, 1, 0, 100, 100 * E9, 0) == -180 * E9
    ensures LiquidationChange(p, USER, 1, 0, 100, 100 * E9, 1) == 0
  {
    assert Unrecorded(180 * E9) == 180 * E9 && Unrecorded(0) == 0;
    forall j: ReserveIndex | j > 1 ensures p.core.BalanceOf(Borrows, j, USER) == 0 {
      HeldIsNonNegative(p.core, Borrows, j, USER);
    }
  }

  lemma FirstExecution(p: Pool)
    requires Known(p, FiguresAt(9))
    ensures Executed(p).Done?
    ensures var q := Executed(p).value;
            && Sound(q) && BothListed(q.core)
            && q.core.BalanceOf(Deposits, 0, USER) == 0
            && (forall j: ReserveIndex :: q.core.BalanceOf(Borrows, j, USER) == 0)
            && Tokens(q.core.cash, 100 * E9, 120 * E9, 100, 100)
            && Surplus(q.core, 0) == -180 * E9 && Surplus(q.core, 1) == 0
  {
    hide SoundCore, FlagsMatch, Liquidate, AccrueBoth, Scalable, DeficitsFit, HeldBy, Surplus, LiquidationChange;
    hide LiquidationPayable, MovedCash, LosesAll, Position;
    PositionIsLost(p);
    assert BothListed(p.core) by { PositionLists(p, 100 * E9, 180 * E9, 100, Flags({0}, {0, 1})); }
    SessionAccrues(p);
    SessionIsPaid(p.core.cash, 0, 220 * E9, 200, 0);
    LiquidateExactlyWhen(p, SHOCK, LIQUIDATOR, USER, ASSET_B, ASSET_A, 100, 100 * E9);
    LiquidateIsSafe(p, SHOCK, LIQUIDATOR, USER, ASSET_B, ASSET_A, 100, 100 * E9);
    LiquidateMovesExactly(p, SHOCK, LIQUIDATOR, USER, ASSET_B, ASSET_A, 100, 100 * E9);
    PositionBalances(p, 100 * E9, 180 * E9, 100, Flags({0}, {0, 1}));
  }

  lemma PositionLists(p: Pool, collateral: int, debtA: int, debtB: int, f: Flags)
    requires Position(p, collateral, debtA, debtB, f)
    ensures BothListed(p.core)
  {
  }

  lemma PositionBalances(p: Pool, collateral: int, debtA: int, debtB: int, f: Flags)
    requires Position(p, collateral, debtA, debtB, f)
    ensures p.core.BalanceOf(Deposits, 0, USER) == collateral
  {
  }

  lemma SecondExecution(q: Pool)
    requires Sound(q) && BothListed(q.core) && Tokens(q.core.cash, 100 * E9, 120 * E9, 100, 100)
    requires q.core.BalanceOf(Deposits, 0, USER) == 0
    requires forall j: ReserveIndex :: q.core.BalanceOf(Borrows, j, USER) == 0
    ensures Executed(q).Done?
    ensures Tokens(Executed(q).value.core.cash, 200 * E9, 20 * E9, 0, 200)
    ensures Surplus(Executed(q).value.core, 0) == Surplus(q.core, 0) - 100 * E9
    ensures Surplus(Executed(q).value.core, 1) == Surplus(q.core, 1) + 100
  {
    hide SoundCore, FlagsMatch, Liquidate, AccrueBoth, HeldBy, Surplus, LiquidationPayable, MovedCash, LosesAll;
    SessionAccrues(q);
    SessionIsPaid(q.core.cash, 100 * E9, 120 * E9, 100, 100);
    LiquidateExactlyWhen(q, SHOCK, LIQUIDATOR, USER, ASSET_B, ASSET_A, 100, 100 * E9);
    LiquidateIsSafe(q, SHOCK, LIQUIDATOR, USER, ASSET_B, ASSET_A, 100, 100 * E9);
  }

  lemma SessionGoesToThePool(p: Pool, created: u32)
    requires created <= 2
    ensures Execute(p, SHOCK, SESSION.(createdAt := created), LIQUIDATOR, 3) == Executed(p)
  {
    hide Liquidate;
  }

  /**
   * The engine takes the borrower for unhealthy because of the small debt alone, and prepares a session that covers
   * just what is owed and takes just what is held. Executing it repays that debt, takes the last collateral, and
   * writes off the large one without a record: the first reserve falls short by all of it.
   */
  lemma OverRangeWriteOffLosesSurplus()
    ensures AllowedRun(Genesis(START), Steps(9)) && Surplus(After(9).core, 0) == Surplus(After(9).core, 1) == 0
    ensures HealthFactor(After(9).core, After(9).FlagsOf(USER), SHOCK, USER) == Done(800_000_000_000_000_000)
    ensures After(9).core.BalanceOf(Borrows, 0, USER) == 180 * E9 && !FitsRange(180 * E9)
    ensures After(9).core.BalanceOf(Borrows, 1, USER) == 100 && After(9).core.BalanceOf(Deposits, 0, USER) == 100 * E9
    ensures Prepare(After(9), SHOCK, LIQUIDATOR, USER, ASSET_B, ASSET_A, 100, 1) == Done(SESSION)
    ensures var r := Execute(After(9), SHOCK, SESSION, LIQUIDATOR, 3);
            && r.Done?
            && (forall j: ReserveIndex :: r.value.core.BalanceOf(Borrows, j, USER) == 0)
            && Surplus(r.value.core, 0) == -180 * E9 && Surplus(r.value.core, 1) == 0
  {
    hide After, AllowedRun, SoundCore, FlagsMatch, Surplus, HeldBy, HealthFactor, Prepare, Execute, Executed;
    Reaches(9);
    StateAfter(9);
    SessionIsPrepared(After(9), 1);
    SessionGoesToThePool(After(9), 1);
    FirstExecution(After(9));
  }

  /** A second session prepared on the same state is executed all the same, and pays the same collateral out again. */
  lemma TwoSessionsPayTwice()
    ensures Prepare(After(9), SHOCK, LIQUIDATOR, USER, ASSET_B, ASSET_A, 100, 1) == Done(SESSION)
    ensures Prepare(After(9), SHOCK, LIQUIDATOR, USER, ASSET_B, ASSET_A, 100, 2) == Done(SESSION.(createdAt := 2))
    ensures var first := Execute(After(9), SHOCK, SESSION, LIQUIDATOR, 3);
            && first.Done? && first.value.core.BalanceOf(Deposits, 0, USER) == 0
            && var second := Execute(first.value, SHOCK, SESSION.(createdAt := 2), LIQUIDATOR, 3);
               && second.Done?
               && HeldBy(second.value.core.cash, ASSET_A, LIQUIDATOR) == 200 * E9
               && Surplus(second.value.core, 0) == Surplus(first.value.core, 0) - 100 * E9 == -280 * E9
               && Surplus(second.value.core, 1) == 100
  {
    hide After, SoundCore, FlagsMatch, Surplus, HeldBy, HealthFactor, Prepare, Execute, Executed, BothListed;
    StateAfter(9);
    SessionIsPrepared(After(9), 1);
    SessionIsPrepared(After(9), 2);
    SessionGoesToThePool(After(9), 1);
    FirstExecution(After(9));
    SessionGoesToThePool(Executed(After(9)).value, 2);
    SecondExecution(Executed(After(9)).value);
  }
}
