/** What a liquidation does to the borrower's books and to the surplus of every reserve, stated before the call. */
module PoolLiquidation {
  import opened Prelude
  import opened PoolMath
  import opened ScaledToken
  import opened Pool
  import opened PoolInvariant
  import opened PoolSafety

  /** What a liquidation burns of a position: the amount asked, at most what is there. */
  function Burned(c: Core, side: Side, i: ReserveIndex, user: Address, amount: i128): int {
    if c.BalanceOf(side, i, user) <= 0 then 0 else AtMost(amount, c.BalanceOf(side, i, user))
  }

  /** A debt too large for the fixed-point product is written off without being recorded. */
  function Unrecorded(owed: int): int {
    if owed * RAY + HALF_RAY <= I128_MAX then 0 else owed
  }

  /** What the borrower still owes in reserve j after repaying in reserve d. */
  function Residue(c: Core, d: ReserveIndex, user: Address, repay: i128, j: ReserveIndex): int {
    c.BalanceOf(Borrows, j, user) - if j == d then Burned(c, Borrows, d, user, repay) else 0
  }

  /** The seizure takes the last of the borrower's flagged collateral. */
  predicate LosesAll(p: Pool, k: ReserveIndex, user: Address, seize: i128) {
    && p.core.BalanceOf(Deposits, k, user) <= seize
    && forall i: ReserveIndex | 0 <= i < p.core.count ::
         i != k && i in p.FlagsOf(user).collateral ==> p.core.BalanceOf(Deposits, i, user) <= 0
  }

  /** What the hook alone does to a reserve's surplus, from the state before the call. */
  function HookChange(p: Pool, borrower: Address, d: ReserveIndex, k: ReserveIndex,
                      repay: i128, seize: i128, j: ReserveIndex): int {
    0
    - (if j == d then Burned(p.core, Borrows, d, borrower, repay) else 0)
    - (if j == k then seize - Burned(p.core, Deposits, k, borrower, seize) else 0)
    - (if LosesAll(p, k, borrower, seize) then Unrecorded(Residue(p.core, d, borrower, repay, j)) else 0)
  }

  /** The exact change of a whole liquidation: the repayment paid in, then the hook. */
  function LiquidationChange(p: Pool, borrower: Address, d: ReserveIndex, k: ReserveIndex,
                             repay: i128, seize: i128, j: ReserveIndex): int {
    (if j == d then repay else 0) + HookChange(p, borrower, d, k, repay, seize, j)
  }

  /** Every scaled balance after the hook, from the state before it. */
  function BalanceAfterHook(p: Pool, borrower: Address, d: ReserveIndex, k: ReserveIndex, repay: i128, seize: i128,
                            s: Side, j: ReserveIndex, u: Address): int {
    if u != borrower then p.core.BalanceOf(s, j, u)
    else if s == Deposits then
      p.core.BalanceOf(Deposits, j, u) - if j == k then Burned(p.core, Deposits, k, borrower, seize) else 0
    else if LosesAll(p, k, borrower, seize) then 0
    else Residue(p.core, d, borrower, repay, j)
  }

  // ----- one burn -----

  /** One side of one position went down by b; flags of that side were cleared if it emptied. */
  ghost predicate Reduced(p: Pool, q: Pool, side: Side, i: ReserveIndex, user: Address, b: int) {
    && q.core == p.core.(books := q.core.books, tokens := q.core.tokens)
    && (forall s: Side, j: ReserveIndex, u: Address ::
          q.core.BalanceOf(s, j, u) == p.core.BalanceOf(s, j, u) - if (s, j, u) == (side, i, user) then b else 0)
    && (forall j: ReserveIndex ::
          Surplus(q.core, j) == Surplus(p.core, j) + if j != i then 0 else if side == Borrows then -b else b)
    && (forall u: Address, j: nat :: j != i || side == Borrows ==>
          (j in q.FlagsOf(u).collateral <==> j in p.FlagsOf(u).collateral))
  }

  lemma BurnPartEffect(p: Pool, side: Side, i: ReserveIndex, user: Address, amount: i128)
    requires Sound(p) && i in p.core.configs && amount > 0 && BurnPart(p, side, i, user, amount, RAY).Done?
    ensures var q := BurnPart(p, side, i, user, amount, RAY).value;
            Sound(q) && Reduced(p, q, side, i, user, Burned(p.core, side, i, user, amount))
  {
    hide SoundCore, Surplus, FlagsMatch, Debit, Scaled, Shifted, Reduced;
    var held := p.core.BalanceOf(side, i, user);
    HeldIsNonNegative(p.core, side, i, user);
    if held > 0 {
      ScaledAtRay(amount);
      var b := AtMost(amount, held);
      DebitEffect(p.core, side, i, user, b);
      var debited := Debit(p.core, side, i, p.core.configs[i], user, b).value;
      HeldIsNonNegative(debited, side, i, user);
      DebitedIsReduced(p, debited, side, i, user, b);
    } else {
      NothingIsReduced(p, side, i, user);
    }
  }

  lemma NothingIsReduced(p: Pool, side: Side, i: ReserveIndex, user: Address)
    ensures Reduced(p, p, side, i, user, 0)
  {
  }

  /** The pool after a debit, its flag cleared if the position emptied. */
  function AfterDebit(p: Pool, d: Core, side: Side, i: ReserveIndex, user: Address): Pool {
    if d.BalanceOf(side, i, user) != 0 then p.(core := d)
    else if side == Deposits then p.(core := d).SetCollateral(user, i, false)
    else p.(core := d).SetBorrowed(user, i, false)
  }

  lemma AfterDebitKeepsCollateral(p: Pool, d: Core, side: Side, i: ReserveIndex, user: Address)
    ensures var q := AfterDebit(p, d, side, i, user);
            forall u: Address, j: nat :: j != i || side == Borrows ==>
              (j in q.FlagsOf(u).collateral <==> j in p.FlagsOf(u).collateral)
  {
  }

  lemma AfterDebitMatches(p: Pool, d: Core, side: Side, i: ReserveIndex, user: Address, b: i128)
    requires FlagsMatch(p) && i in p.core.configs && p.core.BalanceOf(side, i, user) > 0
    requires Shifted(p.core, d, side, i, user, 0 - b as int) && d.BalanceOf(side, i, user) >= 0
    ensures FlagsMatch(AfterDebit(p, d, side, i, user))
  {
    hide Surplus, FlagsMatch, Shifted;
    if side == Deposits {
      FlagsIgnoreDeposits(p, d, i, user, 0 - b as int);
      FlagsIgnoreCollateral(p.(core := d), user, i, false);
    } else {
      FlagFollowsDebt(p, d, i, user, 0 - b as int);
    }
  }

  /** Clearing the flag of an emptied position keeps the flags matching, whichever side it is. */
  lemma DebitedIsReduced(p: Pool, d: Core, side: Side, i: ReserveIndex, user: Address, b: i128)
    requires FlagsMatch(p) && i in p.core.configs && p.core.BalanceOf(side, i, user) > 0
    requires Shifted(p.core, d, side, i, user, 0 - b as int) && d.BalanceOf(side, i, user) >= 0
    ensures FlagsMatch(AfterDebit(p, d, side, i, user)) && Reduced(p, AfterDebit(p, d, side, i, user), side, i, user, b)
  {
    hide Surplus, FlagsMatch;
    ShiftedSurplus(p.core, d, side, i, user, 0 - b as int);
    AfterDebitMatches(p, d, side, i, user, b);
    AfterDebitKeepsCollateral(p, d, side, i, user);
    assert AfterDebit(p, d, side, i, user).core == d;
    hide AfterDebit;
  }

  // ----- writing off -----

  /** Of one user, the debts of the chosen reserves became zero, and each surplus fell by what went unrecorded. */
  ghost predicate Wiped(c: Core, d: Core, user: Address, chosen: set<nat>) {
    && d == c.(cells := d.cells, books := d.books, tokens := d.tokens)
    && (forall j: ReserveIndex :: j !in chosen ==> d.CellOf(j) == c.CellOf(j))
    && (forall s: Side, j: ReserveIndex, u: Address ::
          d.BalanceOf(s, j, u) == if s == Borrows && u == user && j in chosen then 0 else c.BalanceOf(s, j, u))
    && (forall j: ReserveIndex ::
          Surplus(d, j) == Surplus(c, j) - if j in chosen then Unrecorded(c.BalanceOf(Borrows, j, user)) else 0)
  }

  lemma NothingIsWiped(c: Core, user: Address, chosen: set<nat>)
    requires forall j: ReserveIndex :: j in chosen ==> c.BalanceOf(Borrows, j, user) == 0
    ensures Wiped(c, c, user, chosen)
  {
  }

  lemma WipedInTurn(c: Core, d: Core, e: Core, user: Address, chosen: set<nat>, i: ReserveIndex)
    requires Wiped(c, d, user, chosen) && Wiped(d, e, user, {i}) && i !in chosen
    ensures Wiped(c, e, user, chosen + {i})
  {
    hide Surplus, Unrecorded;
  }

  lemma DeficitNoted(c: Core, i: ReserveIndex, deficit: i128)
    requires i in c.configs
    ensures var e := c.(cells := c.cells[i := c.CellOf(i).(deficit := deficit)]);
            forall j: ReserveIndex :: Surplus(e, j) == Surplus(c, j) + if j == i then deficit - c.CellOf(i).deficit else 0
  {
  }

  lemma WipeOneEffect(c: Core, user: Address, i: ReserveIndex)
    requires SoundCore(c) && i in c.configs && WipeOne(c, user, i).Done?
    ensures var d := WipeOne(c, user, i).value;
            SoundCore(d) && Wiped(c, d, user, {i})
  {
    hide SoundCore, Surplus, Debit, RayMul, Shifted, Wiped;
    var owed := c.BalanceOf(Borrows, i, user);
    HeldIsNonNegative(c, Borrows, i, user);
    if owed > 0 {
      var cell := c.CellOf(i);
      CellIsSteady(c, i);
      RayMulByOne(owed);
      var deficit := cell.deficit + RayMul(owed, RAY).GetOr(0);
      CellWritten(c, i, cell.(deficit := deficit));
      var e := c.(cells := c.cells[i := cell.(deficit := deficit)]);
      DebitEffect(e, Borrows, i, user, owed);
      WrittenOffIsWiped(c, Debit(e, Borrows, i, e.configs[i], user, owed).value, user, i, deficit);
    } else {
      NothingIsWiped(c, user, {i});
    }
  }

  lemma WrittenOffIsWiped(c: Core, d: Core, user: Address, i: ReserveIndex, deficit: i128)
    requires i in c.configs
    requires var owed := c.BalanceOf(Borrows, i, user);
             && deficit == c.CellOf(i).deficit + owed - Unrecorded(owed)
             && Shifted(c.(cells := c.cells[i := c.CellOf(i).(deficit := deficit)]), d, Borrows, i, user, 0 - owed as int)
    ensures Wiped(c, d, user, {i})
  {
    hide Surplus, Unrecorded;
    var e := c.(cells := c.cells[i := c.CellOf(i).(deficit := deficit)]);
    DeficitNoted(c, i, deficit);
    ShiftedSurplus(e, d, Borrows, i, user, 0 - c.BalanceOf(Borrows, i, user) as int);
  }

  function FirstOf(s: set<nat>, n: nat): set<nat> {
    set j <- s | j < n
  }

  lemma {:induction false} WipeEffect(c: Core, borrowed: set<nat>, user: Address, n: ReserveCount)
    requires SoundCore(c) && n <= c.count && Wipe(c, borrowed, user, n).Done?
    ensures var d := Wipe(c, borrowed, user, n).value;
            SoundCore(d) && Wiped(c, d, user, FirstOf(borrowed, n))
  {
    hide SoundCore, Surplus, WipeOne, Wiped;
    if n == 0 {
      NothingIsWiped(c, user, FirstOf(borrowed, 0));
    } else {
      WipeEffect(c, borrowed, user, n - 1);
      var before := Wipe(c, borrowed, user, n - 1).value;
      if n - 1 in borrowed {
        WipedKeepsReserves(c, before, user, FirstOf(borrowed, n - 1), n - 1);
        WipeOneEffect(before, user, n - 1);
        WipedInTurn(c, before, WipeOne(before, user, n - 1).value, user, FirstOf(borrowed, n - 1), n - 1);
        assert FirstOf(borrowed, n) == FirstOf(borrowed, n - 1) + {n - 1};
      } else {
        assert FirstOf(borrowed, n) == FirstOf(borrowed, n - 1);
      }
    }
  }

  lemma WipedKeepsReserves(c: Core, d: Core, user: Address, chosen: set<nat>, i: ReserveIndex)
    requires SoundCore(c) && Wiped(c, d, user, chosen) && i < c.count
    ensures i in d.configs && d.count == c.count && d.configs == c.configs && d.cash == c.cash
  {
  }

  lemma DebtIsListed(c: Core, i: ReserveIndex, user: Address)
    requires SoundCore(c)
    ensures i >= c.count ==> c.BalanceOf(Borrows, i, user) == 0
    ensures c.BalanceOf(Borrows, i, user) >= 0
  {
    HeldIsNonNegative(c, Borrows, i, user);
  }

  predicate Wipes(p: Pool, borrower: Address, k: ReserveIndex) {
    && p.core.BalanceOf(Deposits, k, borrower) == 0
    && !HasCollateral(p.core, p.FlagsOf(borrower), borrower, p.core.count)
  }

  /** Socialisation writes off everything the borrower owes, in every reserve, or does nothing at all. */
  lemma SocializeEffect(p: Pool, borrower: Address, k: ReserveIndex)
    requires Sound(p) && Socialize(p, borrower, k).Done?
    ensures var q := Socialize(p, borrower, k).value;
            && Sound(q)
            && (!Wipes(p, borrower, k) ==> q == p)
            && (Wipes(p, borrower, k) ==>
                  && q.FlagsOf(borrower) == Flags(p.FlagsOf(borrower).collateral, {})
                  && (forall s: Side, j: ReserveIndex, u: Address ::
                        q.core.BalanceOf(s, j, u) == if s == Borrows && u == borrower then 0 else p.core.BalanceOf(s, j, u))
                  && (forall j: ReserveIndex ::
                        Surplus(q.core, j) == Surplus(p.core, j) - Unrecorded(p.core.BalanceOf(Borrows, j, borrower))))
  {
    hide SoundCore, Surplus, Wipe, HasCollateral, Wiped, FlagsMatch;
    if Wipes(p, borrower, k) {
      var f := p.FlagsOf(borrower);
      var wiped := Wipe(p.core, f.borrowed, borrower, p.core.count).value;
      WipeEffect(p.core, f.borrowed, borrower, p.core.count);
      FlaggedAreAllDebts(p, borrower);
      WipedEverything(p, wiped, borrower);
      ClearedFlagsMatch(p, wiped, borrower);
    }
  }

  lemma FlaggedAreAllDebts(p: Pool, user: Address)
    requires Sound(p)
    ensures forall j: ReserveIndex ::
              && p.core.BalanceOf(Borrows, j, user) >= 0
              && (j in FirstOf(p.FlagsOf(user).borrowed, p.core.count) <==> p.core.BalanceOf(Borrows, j, user) > 0)
  {
    hide SoundCore;
    forall j: ReserveIndex
      ensures p.core.BalanceOf(Borrows, j, user) >= 0
      ensures j in FirstOf(p.FlagsOf(user).borrowed, p.core.count) <==> p.core.BalanceOf(Borrows, j, user) > 0
    {
      DebtIsListed(p.core, j, user);
    }
  }

  lemma WipedEverything(p: Pool, d: Core, user: Address)
    requires var chosen := FirstOf(p.FlagsOf(user).borrowed, p.core.count);
             && Wiped(p.core, d, user, chosen)
             && forall j: ReserveIndex ::
                  && p.core.BalanceOf(Borrows, j, user) >= 0
                  && (j in chosen <==> p.core.BalanceOf(Borrows, j, user) > 0)
    ensures forall s: Side, j: ReserveIndex, u: Address ::
              d.BalanceOf(s, j, u) == if s == Borrows && u == user then 0 else p.core.BalanceOf(s, j, u)
    ensures forall j: ReserveIndex :: Surplus(d, j) == Surplus(p.core, j) - Unrecorded(p.core.BalanceOf(Borrows, j, user))
  {
    hide Surplus, FirstOf;
    assert Unrecorded(0) == 0;
  }

  lemma ClearedFlagsMatch(p: Pool, d: Core, user: Address)
    requires FlagsMatch(p)
    requires forall s: Side, j: ReserveIndex, u: Address ::
               d.BalanceOf(s, j, u) == if s == Borrows && u == user then 0 else p.core.BalanceOf(s, j, u)
    ensures var q := Pool(d, p.flags[user := p.FlagsOf(user).(borrowed := {})]);
            FlagsMatch(q) && q.FlagsOf(user) == Flags(p.FlagsOf(user).collateral, {})
  {
    var q := Pool(d, p.flags[user := p.FlagsOf(user).(borrowed := {})]);
    forall u: Address | u != user ensures q.FlagsOf(u) == p.FlagsOf(u) {}
    assert q.FlagsOf(user) == Flags(p.FlagsOf(user).collateral, {});
  }

  // ----- the hook -----

  lemma SettleEffect(p: Pool, env: Env, liquidator: Address, borrower: Address,
                     debtAsset: Address, collateralAsset: Address, repay: i128, seize: i128)
    requires Sound(p) && liquidator != ThisPool && repay > 0 && seize > 0
    requires Settle(p, env, liquidator, borrower, debtAsset, collateralAsset, repay, seize).Done?
    requires debtAsset in p.core.indices && collateralAsset in p.core.indices
    ensures var q := Settle(p, env, liquidator, borrower, debtAsset, collateralAsset, repay, seize).value;
            Sound(q) && Settled(p, q, borrower, p.core.indices[debtAsset], p.core.indices[collateralAsset], repay, seize)
  {
    hide SoundCore, Surplus, FlagsMatch, Accrue, Transfer, BurnPart, Reduced, Burned, Settled;
    var d, k := p.core.indices[debtAsset], p.core.indices[collateralAsset];
    ReserveKnown(p.core, debtAsset);
    ReserveKnown(p.core, collateralAsset);
    var paidOut := Transfer(p.core, collateralAsset, ThisPool, liquidator, seize).value;
    TransferEffect(p.core, collateralAsset, ThisPool, liquidator, seize);
    CashWritten(p.core, paidOut.cash);
    var debtAccrued := Accrue(paidOut, d, env.now).value;
    AccrueEffect(paidOut, d, env.now);
    AccruedSurplus(paidOut, debtAccrued);
    var accrued := Accrue(debtAccrued, k, env.now).value;
    AccrueEffect(debtAccrued, k, env.now);
    AccruedSurplus(debtAccrued, accrued);
    CellIsSteady(debtAccrued, d);
    CellIsSteady(accrued, k);
    var p1 := p.(core := accrued);
    FlagsIgnoreOtherWrites(p, accrued);
    BurnPartEffect(p1, Borrows, d, borrower, repay);
    var p2 := BurnPart(p1, Borrows, d, borrower, repay, RAY).value;
    assert p2.core.configs == p.core.configs && p2.core.indices == p.core.indices && p2.core.count == p.core.count
      by { ReducedKeepsReserves(p1, p2, Borrows, d, borrower, Burned(p1.core, Borrows, d, borrower, repay)); }
    BurnPartEffect(p2, Deposits, k, borrower, seize);
    var p3 := BurnPart(p2, Deposits, k, borrower, seize, RAY).value;
    SettledInTurn(p, p1, p2, p3, borrower, d, k, repay, seize);
  }

  lemma ReducedKeepsReserves(p: Pool, q: Pool, side: Side, i: ReserveIndex, user: Address, b: int)
    requires Reduced(p, q, side, i, user, b)
    ensures q.core.configs == p.core.configs && q.core.indices == p.core.indices && q.core.count == p.core.count
  {
  }

  /** The two burns and the payout, and nothing else of anybody. */
  ghost predicate Settled(p: Pool, q: Pool, borrower: Address, d: ReserveIndex, k: ReserveIndex,
                          repay: i128, seize: i128) {
    && q.core.indices == p.core.indices && q.core.count == p.core.count
    && (forall s: Side, j: ReserveIndex, u: Address ::
          q.core.BalanceOf(s, j, u) == p.core.BalanceOf(s, j, u)
            - (if (s, j, u) == (Borrows, d, borrower) then Burned(p.core, Borrows, d, borrower, repay) else 0)
            - (if (s, j, u) == (Deposits, k, borrower) then Burned(p.core, Deposits, k, borrower, seize) else 0))
    && (forall j: ReserveIndex ::
          Surplus(q.core, j) == Surplus(p.core, j)
            - (if j == d then Burned(p.core, Borrows, d, borrower, repay) else 0)
            - (if j == k then seize - Burned(p.core, Deposits, k, borrower, seize) else 0))
    && (forall u: Address, j: nat :: j != k ==> (j in q.FlagsOf(u).collateral <==> j in p.FlagsOf(u).collateral))
  }

  lemma BurnedIsUnaffected(p: Pool, p1: Pool, p2: Pool, borrower: Address,
                           d: ReserveIndex, k: ReserveIndex, repay: i128, seize: i128, b: int)
    requires p1.core.books == p.core.books && Reduced(p1, p2, Borrows, d, borrower, b)
    ensures Burned(p1.core, Borrows, d, borrower, repay) == Burned(p.core, Borrows, d, borrower, repay)
    ensures Burned(p2.core, Deposits, k, borrower, seize) == Burned(p.core, Deposits, k, borrower, seize)
  {
    hide Surplus;
    assert p2.core.BalanceOf(Deposits, k, borrower) == p1.core.BalanceOf(Deposits, k, borrower);
  }

  lemma TwoBurnsOnBalances(p: Pool, p1: Pool, p2: Pool, p3: Pool, user: Address,
                           d: ReserveIndex, k: ReserveIndex, b1: int, b2: int)
    requires p1.core.books == p.core.books
    requires Reduced(p1, p2, Borrows, d, user, b1) && Reduced(p2, p3, Deposits, k, user, b2)
    ensures forall s: Side, j: ReserveIndex, u: Address ::
              p3.core.BalanceOf(s, j, u) == p.core.BalanceOf(s, j, u)
                - (if (s, j, u) == (Borrows, d, user) then b1 else 0)
                - (if (s, j, u) == (Deposits, k, user) then b2 else 0)
  {
    hide Surplus;
    forall s: Side, j: ReserveIndex, u: Address
      ensures p3.core.BalanceOf(s, j, u) == p.core.BalanceOf(s, j, u)
                - (if (s, j, u) == (Borrows, d, user) then b1 else 0)
                - (if (s, j, u) == (Deposits, k, user) then b2 else 0)
    {
      assert p3.core.BalanceOf(s, j, u)
             == p2.core.BalanceOf(s, j, u) - if (s, j, u) == (Deposits, k, user) then b2 else 0;
    }
  }

  lemma TwoBurnsOnFlags(p: Pool, p1: Pool, p2: Pool, p3: Pool, user: Address,
                           d: ReserveIndex, k: ReserveIndex, b1: int, b2: int)
    requires p1.flags == p.flags
    requires Reduced(p1, p2, Borrows, d, user, b1) && Reduced(p2, p3, Deposits, k, user, b2)
    ensures forall u: Address, j: nat :: j != k ==> (j in p3.FlagsOf(u).collateral <==> j in p.FlagsOf(u).collateral)
  {
    hide Surplus;
    forall u: Address, j: nat | j != k ensures j in p3.FlagsOf(u).collateral <==> j in p.FlagsOf(u).collateral {
      assert j in p3.FlagsOf(u).collateral <==> j in p2.FlagsOf(u).collateral;
    }
  }

  lemma TwoBurnsOnSurplus(p: Pool, p1: Pool, p2: Pool, p3: Pool, user: Address, d: ReserveIndex, k: ReserveIndex,
                          paid: int, b1: int, b2: int)
    requires forall j: ReserveIndex :: Surplus(p1.core, j) == Surplus(p.core, j) - if j == k then paid else 0
    requires Reduced(p1, p2, Borrows, d, user, b1) && Reduced(p2, p3, Deposits, k, user, b2)
    ensures forall j: ReserveIndex ::
              Surplus(p3.core, j) == Surplus(p.core, j) - (if j == d then b1 else 0) - (if j == k then paid - b2 else 0)
    ensures p3.core.indices == p1.core.indices && p3.core.count == p1.core.count
  {
    hide Surplus;
  }

  lemma SettledInTurn(p: Pool, p1: Pool, p2: Pool, p3: Pool, borrower: Address,
                      d: ReserveIndex, k: ReserveIndex, repay: i128, seize: i128)
    requires p1.flags == p.flags && p1.core.books == p.core.books
    requires p1.core.indices == p.core.indices && p1.core.count == p.core.count
    requires forall j: ReserveIndex :: Surplus(p1.core, j) == Surplus(p.core, j) - if j == k then seize else 0
    requires Reduced(p1, p2, Borrows, d, borrower, Burned(p1.core, Borrows, d, borrower, repay))
    requires Reduced(p2, p3, Deposits, k, borrower, Burned(p2.core, Deposits, k, borrower, seize))
    ensures Settled(p, p3, borrower, d, k, repay, seize)
  {
    hide Surplus, Reduced;
    var b1, b2 := Burned(p.core, Borrows, d, borrower, repay), Burned(p.core, Deposits, k, borrower, seize);
    BurnedIsUnaffected(p, p1, p2, borrower, d, k, repay, seize, Burned(p1.core, Borrows, d, borrower, repay));
    hide Burned;
    TwoBurnsOnBalances(p, p1, p2, p3, borrower, d, k, b1, b2);
    TwoBurnsOnFlags(p, p1, p2, p3, borrower, d, k, b1, b2);
    TwoBurnsOnSurplus(p, p1, p2, p3, borrower, d, k, seize, b1, b2);
  }

  /** Whether the hook writes debts off can be told from the state before the call. */
  lemma WipesExactlyWhenAllIsLost(p: Pool, q: Pool, borrower: Address, d: ReserveIndex, k: ReserveIndex,
                                  repay: i128, seize: i128)
    requires Settled(p, q, borrower, d, k, repay, seize) && p.core.BalanceOf(Deposits, k, borrower) >= 0 && seize > 0
    ensures Wipes(q, borrower, k) <==> LosesAll(p, k, borrower, seize)
    ensures forall j: ReserveIndex :: q.core.BalanceOf(Borrows, j, borrower) == Residue(p.core, d, borrower, repay, j)
  {
    forall i: ReserveIndex | i != k
      ensures q.core.BalanceOf(Deposits, i, borrower) == p.core.BalanceOf(Deposits, i, borrower)
      ensures i in q.FlagsOf(borrower).collateral <==> i in p.FlagsOf(borrower).collateral
    {
    }
  }

  lemma SettledAssetsAreListed(p: Pool, env: Env, liquidator: Address, borrower: Address,
                               debtAsset: Address, collateralAsset: Address, repay: i128, seize: i128)
    requires Settle(p, env, liquidator, borrower, debtAsset, collateralAsset, repay, seize).Done?
    ensures debtAsset in p.core.indices && collateralAsset in p.core.indices
  {
    hide Accrue, BurnPart;
  }

  lemma HookIsSafe(p: Pool, env: Env, liquidator: Address, borrower: Address,
                   debtAsset: Address, collateralAsset: Address, repay: i128, seize: i128)
    requires Sound(p) && liquidator != ThisPool
    requires LiquidationHook(p, env, liquidator, borrower, debtAsset, collateralAsset, repay, seize).Done?
    ensures debtAsset in p.core.indices && collateralAsset in p.core.indices
    ensures var q := LiquidationHook(p, env, liquidator, borrower, debtAsset, collateralAsset, repay, seize).value;
            var d, k := p.core.indices[debtAsset], p.core.indices[collateralAsset];
            && Sound(q)
            && (forall j: ReserveIndex ::
                  Surplus(q.core, j) == Surplus(p.core, j) + HookChange(p, borrower, d, k, repay, seize, j))
  {
    SettledAssetsAreListed(p, env, liquidator, borrower, debtAsset, collateralAsset, repay, seize);
    hide SoundCore, Surplus, FlagsMatch, Socialize, Settled, Wipes, Settle, LosesAll, Unrecorded, Burned;
    var d, k := p.core.indices[debtAsset], p.core.indices[collateralAsset];
    var settled := Settle(p, env, liquidator, borrower, debtAsset, collateralAsset, repay, seize).value;
    SettleEffect(p, env, liquidator, borrower, debtAsset, collateralAsset, repay, seize);
    SettledSurplus(p, settled, borrower, d, k, repay, seize);
    HeldIsNonNegative(p.core, Deposits, k, borrower);
    WipesExactlyWhenAllIsLost(p, settled, borrower, d, k, repay, seize);
    SocializeEffect(settled, borrower, k);
  }

  /** Nobody but the borrower is touched, and the borrower's balances are told from the state before the call. */
  lemma HookMovesExactly(p: Pool, env: Env, liquidator: Address, borrower: Address,
                         debtAsset: Address, collateralAsset: Address, repay: i128, seize: i128)
    requires Sound(p) && liquidator != ThisPool
    requires debtAsset in p.core.indices && collateralAsset in p.core.indices
    requires LiquidationHook(p, env, liquidator, borrower, debtAsset, collateralAsset, repay, seize).Done?
    ensures var q := LiquidationHook(p, env, liquidator, borrower, debtAsset, collateralAsset, repay, seize).value;
            var d, k := p.core.indices[debtAsset], p.core.indices[collateralAsset];
            forall s: Side, j: ReserveIndex, u: Address ::
              q.core.BalanceOf(s, j, u) == BalanceAfterHook(p, borrower, d, k, repay, seize, s, j, u)
  {
    hide SoundCore, Surplus, FlagsMatch, Socialize, Settled, Wipes, Settle, LosesAll, Unrecorded, Burned, Residue;
    var d, k := p.core.indices[debtAsset], p.core.indices[collateralAsset];
    var settled := Settle(p, env, liquidator, borrower, debtAsset, collateralAsset, repay, seize).value;
    SettleEffect(p, env, liquidator, borrower, debtAsset, collateralAsset, repay, seize);
    SettledBalances(p, settled, borrower, d, k, repay, seize);
    HeldIsNonNegative(p.core, Deposits, k, borrower);
    WipesExactlyWhenAllIsLost(p, settled, borrower, d, k, repay, seize);
    SocializeEffect(settled, borrower, k);
  }

  lemma SettledBalances(p: Pool, q: Pool, borrower: Address, d: ReserveIndex, k: ReserveIndex, repay: i128, seize: i128)
    requires Settled(p, q, borrower, d, k, repay, seize)
    ensures forall s: Side, j: ReserveIndex, u: Address ::
              q.core.BalanceOf(s, j, u) ==
                if u != borrower then p.core.BalanceOf(s, j, u)
                else if s == Deposits then
                  p.core.BalanceOf(Deposits, j, u) - if j == k then Burned(p.core, Deposits, k, borrower, seize) else 0
                else Residue(p.core, d, borrower, repay, j)
  {
    hide Burned;
  }

  lemma SettledSurplus(p: Pool, q: Pool, borrower: Address, d: ReserveIndex, k: ReserveIndex, repay: i128, seize: i128)
    requires Settled(p, q, borrower, d, k, repay, seize)
    ensures forall j: ReserveIndex ::
              Surplus(q.core, j) == Surplus(p.core, j)
                - (if j == d then Burned(p.core, Borrows, d, borrower, repay) else 0)
                - (if j == k then seize - Burned(p.core, Deposits, k, borrower, seize) else 0)
  {
  }
}
