/**
 * What every lending-pool operation keeps: both indices of every reserve stay at one RAY, the pool's book of
 * each side equals the token contract's ledger and sums to its total, and borrow flags mark exactly the debts.
 */
module PoolInvariant {
  import opened Prelude
  import opened PoolMath
  import opened Sums
  import opened ScaledToken
  import opened Pool

  predicate SaneRates(rc: RateConfig) {
    SaneCurve(rc.optimal, rc.base, rc.slope1, rc.slope2)
  }

  predicate OwnTokens(configs: map<ReserveIndex, ReserveConfig>) {
    forall i <- configs, j <- configs, s: Side, t: Side ::
      configs[i].TokenAt(s) == configs[j].TokenAt(t) ==> i == j && s == t
  }

  /** Reserves are numbered without gaps, one per asset, each with token contracts of its own. */
  predicate Registered(c: Core) {
    && (forall i: ReserveIndex :: i in c.configs <==> i < c.count)
    && (forall i: ReserveIndex :: i in c.rates <==> i < c.count)
    && (forall i <- c.configs :: c.configs[i].asset in c.indices && c.indices[c.configs[i].asset] == i)
    && (forall a <- c.indices :: c.indices[a] in c.configs && c.configs[c.indices[a]].asset == a)
    && OwnTokens(c.configs)
    && (forall i <- c.configs :: c.configs[i].reserveFactor <= PERCENTAGE_FACTOR)
    && (forall i <- c.rates :: SaneRates(c.rates[i]))
  }

  predicate Steady(cell: Cell) {
    cell.liquidityIndex == RAY && cell.borrowIndex == RAY && cell.borrowRate >= 0 && cell.deficit >= 0
  }

  /** The pool's book of one side is the token contract's ledger, and it adds up. */
  ghost predicate Mirrored(c: Core, side: Side, i: ReserveIndex)
    requires i in c.configs
  {
    c.BookOf(side, i) == c.TokenOf(c.configs[i].TokenAt(side)) && c.BookOf(side, i).Balanced()
  }

  ghost predicate SoundCore(c: Core) {
    && Registered(c)
    && (forall i <- c.cells :: i in c.configs && Steady(c.cells[i]))
    && (forall i <- c.configs, side: Side :: Mirrored(c, side, i))
    && (forall k <- c.books :: k.1 in c.configs)
  }

  ghost predicate FlagsMatch(p: Pool) {
    forall u: Address, i: nat ::
      i in p.FlagsOf(u).borrowed <==> i < 64 && p.core.BalanceOf(Borrows, i, u) > 0
  }

  ghost predicate Sound(p: Pool) {
    SoundCore(p.core) && FlagsMatch(p)
  }

  /** Cash in the pool, plus what is lent, plus recorded deficit, minus what is owed to depositors. */
  function Surplus(c: Core, i: ReserveIndex): int {
    if i in c.configs then
      c.CashOf(c.configs[i].asset, ThisPool) + c.BookOf(Borrows, i).total + c.CellOf(i).deficit
      - c.BookOf(Deposits, i).total
    else 0
  }

  // ----- effects of the shared steps -----

  /** Only accrual time and borrow rates moved. */
  ghost predicate OnlyAccrued(c: Core, d: Core) {
    && d == c.(cells := d.cells)
    && (forall j: ReserveIndex :: d.CellOf(j).deficit == c.CellOf(j).deficit)
  }

  lemma AccruedSurplus(c: Core, d: Core)
    requires OnlyAccrued(c, d)
    ensures forall j: ReserveIndex :: Surplus(d, j) == Surplus(c, j)
  {
  }

  lemma AccrueEffect(c: Core, i: ReserveIndex, now: u64)
    requires SoundCore(c) && i in c.configs && Accrue(c, i, now).Done?
    ensures SoundCore(Accrue(c, i, now).value) && OnlyAccrued(c, Accrue(c, i, now).value)
  {
    if now > c.CellOf(i).lastUpdate {
      AccruedCellIsSteady(c, i, now);
      CellWritten(c, i, AccruedCell(c, i, now).value);
    }
  }

  lemma CellWritten(c: Core, i: ReserveIndex, cell: Cell)
    requires SoundCore(c) && i in c.configs && Steady(cell)
    ensures SoundCore(c.(cells := c.cells[i := cell]))
  {
    var d := c.(cells := c.cells[i := cell]);
    forall j <- d.configs, side: Side ensures Mirrored(d, side, j) {
      assert Mirrored(c, side, j);
    }
  }

  lemma CellIsSteady(c: Core, i: ReserveIndex)
    requires SoundCore(c)
    ensures Steady(c.CellOf(i))
  {
  }

  /** The indices never move: a multiplier of at least one RAY times an index of one RAY is out of range. */
  lemma AccruedCellIsSteady(c: Core, i: ReserveIndex, now: u64)
    requires SoundCore(c) && i in c.configs && now > c.CellOf(i).lastUpdate && AccruedCell(c, i, now).Done?
    ensures Steady(AccruedCell(c, i, now).value)
    ensures AccruedCell(c, i, now).value.deficit == c.CellOf(i).deficit
  {
    var cell := c.CellOf(i);
    var elapsed: u64 := now - cell.lastUpdate;
    TotalsAreNonNegative(c, i);
    var u := UtilizationRate(c.BookOf(Deposits, i).total, c.BookOf(Borrows, i).total).GetOr(0);
    UtilizationNonNegative(c.BookOf(Deposits, i).total, c.BookOf(Borrows, i).total);
    CompoundedAtLeastOne(cell.borrowRate * WAD_TO_RAY, elapsed);
    RayMulOfTwoRaysOverflows(RAY, CompoundedInterest(cell.borrowRate * WAD_TO_RAY, elapsed).GetOr(RAY));
    var supplyRate := SupplyRate(cell.borrowRate, u, c.configs[i].reserveFactor).GetOr(0);
    SupplyRateNonNegative(cell.borrowRate, u, c.configs[i].reserveFactor);
    LinearAtLeastOne(supplyRate * WAD_TO_RAY, elapsed);
    RayMulOfTwoRaysOverflows(RAY, LinearInterest(supplyRate * WAD_TO_RAY, elapsed).GetOr(RAY));
    var rc := c.rates[i];
    BorrowRateNonNegative(u, rc.optimal, rc.base, rc.slope1, rc.slope2);
  }

  lemma TotalsAreNonNegative(c: Core, i: ReserveIndex)
    requires SoundCore(c) && i in c.configs
    ensures c.BookOf(Deposits, i).total >= 0 && c.BookOf(Borrows, i).total >= 0
  {
    assert Mirrored(c, Deposits, i) && Mirrored(c, Borrows, i);
    BalancedTotal(c.BookOf(Deposits, i));
    BalancedTotal(c.BookOf(Borrows, i));
  }

  lemma BalancedTotal(l: Ledger)
    requires l.Balanced()
    ensures l.total >= 0
    ensures forall u: Address :: 0 <= l.BalanceOf(u) <= l.total
  {
    if l.balances != map[] {
      SumDominates(l.balances, Pick(l.balances));
    }
    forall u: Address ensures 0 <= l.BalanceOf(u) <= l.total {
      if u in l.balances {
        SumDominates(l.balances, u);
      }
    }
  }

  /** One user's balance in one book moved by x, and the total with it; nothing else moved. */
  ghost predicate Shifted(c: Core, d: Core, side: Side, i: ReserveIndex, user: Address, x: int) {
    && d == c.(books := d.books, tokens := d.tokens)
    && InI128(c.BalanceOf(side, i, user) + x) && InI128(c.BookOf(side, i).total + x)
    && d.BookOf(side, i) == c.BookOf(side, i).Set(user, c.BalanceOf(side, i, user) + x, c.BookOf(side, i).total + x)
    && (forall s: Side, j: ReserveIndex :: (s, j) != (side, i) ==> d.BookOf(s, j) == c.BookOf(s, j))
  }

  /** One side of one reserve replaced in the pool's books and in the token contract alike. */
  function WithBook(c: Core, side: Side, i: ReserveIndex, book: Ledger): Core
    requires i in c.configs
  {
    c.(books := c.books[(side, i) := book], tokens := c.tokens[c.configs[i].TokenAt(side) := book])
  }

  lemma OneBookWritten(c: Core, side: Side, i: ReserveIndex, book: Ledger)
    requires SoundCore(c) && i in c.configs && book.Balanced()
    ensures SoundCore(WithBook(c, side, i, book))
  {
    hide Ledger.Balanced, Steady, SaneRates;
    var d := WithBook(c, side, i, book);
    forall j <- d.configs, s: Side ensures Mirrored(d, s, j) {
      assert Mirrored(c, s, j);
    }
  }

  lemma OneBookShifted(c: Core, side: Side, i: ReserveIndex, user: Address, x: int)
    requires i in c.configs && InI128(c.BalanceOf(side, i, user) + x) && InI128(c.BookOf(side, i).total + x)
    ensures var book := c.BookOf(side, i).Set(user, c.BalanceOf(side, i, user) + x, c.BookOf(side, i).total + x);
            Shifted(c, WithBook(c, side, i, book), side, i, user, x)
  {
  }

  /** Where pool and token contract agree, a credit writes the minted ledger to both. */
  lemma CreditWritesOneBook(c: Core, side: Side, i: ReserveIndex, user: Address, x: i128)
    requires i in c.configs && c.BookOf(side, i) == c.TokenOf(c.configs[i].TokenAt(side))
    ensures Credit(c, side, i, c.configs[i], user, x).Done? <==> Mint(c.BookOf(side, i), user, x).Done?
    ensures Mint(c.BookOf(side, i), user, x).Done? ==>
              Credit(c, side, i, c.configs[i], user, x).value
              == WithBook(c, side, i, Mint(c.BookOf(side, i), user, x).value)
  {
  }

  /** The pool's own subtraction of the total never falls back to zero: the burn has already bounded it. */
  lemma DebitWritesOneBook(c: Core, side: Side, i: ReserveIndex, user: Address, x: i128)
    requires i in c.configs && c.BookOf(side, i) == c.TokenOf(c.configs[i].TokenAt(side))
    ensures Debit(c, side, i, c.configs[i], user, x).Done? <==> Burn(c.BookOf(side, i), user, x).Done?
    ensures Burn(c.BookOf(side, i), user, x).Done? ==>
              Debit(c, side, i, c.configs[i], user, x).value
              == WithBook(c, side, i, Burn(c.BookOf(side, i), user, x).value)
  {
  }

  lemma MintedBookIsSound(c: Core, side: Side, i: ReserveIndex, user: Address, x: i128)
    requires SoundCore(c) && i in c.configs && Mint(c.BookOf(side, i), user, x).Done?
    ensures SoundCore(WithBook(c, side, i, Mint(c.BookOf(side, i), user, x).value))
  {
    assert Mirrored(c, side, i);
    MintKeepsBalanced(c.BookOf(side, i), user, x);
    OneBookWritten(c, side, i, Mint(c.BookOf(side, i), user, x).value);
  }

  lemma MintShifts(c: Core, side: Side, i: ReserveIndex, user: Address, x: i128)
    requires i in c.configs && Mint(c.BookOf(side, i), user, x).Done?
    ensures Shifted(c, WithBook(c, side, i, Mint(c.BookOf(side, i), user, x).value), side, i, user, x)
  {
    OneBookShifted(c, side, i, user, x);
  }

  lemma CreditEffect(c: Core, side: Side, i: ReserveIndex, user: Address, x: i128)
    requires SoundCore(c) && i in c.configs && Credit(c, side, i, c.configs[i], user, x).Done?
    ensures x > 0
    ensures var d := Credit(c, side, i, c.configs[i], user, x).value; SoundCore(d) && Shifted(c, d, side, i, user, x)
  {
    assert c.BookOf(side, i) == c.TokenOf(c.configs[i].TokenAt(side)) by { assert Mirrored(c, side, i); }
    CreditWritesOneBook(c, side, i, user, x);
    MintedBookIsSound(c, side, i, user, x);
    MintShifts(c, side, i, user, x);
  }

  lemma BurnedBookIsSound(c: Core, side: Side, i: ReserveIndex, user: Address, x: i128)
    requires SoundCore(c) && i in c.configs
    ensures Burn(c.BookOf(side, i), user, x).Done? <==> 0 < x <= c.BalanceOf(side, i, user)
    ensures Burn(c.BookOf(side, i), user, x).Done? ==>
              SoundCore(WithBook(c, side, i, Burn(c.BookOf(side, i), user, x).value))
  {
    assert Mirrored(c, side, i);
    BurnKeepsBalanced(c.BookOf(side, i), user, x);
    if Burn(c.BookOf(side, i), user, x).Done? {
      OneBookWritten(c, side, i, Burn(c.BookOf(side, i), user, x).value);
    }
  }

  lemma BurnShifts(c: Core, side: Side, i: ReserveIndex, user: Address, x: i128)
    requires i in c.configs && Burn(c.BookOf(side, i), user, x).Done?
    ensures Shifted(c, WithBook(c, side, i, Burn(c.BookOf(side, i), user, x).value), side, i, user, 0 - x as int)
  {
    OneBookShifted(c, side, i, user, 0 - x as int);
  }

  /** A debit succeeds exactly for a positive amount the user holds. */
  lemma DebitEffect(c: Core, side: Side, i: ReserveIndex, user: Address, x: i128)
    requires SoundCore(c) && i in c.configs
    ensures Debit(c, side, i, c.configs[i], user, x).Done? <==> 0 < x <= c.BalanceOf(side, i, user)
    ensures Debit(c, side, i, c.configs[i], user, x).Done? ==>
              var d := Debit(c, side, i, c.configs[i], user, x).value;
              SoundCore(d) && Shifted(c, d, side, i, user, 0 - x as int)
  {
    assert c.BookOf(side, i) == c.TokenOf(c.configs[i].TokenAt(side)) by { assert Mirrored(c, side, i); }
    DebitWritesOneBook(c, side, i, user, x);
    BurnedBookIsSound(c, side, i, user, x);
    if Burn(c.BookOf(side, i), user, x).Done? {
      BurnShifts(c, side, i, user, x);
    }
  }

  lemma ShiftedSurplus(c: Core, d: Core, side: Side, i: ReserveIndex, user: Address, x: int)
    requires i in c.configs && Shifted(c, d, side, i, user, x)
    ensures forall j: ReserveIndex ::
              Surplus(d, j) == Surplus(c, j) + if j != i then 0 else if side == Borrows then x else -x
    ensures forall s: Side, j: ReserveIndex, u: Address ::
              d.BalanceOf(s, j, u) == c.BalanceOf(s, j, u) + if (s, j, u) == (side, i, user) then x else 0
  {
  }

  lemma CashWritten(c: Core, cash: map<(Address, Address), i128>)
    requires SoundCore(c)
    ensures SoundCore(c.(cash := cash))
  {
    var d := c.(cash := cash);
    forall j <- d.configs, s: Side ensures Mirrored(d, s, j) {
      assert Mirrored(c, s, j);
    }
  }

  /** A transfer writes nothing but cash, and moves a surplus only at the pool's end. */
  lemma TransferEffect(c: Core, asset: Address, from: Address, to: Address, amount: i128)
    requires Transfer(c, asset, from, to, amount).Done?
    ensures var d := Transfer(c, asset, from, to, amount).value;
            && d == c.(cash := d.cash)
            && (forall j: ReserveIndex :: Surplus(d, j) == Surplus(c, j) +
                  if j !in c.configs || c.configs[j].asset != asset then 0
                  else (if to == ThisPool then amount else 0) - (if from == ThisPool then amount else 0))
  {
  }

  /** At an index of one RAY an amount is its own scaled amount. */
  lemma ScaledAtRay(amount: i128)
    requires amount >= 0
    ensures Scaled(amount, RAY) == if amount * RAY <= I128_MAX then Done(amount) else Panic
  {
  }

  lemma ReserveKnown(c: Core, asset: Address)
    requires SoundCore(c) && ReserveOf(c, asset).Done?
    ensures ReserveOf(c, asset).value in c.configs && c.configs[ReserveOf(c, asset).value].asset == asset
    ensures forall j <- c.configs :: c.configs[j].asset == asset <==> j == ReserveOf(c, asset).value
  {
  }
}
