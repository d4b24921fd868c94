/**
 * The deployed lending pool as a state machine: reserves by index, the pool's own books of scaled balances,
 * the token contracts it mints and burns, the asset balances of every holder, and the flags of every user.
 * A panic discards all writes of a call, so each operation is an outcome: the new state, or nothing.
 */
module Pool {
  import opened Prelude
  import opened PoolMath
  import opened ScaledToken

  type ReserveIndex = i: nat | i < 64
  type ReserveCount = n: nat | n <= 64

  datatype Side = Deposits | Borrows

  datatype ReserveConfig = ReserveConfig(
    asset: Address, aToken: Address, debtToken: Address,
    liquidationThreshold: u32, liquidationBonus: u32, reserveFactor: u32, isActive: bool, isBorrowingEnabled: bool)
  {
    function TokenAt(side: Side): Address {
      if side == Deposits then aToken else debtToken
    }
  }

  datatype RateConfig = RateConfig(optimal: i128, base: i128, slope1: i128, slope2: i128)

  /** The per-reserve entries stored under the offset keys, and the recorded deficit. */
  datatype Cell = Cell(liquidityIndex: i128, borrowIndex: i128, lastUpdate: u64, borrowRate: i128, deficit: i128) {
    function IndexOf(side: Side): i128 {
      if side == Deposits then liquidityIndex else borrowIndex
    }
  }

  const FRESH_CELL := Cell(RAY, RAY, 0, 0, 0)

  /** What a call reads from outside the pool: the ledger time and the oracle. */
  datatype Env = Env(now: u64, prices: map<Address, i128>)

  datatype Core = Core(
    count: ReserveCount,
    paused: bool,
    configs: map<ReserveIndex, ReserveConfig>,
    rates: map<ReserveIndex, RateConfig>,
    indices: map<Address, ReserveIndex>,
    cells: map<ReserveIndex, Cell>,
    books: map<(Side, ReserveIndex), Ledger>,
    tokens: map<Address, Ledger>,
    cash: map<(Address, Address), i128>)
  {
    function CellOf(i: ReserveIndex): Cell {
      Lookup(cells, i).GetOr(FRESH_CELL)
    }

    function BookOf(side: Side, i: ReserveIndex): Ledger {
      Lookup(books, (side, i)).GetOr(EMPTY_LEDGER)
    }

    function TokenOf(contract: Address): Ledger {
      Lookup(tokens, contract).GetOr(EMPTY_LEDGER)
    }

    function CashOf(asset: Address, holder: Address): i128 {
      Lookup(cash, (asset, holder)).GetOr(0)
    }

    function BalanceOf(side: Side, i: ReserveIndex, user: Address): i128 {
      BookOf(side, i).BalanceOf(user)
    }
  }

  datatype Flags = Flags(collateral: set<nat>, borrowed: set<nat>)

  const NO_FLAGS := Flags({}, {})

  function Toggled(s: set<nat>, i: nat, value: bool): set<nat> {
    if value then s + {i} else s - {i}
  }

  datatype Pool = Pool(core: Core, flags: map<Address, Flags>) {
    function FlagsOf(user: Address): Flags {
      Lookup(flags, user).GetOr(NO_FLAGS)
    }

    function SetCollateral(user: Address, i: nat, value: bool): Pool {
      var f := FlagsOf(user);
      this.(flags := flags[user := f.(collateral := Toggled(f.collateral, i, value))])
    }

    function SetBorrowed(user: Address, i: nat, value: bool): Pool {
      var f := FlagsOf(user);
      this.(flags := flags[user := f.(borrowed := Toggled(f.borrowed, i, value))])
    }
  }

  // ----- shared steps -----

  /** The asset contract: a transfer needs the balance and cannot overflow the receiver. */
  function Transfer(c: Core, asset: Address, from: Address, to: Address, amount: i128): Outcome<Core> {
    var _ :- Require(0 <= amount <= c.CashOf(asset, from));
    var debited := c.(cash := c.cash[(asset, from) := c.CashOf(asset, from) - amount]);
    var received :- Expect(debited.CashOf(asset, to) + amount);
    Done(debited.(cash := debited.cash[(asset, to) := received]))
  }

  function ReserveOf(c: Core, asset: Address): Outcome<ReserveIndex> {
    if asset in c.indices then Done(c.indices[asset]) else Panic
  }

  function ConfigOf(c: Core, i: ReserveIndex): Outcome<ReserveConfig> {
    if i in c.configs then Done(c.configs[i]) else Panic
  }

  /** The stored entries of a reserve some seconds later: both indices move, the borrow rate is recomputed. */
  function AccruedCell(c: Core, i: ReserveIndex, now: u64): Outcome<Cell>
    requires now > c.CellOf(i).lastUpdate
  {
    var cell := c.CellOf(i);
    var elapsed: u64 := now - cell.lastUpdate;
    var borrowRateRay :- Expect(cell.borrowRate * WAD_TO_RAY);
    var borrowMultiplier := CompoundedInterest(borrowRateRay, elapsed).GetOr(RAY);
    var borrowIndex := RayMul(cell.borrowIndex, borrowMultiplier).GetOr(cell.borrowIndex);
    var utilization := UtilizationRate(c.BookOf(Deposits, i).total, c.BookOf(Borrows, i).total).GetOr(0);
    var config :- ConfigOf(c, i);
    var supplyRate := SupplyRate(cell.borrowRate, utilization, config.reserveFactor).GetOr(0);
    var supplyRateRay :- Expect(supplyRate * WAD_TO_RAY);
    var supplyMultiplier := LinearInterest(supplyRateRay, elapsed).GetOr(RAY);
    var liquidityIndex := RayMul(cell.liquidityIndex, supplyMultiplier).GetOr(cell.liquidityIndex);
    Done(Cell(liquidityIndex, borrowIndex, now, NextBorrowRate(c, i, utilization), cell.deficit))
  }

  function NextBorrowRate(c: Core, i: ReserveIndex, utilization: i128): i128 {
    if i in c.rates then
      var rc := c.rates[i];
      BorrowRate(utilization, rc.optimal, rc.base, rc.slope1, rc.slope2).GetOr(rc.base)
    else c.CellOf(i).borrowRate
  }

  /** `update_reserve_indices_full`: a second call at the same time changes nothing. */
  function Accrue(c: Core, i: ReserveIndex, now: u64): Outcome<Core> {
    if now <= c.CellOf(i).lastUpdate then Done(c)
    else
      var cell :- AccruedCell(c, i, now);
      Done(c.(cells := c.cells[i := cell]))
  }

  /** An amount in units of an index. */
  function Scaled(amount: i128, index: i128): Outcome<i128> {
    var ray :- Expect(amount * RAY);
    var _ :- Require(index != 0);
    Expect(TruncDiv(ray, index))
  }

  /** Adds to a user's scaled balance in the pool's book, in the token contract, and to the pool's total. */
  function Credit(c: Core, side: Side, i: ReserveIndex, config: ReserveConfig, user: Address, scaled: i128)
    : Outcome<Core>
  {
    var book, contract := c.BookOf(side, i), config.TokenAt(side);
    var balance :- Expect(book.BalanceOf(user) + scaled);
    var token :- Mint(c.TokenOf(contract), user, scaled);
    var total :- Expect(book.total + scaled);
    Done(c.(books := c.books[(side, i) := book.Set(user, balance, total)], tokens := c.tokens[contract := token]))
  }

  /** Takes from a user's scaled balance; a pool total that would leave its range becomes zero. */
  function Debit(c: Core, side: Side, i: ReserveIndex, config: ReserveConfig, user: Address, scaled: i128)
    : Outcome<Core>
  {
    var book, contract := c.BookOf(side, i), config.TokenAt(side);
    var balance :- Expect(book.BalanceOf(user) - scaled);
    var token :- Burn(c.TokenOf(contract), user, scaled);
    var total := Fit(book.total - scaled).GetOr(0);
    Done(c.(books := c.books[(side, i) := book.Set(user, balance, total)], tokens := c.tokens[contract := token]))
  }

  function PriceOf(env: Env, asset: Address): Outcome<i128> {
    if asset in env.prices && env.prices[asset] > 0 then Done(env.prices[asset]) else Panic
  }

  /** Value of one position; a product out of range counts as nothing. */
  function ValueOf(c: Core, env: Env, side: Side, i: ReserveIndex, scaled: i128): Outcome<i128> {
    var config :- ConfigOf(c, i);
    var actual := RayMul(scaled, c.CellOf(i).IndexOf(side)).GetOr(0);
    var price :- PriceOf(env, config.asset);
    Done(WadMul(actual, price).GetOr(0))
  }

  function CollateralTerm(c: Core, f: Flags, env: Env, user: Address, i: ReserveIndex): Outcome<i128> {
    var scaled := c.BalanceOf(Deposits, i, user);
    if i in f.collateral && scaled > 0 then
      var value :- ValueOf(c, env, Deposits, i, scaled);
      var config :- ConfigOf(c, i);
      Done(WadMul(value, PercentToWad(config.liquidationThreshold)).GetOr(0))
    else Done(0)
  }

  function DebtTerm(c: Core, f: Flags, env: Env, user: Address, i: ReserveIndex): Outcome<i128> {
    var scaled := c.BalanceOf(Borrows, i, user);
    if i in f.borrowed && scaled > 0 then ValueOf(c, env, Borrows, i, scaled) else Done(0)
  }

  /** Threshold-weighted collateral and debt over the first n reserves. */
  function Valuation(c: Core, f: Flags, env: Env, user: Address, n: ReserveCount): Outcome<(i128, i128)>
  {
    if n == 0 then Done((0, 0))
    else
      var before :- Valuation(c, f, env, user, n - 1);
      var collateralTerm :- CollateralTerm(c, f, env, user, n - 1);
      var collateral :- Expect(before.0 + collateralTerm);
      var debtTerm :- DebtTerm(c, f, env, user, n - 1);
      var debt :- Expect(before.1 + debtTerm);
      Done((collateral, debt))
  }

  function HealthFactor(c: Core, f: Flags, env: Env, user: Address): Outcome<i128>
  {
    var sums :- Valuation(c, f, env, user, c.count);
    if sums.1 == 0 then Done(I128_MAX) else Done(WadDiv(sums.0, sums.1).GetOr(I128_MAX))
  }

  function RequireHealthy(c: Core, f: Flags, env: Env, user: Address): Outcome<()>
  {
    var health :- HealthFactor(c, f, env, user);
    Require(health >= WAD)
  }

  // ----- operations -----

  /** The next free index, its configuration, its rate model, and the way back from the asset. */
  function Listed(c: Core, config: ReserveConfig, rate: RateConfig): Core
    requires c.count < 64
  {
    c.(count := c.count + 1,
       configs := c.configs[c.count := config],
       rates := c.rates[c.count := rate],
       indices := c.indices[config.asset := c.count])
  }

  function AddReserve(p: Pool, config: ReserveConfig, rate: RateConfig): Outcome<Pool> {
    if p.core.paused || p.core.count >= 64 then Panic else Done(p.(core := Listed(p.core, config, rate)))
  }

  function Supply(p: Pool, env: Env, caller: Address, asset: Address, amount: i128): Outcome<Pool> {
    var _ :- Require(!p.core.paused && amount > 0);
    var i :- ReserveOf(p.core, asset);
    var config :- ConfigOf(p.core, i);
    var _ :- Require(config.isActive);
    var accrued :- Accrue(p.core, i, env.now);
    var paid :- Transfer(accrued, asset, caller, ThisPool, amount);
    var scaled :- Scaled(amount, paid.CellOf(i).liquidityIndex);
    var credited :- Credit(paid, Deposits, i, config, caller, scaled);
    Done(p.(core := credited).SetCollateral(caller, i, true))
  }

  function Withdraw(p: Pool, env: Env, caller: Address, asset: Address, amount: i128): Outcome<Pool>
  {
    var _ :- Require(!p.core.paused && amount > 0);
    var i :- ReserveOf(p.core, asset);
    var config :- ConfigOf(p.core, i);
    var accrued :- Accrue(p.core, i, env.now);
    var index := accrued.CellOf(i).liquidityIndex;
    var actual := RayMul(accrued.BalanceOf(Deposits, i, caller), index).GetOr(0);
    var taken := if amount > actual then actual else amount;
    var _ :- Require(taken > 0);
    var scaled :- Scaled(taken, index);
    var debited :- Debit(accrued, Deposits, i, config, caller, scaled);
    var burned := p.(core := debited);
    var emptied := debited.BalanceOf(Deposits, i, caller) == 0;
    var flagged := if emptied then burned.SetCollateral(caller, i, false) else burned;
    var _ :- WithdrawalGuard(flagged, env, caller);
    var paid :- Transfer(debited, asset, ThisPool, caller, taken);
    Done(flagged.(core := paid))
  }

  /** The health check applies only to users with a borrow flag. */
  function WithdrawalGuard(p: Pool, env: Env, user: Address): Outcome<()>
  {
    if p.FlagsOf(user).borrowed != {} then RequireHealthy(p.core, p.FlagsOf(user), env, user) else Done(())
  }

  function Borrow(p: Pool, env: Env, caller: Address, asset: Address, amount: i128): Outcome<Pool>
  {
    var _ :- Require(!p.core.paused && amount > 0);
    var i :- ReserveOf(p.core, asset);
    var config :- ConfigOf(p.core, i);
    var _ :- Require(config.isActive && config.isBorrowingEnabled);
    var accrued :- Accrue(p.core, i, env.now);
    var scaled :- Scaled(amount, accrued.CellOf(i).borrowIndex);
    var credited :- Credit(accrued, Borrows, i, config, caller, scaled);
    var flagged := p.(core := credited).SetBorrowed(caller, i, true);
    var _ :- RequireHealthy(credited, flagged.FlagsOf(caller), env, caller);
    var paid :- Transfer(credited, asset, ThisPool, caller, amount);
    Done(flagged.(core := paid))
  }

  function Repay(p: Pool, env: Env, caller: Address, asset: Address, amount: i128): Outcome<Pool> {
    var _ :- Require(!p.core.paused && amount > 0);
    var i :- ReserveOf(p.core, asset);
    var accrued :- Accrue(p.core, i, env.now);
    var owed := accrued.BalanceOf(Borrows, i, caller);
    var _ :- Require(owed != 0);
    var index := accrued.CellOf(i).borrowIndex;
    var actual := RayMul(owed, index).GetOr(0);
    var repaid := if amount > actual then actual else amount;
    var paid :- Transfer(accrued, asset, caller, ThisPool, repaid);
    var scaled :- Scaled(repaid, index);
    var config :- ConfigOf(paid, i);
    var debited :- Debit(paid, Borrows, i, config, caller, AtMost(scaled, owed));
    var burned := p.(core := debited);
    Done(if debited.BalanceOf(Borrows, i, caller) == 0 then burned.SetBorrowed(caller, i, false) else burned)
  }

  function AtMost(x: i128, bound: i128): i128 {
    if x > bound then bound else x
  }

  function ToggleCollateral(p: Pool, env: Env, caller: Address, asset: Address, on: bool): Outcome<Pool>
  {
    var _ :- Require(!p.core.paused);
    var i :- ReserveOf(p.core, asset);
    var config :- ConfigOf(p.core, i);
    var _ :- Require(config.isActive);
    var accrued :- Accrue(p.core, i, env.now);
    var current := p.(core := accrued);
    if (i in current.FlagsOf(caller).collateral) == on then Done(current)
    else
      var changed := current.SetCollateral(caller, i, on);
      var _ :- if on then Done(()) else WithdrawalGuard(changed, env, caller);
      Done(changed)
  }

  // ----- liquidation -----

  /** Burns what a liquidation repays or seizes, never more than the borrower has; clears the flag at zero. */
  function BurnPart(p: Pool, side: Side, i: ReserveIndex, user: Address, amount: i128, index: i128): Outcome<Pool> {
    var config :- ConfigOf(p.core, i);
    var held := p.core.BalanceOf(side, i, user);
    if held <= 0 then Done(p)
    else
      var scaled :- Scaled(amount, index);
      var debited :- Debit(p.core, side, i, config, user, AtMost(scaled, held));
      var burned := p.(core := debited);
      Done(
        if debited.BalanceOf(side, i, user) != 0 then burned
        else if side == Deposits then burned.SetCollateral(user, i, false)
        else burned.SetBorrowed(user, i, false))
  }

  /** Some reserve is flagged as collateral and still holds shares of the user. */
  predicate HasCollateral(c: Core, f: Flags, user: Address, n: ReserveCount)
  {
    exists i: ReserveIndex | 0 <= i < n :: i in f.collateral && c.BalanceOf(Deposits, i, user) > 0
  }

  /** Writes one outstanding debt off and books it as the reserve's deficit. */
  function WipeOne(c: Core, user: Address, i: ReserveIndex): Outcome<Core> {
    var owed := c.BalanceOf(Borrows, i, user);
    if owed <= 0 then Done(c)
    else
      var config :- ConfigOf(c, i);
      var cell := c.CellOf(i);
      var badDebt := RayMul(owed, cell.borrowIndex).GetOr(0);
      var deficit :- Expect(cell.deficit + badDebt);
      Debit(c.(cells := c.cells[i := cell.(deficit := deficit)]), Borrows, i, config, user, owed)
  }

  /** The debts flagged among the first n reserves, written off in order. */
  function Wipe(c: Core, borrowed: set<nat>, user: Address, n: ReserveCount): Outcome<Core>
  {
    if n == 0 then Done(c)
    else
      var before :- Wipe(c, borrowed, user, n - 1);
      if n - 1 in borrowed then WipeOne(before, user, n - 1) else Done(before)
  }

  /** Without any collateral left, every flagged debt is written off and all borrow flags are cleared. */
  function Socialize(p: Pool, borrower: Address, collateralIndex: ReserveIndex): Outcome<Pool>
  {
    var f := p.FlagsOf(borrower);
    if p.core.BalanceOf(Deposits, collateralIndex, borrower) != 0 then Done(p)
    else if HasCollateral(p.core, f, borrower, p.core.count) then Done(p)
    else
      var wiped :- Wipe(p.core, f.borrowed, borrower, p.core.count);
      Done(Pool(wiped, p.flags[borrower := f.(borrowed := {})]))
  }

  /** Pays the seized tokens out, accrues both reserves, and burns the repaid debt and the seized shares. */
  function Settle(p: Pool, env: Env, liquidator: Address, borrower: Address,
                  debtAsset: Address, collateralAsset: Address, repay: i128, seize: i128): Outcome<Pool>
  {
    var paidOut :- Transfer(p.core, collateralAsset, ThisPool, liquidator, seize);
    var d :- ReserveOf(paidOut, debtAsset);
    var k :- ReserveOf(paidOut, collateralAsset);
    var debtAccrued :- Accrue(paidOut, d, env.now);
    var accrued :- Accrue(debtAccrued, k, env.now);
    var debtBurned :- BurnPart(p.(core := accrued), Borrows, d, borrower, repay, debtAccrued.CellOf(d).borrowIndex);
    BurnPart(debtBurned, Deposits, k, borrower, seize, accrued.CellOf(k).liquidityIndex)
  }

  function LiquidationHook(p: Pool, env: Env, liquidator: Address, borrower: Address,
                           debtAsset: Address, collateralAsset: Address, repay: i128, seize: i128): Outcome<Pool>
  {
    var _ :- Require(!p.core.paused && repay > 0 && seize > 0);
    var settled :- Settle(p, env, liquidator, borrower, debtAsset, collateralAsset, repay, seize);
    var k :- ReserveOf(p.core, collateralAsset);
    Socialize(settled, borrower, k)
  }

  /** The liquidation engine pays the liquidator's tokens in and calls the hook; either panic undoes both. */
  function Liquidate(p: Pool, env: Env, liquidator: Address, borrower: Address,
                     debtAsset: Address, collateralAsset: Address, repay: i128, seize: i128): Outcome<Pool>
  {
    var paidIn :- Transfer(p.core, debtAsset, liquidator, ThisPool, repay);
    LiquidationHook(p.(core := paidIn), env, liquidator, borrower, debtAsset, collateralAsset, repay, seize)
  }
}
