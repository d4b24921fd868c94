/**
 * The lending-pool contract as it runs: storage entries are read and overwritten step by step and user flags live
 * in packed words. Every method is proved against the operation of the same name in module Pool. A method that
 * panics may stop in the middle of its writes; Invoke stands for the host, which then restores the storage.
 */
module LendingPool {
  import opened Prelude
  import opened PoolMath
  import opened ScaledToken
  import opened Pool
  import opened PoolRuns
  import Bitmap

  ghost function FlagsOfWord(word: bv128): Flags {
    Flags(Bitmap.Collateral(word), Bitmap.Borrowed(word))
  }

  ghost function FlagsOfWords(words: map<Address, bv128>): map<Address, Flags> {
    map u <- words :: FlagsOfWord(words[u])
  }

  lemma WordOfUser(c: Core, words: map<Address, bv128>, user: Address)
    ensures Pool(c, FlagsOfWords(words)).FlagsOf(user) == FlagsOfWord(Lookup(words, user).GetOr(0))
  {
    Bitmap.EmptyWord();
  }

  lemma WordWritten(words: map<Address, bv128>, user: Address, word: bv128)
    ensures FlagsOfWords(words[user := word]) == FlagsOfWords(words)[user := FlagsOfWord(word)]
  {
  }

  lemma Overwritten<K, V>(m: map<K, V>, k: K, first: V, last: V)
    ensures m[k := first][k := last] == m[k := last]
  {
  }

  lemma TriedAndRestored(p: Pool, user: Address, i: ReserveIndex, tried: Flags)
    ensures Pool(p.core, p.flags[user := tried][user := p.FlagsOf(user)]).SetCollateral(user, i, false)
            == p.SetCollateral(user, i, false)
  {
    var q := Pool(p.core, p.flags[user := tried][user := p.FlagsOf(user)]);
    assert q.FlagsOf(user) == p.FlagsOf(user);
    var f := p.FlagsOf(user).(collateral := Toggled(p.FlagsOf(user).collateral, i, false));
    Overwritten(p.flags[user := tried], user, p.FlagsOf(user), f);
    Overwritten(p.flags, user, tried, f);
  }

  lemma TransferKeepsReserves(c: Core, asset: Address, from: Address, to: Address, amount: i128)
    requires Transfer(c, asset, from, to, amount).Done?
    ensures Transfer(c, asset, from, to, amount).value.indices == c.indices
  {
  }

  class Contract {
    var core: Core
    var words: map<Address, bv128>

    ghost function State(): Pool
      reads this
    {
      Pool(core, FlagsOfWords(words))
    }

    constructor (cash: map<(Address, Address), i128>)
      ensures State() == Genesis(cash)
    {
      core, words := Genesis(cash).core, map[];
    }

    // ----- flags -----

    method GetUserBitmap(user: Address) returns (word: bv128)
      ensures word == Lookup(words, user).GetOr(0)
      ensures FlagsOfWord(word) == State().FlagsOf(user)
    {
      WordOfUser(core, words, user);
      word := if user in words then words[user] else 0;
    }

    method WriteCollateralFlag(user: Address, i: ReserveIndex, value: bool)
      modifies this`words
      ensures State() == old(State()).SetCollateral(user, i, value)
    {
      hide Bitmap.Collateral, Bitmap.Borrowed;
      var word := GetUserBitmap(user);
      word := Bitmap.SetUsingAsCollateral(word, i, value);
      WordWritten(words, user, word);
      words := words[user := word];
    }

    method WriteBorrowFlag(user: Address, i: ReserveIndex, value: bool)
      modifies this`words
      ensures State() == old(State()).SetBorrowed(user, i, value)
    {
      hide Bitmap.Collateral, Bitmap.Borrowed;
      var word := GetUserBitmap(user);
      word := Bitmap.SetBorrowing(word, i, value);
      WordWritten(words, user, word);
      words := words[user := word];
    }

    // ----- shared steps -----

    method WriteCash(asset: Address, holder: Address, amount: i128)
      modifies this`core
      ensures core == old(core).(cash := old(core).cash[(asset, holder) := amount])
    {
      core := core.(cash := core.cash[(asset, holder) := amount]);
    }

    method WriteBook(side: Side, i: ReserveIndex, book: Ledger)
      modifies this`core
      ensures core == old(core).(books := old(core).books[(side, i) := book])
    {
      core := core.(books := core.books[(side, i) := book]);
    }

    method WriteToken(contract: Address, ledger: Ledger)
      modifies this`core
      ensures core == old(core).(tokens := old(core).tokens[contract := ledger])
    {
      core := core.(tokens := core.tokens[contract := ledger]);
    }

    method TransferAsset(asset: Address, from: Address, to: Address, amount: i128) returns (panicked: bool)
      modifies this`core
      ensures panicked <==> Transfer(old(core), asset, from, to, amount).Panic?
      ensures !panicked ==> core == Transfer(old(core), asset, from, to, amount).value
    {
      hide Lookup;
      var held := core.CashOf(asset, from);
      if amount < 0 || held < amount { return true; }
      WriteCash(asset, from, held - amount);
      var received := core.CashOf(asset, to) + amount;
      if !InI128(received) { return true; }
      WriteCash(asset, to, received);
      panicked := false;
    }

    method UpdateReserveIndices(i: ReserveIndex, now: u64) returns (panicked: bool)
      modifies this`core
      ensures panicked <==> Accrue(old(core), i, now).Panic?
      ensures !panicked ==> core == Accrue(old(core), i, now).value
    {
      hide RayMul, CompoundedInterest, LinearInterest, SupplyRate, UtilizationRate, BorrowRate;
      var cell := core.CellOf(i);
      if now <= cell.lastUpdate { return false; }
      var elapsed: u64 := now - cell.lastUpdate;
      if !InI128(cell.borrowRate * WAD_TO_RAY) { return true; }
      var borrowMultiplier := CompoundedInterest(cell.borrowRate * WAD_TO_RAY, elapsed).GetOr(RAY);
      var borrowIndex := RayMul(cell.borrowIndex, borrowMultiplier).GetOr(cell.borrowIndex);
      var utilizationRate := CalculateUtilizationRate(core.BookOf(Deposits, i).total, core.BookOf(Borrows, i).total);
      var utilization := utilizationRate.GetOr(0);
      if i !in core.configs { return true; }
      var supplyRate := SupplyRate(cell.borrowRate, utilization, core.configs[i].reserveFactor).GetOr(0);
      if !InI128(supplyRate * WAD_TO_RAY) { return true; }
      var supplyMultiplier := LinearInterest(supplyRate * WAD_TO_RAY, elapsed).GetOr(RAY);
      var liquidityIndex := RayMul(cell.liquidityIndex, supplyMultiplier).GetOr(cell.liquidityIndex);
      cell := cell.(liquidityIndex := liquidityIndex, borrowIndex := borrowIndex, lastUpdate := now);
      if i in core.rates {
        var rc := core.rates[i];
        cell := cell.(borrowRate := BorrowRate(utilization, rc.optimal, rc.base, rc.slope1, rc.slope2).GetOr(rc.base));
      }
      core := core.(cells := core.cells[i := cell]);
      panicked := false;
    }

    /** The user's entry, the token contract's mint, then the pool total. */
    method CreditUser(side: Side, i: ReserveIndex, config: ReserveConfig, user: Address, scaled: i128)
      returns (panicked: bool)
      modifies this`core
      ensures panicked <==> Credit(old(core), side, i, config, user, scaled).Panic?
      ensures !panicked ==> core == Credit(old(core), side, i, config, user, scaled).value
    {
      hide Mint, Core.BookOf, Ledger.BalanceOf, Lookup;
      var balance := core.BalanceOf(side, i, user) + scaled;
      if !InI128(balance) { return true; }
      var book := core.BookOf(side, i);
      var entered := book.Set(user, balance, book.total);
      WriteBook(side, i, entered);
      var token := Mint(core.TokenOf(config.TokenAt(side)), user, scaled);
      if token.Panic? { return true; }
      WriteToken(config.TokenAt(side), token.value);
      if !InI128(book.total + scaled) { return true; }
      var totalled := entered.(total := book.total + scaled);
      WriteBook(side, i, totalled);
      Overwritten(old(core).books, (side, i), entered, totalled);
      panicked := false;
    }

    /** The user's entry, the token contract's burn, then the pool total, zero if it would leave its range. */
    method DebitUser(side: Side, i: ReserveIndex, config: ReserveConfig, user: Address, scaled: i128)
      returns (panicked: bool)
      modifies this`core
      ensures panicked <==> Debit(old(core), side, i, config, user, scaled).Panic?
      ensures !panicked ==> core == Debit(old(core), side, i, config, user, scaled).value
    {
      hide Burn, Core.BookOf, Ledger.BalanceOf, Lookup;
      var balance := core.BalanceOf(side, i, user) - scaled;
      if !InI128(balance) { return true; }
      var book := core.BookOf(side, i);
      var entered := book.Set(user, balance, book.total);
      WriteBook(side, i, entered);
      var token := Burn(core.TokenOf(config.TokenAt(side)), user, scaled);
      if token.Panic? { return true; }
      WriteToken(config.TokenAt(side), token.value);
      var totalled := entered.(total := Fit(book.total - scaled).GetOr(0));
      WriteBook(side, i, totalled);
      Overwritten(old(core).books, (side, i), entered, totalled);
      panicked := false;
    }

    method ReadCollateralTerm(word: bv128, env: Env, user: Address, i: ReserveIndex) returns (r: Outcome<i128>)
      ensures r == CollateralTerm(core, FlagsOfWord(word), env, user, i)
    {
      hide Bitmap.Collateral, Bitmap.Borrowed, ValueOf, WadMul, PercentToWad;
      var asCollateral := Bitmap.ReadCollateral(word, i);
      if !asCollateral { return Done(0); }
      var shares := core.BalanceOf(Deposits, i, user);
      if shares <= 0 { return Done(0); }
      var value := ValueOf(core, env, Deposits, i, shares);
      if value.Panic? || i !in core.configs { return Panic; }
      r := Done(WadMul(value.value, PercentToWad(core.configs[i].liquidationThreshold)).GetOr(0));
    }

    method ReadDebtTerm(word: bv128, env: Env, user: Address, i: ReserveIndex) returns (r: Outcome<i128>)
      ensures r == DebtTerm(core, FlagsOfWord(word), env, user, i)
    {
      hide Bitmap.Collateral, Bitmap.Borrowed, ValueOf;
      var borrowing := Bitmap.ReadBorrowing(word, i);
      if !borrowing { return Done(0); }
      var owed := core.BalanceOf(Borrows, i, user);
      if owed <= 0 { return Done(0); }
      r := ValueOf(core, env, Borrows, i, owed);
    }

    /** Sums weighted collateral and debt over all reserves. */
    method CalculateHealthFactor(env: Env, user: Address) returns (health: Outcome<i128>)
      ensures health == HealthFactor(core, State().FlagsOf(user), env, user)
    {
      hide FlagsOfWord, CollateralTerm, DebtTerm, WadDiv;
      var word := GetUserBitmap(user);
      ghost var f := FlagsOfWord(word);
      var collateral: i128, debt: i128 := 0, 0;
      for i := 0 to core.count
        invariant Valuation(core, f, env, user, i) == Done((collateral, debt))
      {
        var weighted := ReadCollateralTerm(word, env, user, i);
        var owed := ReadDebtTerm(word, env, user, i);
        if weighted.Panic? || !InI128(collateral + weighted.value) || owed.Panic? || !InI128(debt + owed.value) {
          PanicStays(core, f, env, user, i + 1, core.count);
          return Panic;
        }
        collateral := collateral + weighted.value;
        debt := debt + owed.value;
      }
      health := Done(if debt == 0 then I128_MAX else WadDiv(collateral, debt).GetOr(I128_MAX));
    }

    // ----- operations -----

    /** The call panicked exactly when its specification does; otherwise the storage is the specified state. */
    ghost predicate Meets(expected: Outcome<Pool>, panicked: bool)
      reads this
    {
      panicked == expected.Panic? && (!panicked ==> State() == expected.value)
    }

    method ListNewReserve(config: ReserveConfig, rate: RateConfig) returns (panicked: bool)
      modifies this`core
      ensures Meets(AddReserve(old(State()), config, rate), panicked)
    {
      if core.paused || core.count >= 64 { return true; }
      var i := core.count;
      core := core.(configs := core.configs[i := config]);
      core := core.(indices := core.indices[config.asset := i]);
      core := core.(rates := core.rates[i := rate]);
      core := core.(count := i + 1);
      panicked := false;
    }

    method SetPaused(paused: bool)
      modifies this`core
      ensures State() == old(State()).(core := old(core).(paused := paused))
    {
      core := core.(paused := paused);
    }

    method SupplyAsset(env: Env, caller: Address, asset: Address, amount: i128) returns (panicked: bool)
      modifies this
      ensures Meets(Supply(old(State()), env, caller, asset, amount), panicked)
    {
      hide Credit, Transfer, Accrue, Scaled, FlagsOfWords;
      if core.paused || amount <= 0 || asset !in core.indices { return true; }
      var i := core.indices[asset];
      if i !in core.configs || !core.configs[i].isActive { return true; }
      var config := core.configs[i];
      var failed := UpdateReserveIndices(i, env.now);
      if failed { return true; }
      failed := TransferAsset(asset, caller, ThisPool, amount);
      if failed { return true; }
      var scaled := Scaled(amount, core.CellOf(i).liquidityIndex);
      if scaled.Panic? { return true; }
      failed := CreditUser(Deposits, i, config, caller, scaled.value);
      if failed { return true; }
      WriteCollateralFlag(caller, i, true);
      panicked := false;
    }

    method CheckWithdrawal(env: Env, user: Address) returns (panicked: bool)
      ensures panicked <==> WithdrawalGuard(State(), env, user).Panic?
    {
      hide Bitmap.Collateral, Bitmap.Borrowed, HealthFactor;
      var word := GetUserBitmap(user);
      var borrowing := Bitmap.HasAnyBorrows(word);
      if !borrowing { return false; }
      var health := CalculateHealthFactor(env, user);
      panicked := health.Panic? || health.value < WAD;
    }

    method WithdrawAsset(env: Env, caller: Address, asset: Address, amount: i128) returns (panicked: bool)
      modifies this
      ensures Meets(Withdraw(old(State()), env, caller, asset, amount), panicked)
    {
      hide Debit, Transfer, Accrue, Scaled, FlagsOfWords, WithdrawalGuard, RayMul;
      if core.paused || amount <= 0 || asset !in core.indices { return true; }
      var i := core.indices[asset];
      if i !in core.configs { return true; }
      var config := core.configs[i];
      var failed := UpdateReserveIndices(i, env.now);
      if failed { return true; }
      var index := core.CellOf(i).liquidityIndex;
      var actual := RayMul(core.BalanceOf(Deposits, i, caller), index).GetOr(0);
      var taken := if amount > actual then actual else amount;
      if taken <= 0 { return true; }
      var scaled := Scaled(taken, index);
      if scaled.Panic? { return true; }
      failed := DebitUser(Deposits, i, config, caller, scaled.value);
      if failed { return true; }
      if core.BalanceOf(Deposits, i, caller) == 0 {
        WriteCollateralFlag(caller, i, false);
      }
      failed := CheckWithdrawal(env, caller);
      if failed { return true; }
      panicked := TransferAsset(asset, ThisPool, caller, taken);
    }

    method BorrowAsset(env: Env, caller: Address, asset: Address, amount: i128) returns (panicked: bool)
      modifies this
      ensures Meets(Borrow(old(State()), env, caller, asset, amount), panicked)
    {
      hide Credit, Transfer, Accrue, Scaled, FlagsOfWords, HealthFactor;
      if core.paused || amount <= 0 || asset !in core.indices { return true; }
      var i := core.indices[asset];
      if i !in core.configs || !core.configs[i].isActive || !core.configs[i].isBorrowingEnabled { return true; }
      var config := core.configs[i];
      var failed := UpdateReserveIndices(i, env.now);
      if failed { return true; }
      var scaled := Scaled(amount, core.CellOf(i).borrowIndex);
      if scaled.Panic? { return true; }
      failed := CreditUser(Borrows, i, config, caller, scaled.value);
      if failed { return true; }
      WriteBorrowFlag(caller, i, true);
      var health := CalculateHealthFactor(env, caller);
      if health.Panic? || health.value < WAD { return true; }
      panicked := TransferAsset(asset, ThisPool, caller, amount);
    }

    method RepayAsset(env: Env, caller: Address, asset: Address, amount: i128) returns (panicked: bool)
      modifies this
      ensures Meets(Repay(old(State()), env, caller, asset, amount), panicked)
    {
      hide Debit, Transfer, Accrue, Scaled, FlagsOfWords, RayMul;
      if core.paused || amount <= 0 || asset !in core.indices { return true; }
      var i := core.indices[asset];
      var failed := UpdateReserveIndices(i, env.now);
      if failed { return true; }
      var owed := core.BalanceOf(Borrows, i, caller);
      if owed == 0 { return true; }
      var index := core.CellOf(i).borrowIndex;
      var actual := RayMul(owed, index).GetOr(0);
      var repaid := if amount > actual then actual else amount;
      failed := TransferAsset(asset, caller, ThisPool, repaid);
      if failed { return true; }
      var scaled := Scaled(repaid, index);
      if scaled.Panic? || i !in core.configs { return true; }
      var burned := if scaled.value > owed then owed else scaled.value;
      failed := DebitUser(Borrows, i, core.configs[i], caller, burned);
      if failed { return true; }
      if core.BalanceOf(Borrows, i, caller) == 0 {
        WriteBorrowFlag(caller, i, false);
      }
      panicked := false;
    }

    /** Disabling is tried out on the stored word, which is put back before the verdict is acted on. */
    method ToggleAsset(env: Env, caller: Address, asset: Address, on: bool) returns (panicked: bool)
      modifies this
      ensures Meets(ToggleCollateral(old(State()), env, caller, asset, on), panicked)
    {
      hide Accrue, HealthFactor, Bitmap.Collateral, Bitmap.Borrowed;
      if core.paused || asset !in core.indices { return true; }
      var i := core.indices[asset];
      if i !in core.configs || !core.configs[i].isActive { return true; }
      var failed := UpdateReserveIndices(i, env.now);
      if failed { return true; }
      var word := GetUserBitmap(caller);
      var enabled := Bitmap.ReadCollateral(word, i);
      if enabled == on { return false; }
      ghost var current := State();
      if !on {
        failed := TryWithoutCollateral(env, caller, i, word);
        if failed { return true; }
      }
      hide FlagsOfWords;
      WriteCollateralFlag(caller, i, on);
      panicked := false;
    }

    method TryWithoutCollateral(env: Env, caller: Address, i: ReserveIndex, word: bv128) returns (panicked: bool)
      requires word == Lookup(words, caller).GetOr(0)
      modifies this`words
      ensures panicked <==> WithdrawalGuard(old(State()).SetCollateral(caller, i, false), env, caller).Panic?
      ensures State().SetCollateral(caller, i, false) == old(State()).SetCollateral(caller, i, false)
    {
      hide HealthFactor, FlagsOfWords, Bitmap.Collateral, Bitmap.Borrowed;
      WordOfUser(core, words, caller);
      var borrowing := Bitmap.HasAnyBorrows(word);
      if !borrowing { return false; }
      WriteCollateralFlag(caller, i, false);
      var health := CalculateHealthFactor(env, caller);
      WordWritten(words, caller, word);
      words := words[caller := word];
      TriedAndRestored(old(State()), caller, i, old(State()).SetCollateral(caller, i, false).FlagsOf(caller));
      panicked := health.Panic? || health.value < WAD;
    }

    // ----- liquidation -----

    method BurnUserPart(side: Side, i: ReserveIndex, user: Address, amount: i128, index: i128) returns (panicked: bool)
      modifies this
      ensures Meets(BurnPart(old(State()), side, i, user, amount, index), panicked)
    {
      hide Debit, Scaled, FlagsOfWords;
      if i !in core.configs { return true; }
      var held := core.BalanceOf(side, i, user);
      if held > 0 {
        var scaled := Scaled(amount, index);
        if scaled.Panic? { return true; }
        var burned := if scaled.value > held then held else scaled.value;
        var failed := DebitUser(side, i, core.configs[i], user, burned);
        if failed { return true; }
        if core.BalanceOf(side, i, user) == 0 {
          if side == Deposits {
            WriteCollateralFlag(user, i, false);
          } else {
            WriteBorrowFlag(user, i, false);
          }
        }
      }
      panicked := false;
    }

    method FindCollateral(word: bv128, user: Address) returns (found: bool)
      ensures found <==> HasCollateral(core, FlagsOfWord(word), user, core.count)
    {
      hide Bitmap.Collateral, Bitmap.Borrowed;
      for i := 0 to core.count
        invariant !HasCollateral(core, FlagsOfWord(word), user, i)
      {
        var asCollateral := Bitmap.ReadCollateral(word, i);
        if asCollateral && core.BalanceOf(Deposits, i, user) > 0 { return true; }
      }
      found := false;
    }

    method WriteOff(user: Address, i: ReserveIndex) returns (panicked: bool)
      modifies this`core
      ensures panicked <==> WipeOne(old(core), user, i).Panic?
      ensures !panicked ==> core == WipeOne(old(core), user, i).value
    {
      hide Debit, RayMul;
      var owed := core.BalanceOf(Borrows, i, user);
      if owed <= 0 { return false; }
      if i !in core.configs { return true; }
      var cell := core.CellOf(i);
      var badDebt := RayMul(owed, cell.borrowIndex).GetOr(0);
      if !InI128(cell.deficit + badDebt) { return true; }
      core := core.(cells := core.cells[i := cell.(deficit := cell.deficit + badDebt)]);
      panicked := DebitUser(Borrows, i, core.configs[i], user, owed);
    }

    method WipeDebts(word: bv128, user: Address) returns (panicked: bool)
      modifies this`core
      ensures panicked <==> Wipe(old(core), FlagsOfWord(word).borrowed, user, old(core).count).Panic?
      ensures !panicked ==> core == Wipe(old(core), FlagsOfWord(word).borrowed, user, old(core).count).value
    {
      hide WipeOne, Bitmap.Collateral, Bitmap.Borrowed;
      ghost var borrowed := FlagsOfWord(word).borrowed;
      var count := core.count;
      for i := 0 to count
        invariant Wipe(old(core), borrowed, user, i) == Done(core)
      {
        var borrowing := Bitmap.ReadBorrowing(word, i);
        if borrowing {
          var failed := WriteOff(user, i);
          if failed {
            WipePanicStays(old(core), borrowed, user, i + 1, count);
            return true;
          }
        }
      }
      panicked := false;
    }

    method WithoutBorrowFlags(word: bv128) returns (cleared: bv128)
      ensures FlagsOfWord(cleared) == Flags(FlagsOfWord(word).collateral, {})
    {
      Bitmap.BorrowedBelow64(word);
      hide Bitmap.Collateral, Bitmap.Borrowed;
      cleared := word;
      for i := 0 to 64
        invariant Bitmap.Collateral(cleared) == Bitmap.Collateral(word)
        invariant forall j <- Bitmap.Borrowed(cleared) :: i <= j < 64
      {
        cleared := Bitmap.SetBorrowing(cleared, i, false);
      }
      assert Bitmap.Borrowed(cleared) == {};
    }

    method SocializeBadDebt(borrower: Address, collateralIndex: ReserveIndex) returns (panicked: bool)
      modifies this
      ensures Meets(Socialize(old(State()), borrower, collateralIndex), panicked)
    {
      hide Wipe, HasCollateral, FlagsOfWord;
      var word := GetUserBitmap(borrower);
      if core.BalanceOf(Deposits, collateralIndex, borrower) != 0 { return false; }
      var remaining := FindCollateral(word, borrower);
      if remaining { return false; }
      panicked := WipeDebts(word, borrower);
      if !panicked {
        var cleared := WithoutBorrowFlags(word);
        WordWritten(words, borrower, cleared);
        words := words[borrower := cleared];
      }
    }

    method RunLiquidationHook(env: Env, liquidator: Address, borrower: Address, debtAsset: Address,
                              collateralAsset: Address, repay: i128, seize: i128) returns (panicked: bool)
      modifies this
      ensures Meets(
                LiquidationHook(old(State()), env, liquidator, borrower, debtAsset, collateralAsset, repay, seize),
                panicked)
    {
      hide Transfer, Accrue, BurnPart, Socialize, FlagsOfWords;
      if core.paused || repay <= 0 || seize <= 0 { return true; }
      var failed := TransferAsset(collateralAsset, ThisPool, liquidator, seize);
      if failed { return true; }
      TransferKeepsReserves(old(core), collateralAsset, ThisPool, liquidator, seize);
      if debtAsset !in core.indices || collateralAsset !in core.indices { return true; }
      var debtIndex, collateralIndex := core.indices[debtAsset], core.indices[collateralAsset];
      failed := UpdateReserveIndices(debtIndex, env.now);
      if failed { return true; }
      var borrowIndex := core.CellOf(debtIndex).borrowIndex;
      failed := UpdateReserveIndices(collateralIndex, env.now);
      if failed { return true; }
      var liquidityIndex := core.CellOf(collateralIndex).liquidityIndex;
      failed := BurnUserPart(Borrows, debtIndex, borrower, repay, borrowIndex);
      if failed { return true; }
      failed := BurnUserPart(Deposits, collateralIndex, borrower, seize, liquidityIndex);
      if failed { return true; }
      panicked := SocializeBadDebt(borrower, collateralIndex);
    }

    method ExecuteLiquidation(env: Env, liquidator: Address, borrower: Address, debtAsset: Address,
                              collateralAsset: Address, repay: i128, seize: i128) returns (panicked: bool)
      modifies this
      ensures Meets(
                Liquidate(old(State()), env, liquidator, borrower, debtAsset, collateralAsset, repay, seize),
                panicked)
    {
      hide Transfer, LiquidationHook, FlagsOfWords;
      var failed := TransferAsset(debtAsset, liquidator, ThisPool, repay);
      if failed { return true; }
      panicked := RunLiquidationHook(env, liquidator, borrower, debtAsset, collateralAsset, repay, seize);
    }

    // ----- the host -----

    /** One invocation: a panic restores the storage the call found. */
    method Invoke(env: Env, op: Op) returns (panicked: bool)
      modifies this
      ensures panicked <==> Call(old(State()), env, op).Panic?
      ensures State() == Next(old(State()), env, op)
    {
      hide Supply, Withdraw, Borrow, Repay, ToggleCollateral, Liquidate, AddReserve, Transfer, FlagsOfWords;
      var savedCore, savedWords := core, words;
      match op {
        case ListReserve(config, rate) => panicked := ListNewReserve(config, rate);
        case Pause(paused) => SetPaused(paused); panicked := false;
        case Pay(asset, from, to, amount) => panicked := TransferAsset(asset, from, to, amount);
        case SupplyOp(caller, asset, amount) => panicked := SupplyAsset(env, caller, asset, amount);
        case WithdrawOp(caller, asset, amount) => panicked := WithdrawAsset(env, caller, asset, amount);
        case BorrowOp(caller, asset, amount) => panicked := BorrowAsset(env, caller, asset, amount);
        case RepayOp(caller, asset, amount) => panicked := RepayAsset(env, caller, asset, amount);
        case ToggleOp(caller, asset, on) => panicked := ToggleAsset(env, caller, asset, on);
        case LiquidateOp(liquidator, borrower, debtAsset, collateralAsset, repay, seize) =>
          panicked := ExecuteLiquidation(env, liquidator, borrower, debtAsset, collateralAsset, repay, seize);
      }
      if panicked {
        core, words := savedCore, savedWords;
      }
    }
  }

  lemma {:induction false} PanicStays(c: Core, f: Flags, env: Env, user: Address, n: ReserveCount, m: ReserveCount)
    requires n <= m && Valuation(c, f, env, user, n).Panic?
    ensures Valuation(c, f, env, user, m).Panic?
    decreases m
  {
    if n < m {
      PanicStays(c, f, env, user, n, m - 1);
    }
  }

  lemma {:induction false} WipePanicStays(c: Core, borrowed: set<nat>, user: Address, n: ReserveCount, m: ReserveCount)
    requires n <= m && Wipe(c, borrowed, user, n).Panic?
    ensures Wipe(c, borrowed, user, m).Panic?
    decreases m
  {
    if n < m {
      WipePanicStays(c, borrowed, user, n, m - 1);
    }
  }
}
