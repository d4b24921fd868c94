/** The two mutable accounting records, their values, and the double entry that links them. */
module AccountingModel {
  import opened Prelude

  const ACCOUNTING_VERSION: u32 := 1

  datatype LedgerState = LedgerState(
    totalAssets: i128,
    totalLiabilities: i128,
    protocolEquity: i128,
    totalLiquidity: i128,
    totalScaledSupply: i128,
    totalScaledDebt: i128,
    totalBadDebt: i128,
    treasuryBalance: i128,
    insuranceFundBalance: i128,
    lastUpdatedLedger: u32,
    accountingVersion: u32)
  {
    predicate NonNegative() {
      && totalAssets >= 0 && totalLiabilities >= 0 && protocolEquity >= 0 && totalLiquidity >= 0
      && totalScaledSupply >= 0 && totalScaledDebt >= 0 && totalBadDebt >= 0
      && treasuryBalance >= 0 && insuranceFundBalance >= 0
    }
  }

  datatype ReserveState = ReserveState(
    reserveId: u32,
    totalLiquidity: i128,
    availableLiquidity: i128,
    totalScaledSupply: i128,
    totalScaledDebt: i128,
    totalActualSupply: i128,
    totalActualDebt: i128,
    accruedToTreasury: i128,
    accruedToInsurance: i128,
    badDebt: i128,
    supplyIndex: i128,
    borrowIndex: i128,
    lastUpdatedLedger: u32)
  {
    predicate NonNegative() {
      && totalLiquidity >= 0 && availableLiquidity >= 0 && totalScaledSupply >= 0 && totalScaledDebt >= 0
      && totalActualSupply >= 0 && totalActualDebt >= 0 && accruedToTreasury >= 0 && accruedToInsurance >= 0
      && badDebt >= 0
    }

    /** What this reserve contributes to the global ledger. */
    ghost function Balance(): Entry {
      Entry(totalLiquidity, totalScaledSupply, totalScaledDebt, totalActualSupply, totalActualDebt,
            badDebt, accruedToTreasury, accruedToInsurance)
    }

    /** Assets equal liabilities plus protocol claims. */
    ghost predicate Equation() {
      totalLiquidity + totalActualDebt == totalActualSupply + accruedToTreasury + accruedToInsurance
    }
  }

  datatype UserSnapshot = UserSnapshot(
    user: string,
    reserveId: u32,
    scaledSupply: i128,
    scaledDebt: i128,
    collateralEnabled: bool,
    lastUpdatedLedger: u32)

  function NewLedger(now: u32): LedgerState {
    LedgerState(0, 0, 0, 0, 0, 0, 0, 0, 0, now, ACCOUNTING_VERSION)
  }

  function NewReserve(reserveId: u32, now: u32): ReserveState {
    ReserveState(reserveId, 0, 0, 0, 0, 0, 0, 0, 0, 0, RAY, RAY, now)
  }

  function NewSnapshot(user: string, reserveId: u32, now: u32): UserSnapshot {
    UserSnapshot(user, reserveId, 0, 0, false, now)
  }

  // ----- double entry -----

  /** A signed posting to one reserve; the ledger receives its image. */
  datatype Entry = Entry(
    liquidity: int, scaledSupply: int, scaledDebt: int, actualSupply: int, actualDebt: int,
    badDebt: int, treasury: int, insurance: int)
  {
    ghost function Plus(e: Entry): Entry {
      Entry(liquidity + e.liquidity, scaledSupply + e.scaledSupply, scaledDebt + e.scaledDebt,
            actualSupply + e.actualSupply, actualDebt + e.actualDebt, badDebt + e.badDebt,
            treasury + e.treasury, insurance + e.insurance)
    }

    ghost function Negated(): Entry {
      Nothing.Minus(this)
    }

    ghost function Minus(e: Entry): Entry {
      Entry(liquidity - e.liquidity, scaledSupply - e.scaledSupply, scaledDebt - e.scaledDebt,
            actualSupply - e.actualSupply, actualDebt - e.actualDebt, badDebt - e.badDebt,
            treasury - e.treasury, insurance - e.insurance)
    }
  }

  ghost const Nothing := Entry(0, 0, 0, 0, 0, 0, 0, 0)

  ghost function Liquidity(amount: int): Entry {
    Nothing.(liquidity := amount)
  }

  ghost function Supply(scaled: int, actual: int): Entry {
    Nothing.(scaledSupply := scaled, actualSupply := actual)
  }

  ghost function Debt(scaled: int, actual: int): Entry {
    Nothing.(scaledDebt := scaled, actualDebt := actual)
  }

  /** The ledger mirrors a total posting: assets are cash plus loans, liabilities are deposits,
      equity is what treasury and insurance have accrued. */
  ghost predicate Mirrors(l: LedgerState, total: Entry) {
    && l.totalLiquidity == total.liquidity
    && l.totalAssets == total.liquidity + total.actualDebt
    && l.totalLiabilities == total.actualSupply
    && l.totalScaledSupply == total.scaledSupply
    && l.totalScaledDebt == total.scaledDebt
    && l.totalBadDebt == total.badDebt
    && l.treasuryBalance == total.treasury
    && l.insuranceFundBalance == total.insurance
    && l.protocolEquity == total.treasury + total.insurance
  }

  /** A working copy: the global ledger beside one reserve. */
  datatype Books = Books(ledger: LedgerState, reserve: ReserveState)

  /** Both records moved by the same entry at ledger `now`, and nothing else changed. */
  ghost predicate Posts(before: Books, after: Books, e: Entry, now: u32) {
    var l, l', r, r' := before.ledger, after.ledger, before.reserve, after.reserve;
    && r'.Balance() == r.Balance().Plus(e)
    && r'.availableLiquidity == r.availableLiquidity + e.liquidity
    && r'.reserveId == r.reserveId && r'.supplyIndex == r.supplyIndex && r'.borrowIndex == r.borrowIndex
    && r'.lastUpdatedLedger == now
    && l'.totalLiquidity == l.totalLiquidity + e.liquidity
    && l'.totalAssets == l.totalAssets + e.liquidity + e.actualDebt
    && l'.totalLiabilities == l.totalLiabilities + e.actualSupply
    && l'.totalScaledSupply == l.totalScaledSupply + e.scaledSupply
    && l'.totalScaledDebt == l.totalScaledDebt + e.scaledDebt
    && l'.totalBadDebt == l.totalBadDebt + e.badDebt
    && l'.treasuryBalance == l.treasuryBalance + e.treasury
    && l'.insuranceFundBalance == l.insuranceFundBalance + e.insurance
    && l'.protocolEquity == l.protocolEquity + e.treasury + e.insurance
    && l'.accountingVersion == l.accountingVersion
    && l'.lastUpdatedLedger == now
  }

  // ----- the records as the engines hold them: passed by mutable reference -----

  class AccountingLedger {
    var totalAssets: i128
    var totalLiabilities: i128
    var protocolEquity: i128
    var totalLiquidity: i128
    var totalScaledSupply: i128
    var totalScaledDebt: i128
    var totalBadDebt: i128
    var treasuryBalance: i128
    var insuranceFundBalance: i128
    var lastUpdatedLedger: u32
    var accountingVersion: u32

    constructor (s: LedgerState)
      ensures State() == s
    {
      totalAssets, totalLiabilities, protocolEquity := s.totalAssets, s.totalLiabilities, s.protocolEquity;
      totalLiquidity, totalScaledSupply, totalScaledDebt := s.totalLiquidity, s.totalScaledSupply, s.totalScaledDebt;
      totalBadDebt, treasuryBalance := s.totalBadDebt, s.treasuryBalance;
      insuranceFundBalance := s.insuranceFundBalance;
      lastUpdatedLedger, accountingVersion := s.lastUpdatedLedger, s.accountingVersion;
    }

    function State(): LedgerState
      reads this
    {
      LedgerState(totalAssets, totalLiabilities, protocolEquity, totalLiquidity, totalScaledSupply, totalScaledDebt,
                  totalBadDebt, treasuryBalance, insuranceFundBalance, lastUpdatedLedger, accountingVersion)
    }
  }

  class ReserveAccounting {
    const reserveId: u32
    var totalLiquidity: i128
    var availableLiquidity: i128
    var totalScaledSupply: i128
    var totalScaledDebt: i128
    var totalActualSupply: i128
    var totalActualDebt: i128
    var accruedToTreasury: i128
    var accruedToInsurance: i128
    var badDebt: i128
    var supplyIndex: i128
    var borrowIndex: i128
    var lastUpdatedLedger: u32

    constructor (s: ReserveState)
      ensures State() == s
    {
      reserveId := s.reserveId;
      totalLiquidity, availableLiquidity := s.totalLiquidity, s.availableLiquidity;
      totalScaledSupply, totalScaledDebt := s.totalScaledSupply, s.totalScaledDebt;
      totalActualSupply, totalActualDebt := s.totalActualSupply, s.totalActualDebt;
      accruedToTreasury, accruedToInsurance, badDebt := s.accruedToTreasury, s.accruedToInsurance, s.badDebt;
      supplyIndex, borrowIndex, lastUpdatedLedger := s.supplyIndex, s.borrowIndex, s.lastUpdatedLedger;
    }

    function State(): ReserveState
      reads this
    {
      ReserveState(reserveId, totalLiquidity, availableLiquidity, totalScaledSupply, totalScaledDebt,
                   totalActualSupply, totalActualDebt, accruedToTreasury, accruedToInsurance, badDebt,
                   supplyIndex, borrowIndex, lastUpdatedLedger)
    }
  }

  function BooksOf(ledger: AccountingLedger, reserve: ReserveAccounting): Books
    reads ledger, reserve
  {
    Books(ledger.State(), reserve.State())
  }

  /** A primitive's outcome: the specified new books, or the specified error with both records untouched. */
  predicate Atomic(spec: Result<Books>, r: Result<()>, before: Books, after: Books) {
    match spec
    case Ok(books) => r == Ok(()) && after == books
    case Err(e) => r == Err(e) && after == before
  }
}
