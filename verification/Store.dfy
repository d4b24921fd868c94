/** The persistent records the flows read and write. */
module Store {
  import opened Prelude
  import opened AccountingModel
  import opened ConfigModel

  datatype ProtocolStatus = Uninitialized | Initializing | Active | ProtocolPaused | Emergency | Deprecated

  datatype PoolStatus = PoolStatus(status: ProtocolStatus, paused: bool)

  datatype ReserveStatus = ReserveUninitialized | ReserveActive | Frozen | Halted | Retired

  /** A registry entry: status, caps and risk parameters of one reserve. */
  datatype Listing = Listing(
    reserveId: u32,
    assetAddress: string,
    status: ReserveStatus,
    supplyCap: i128,
    borrowCap: i128,
    maxLtv: u32,
    liquidationThreshold: u32,
    liquidationBonus: u32,
    lastAccrualLedger: u32)

  /** Everything a flow reads but never writes. */
  datatype Market = Market(
    pool: Option<PoolStatus>,
    listings: map<u32, Listing>,
    prices: map<u32, i128>,
    validation: Option<ValidationConfig>,
    risk: Option<RiskConfig>)
  {
    function Price(reserveId: u32): i128 {
      Lookup(prices, reserveId).GetOr(WAD)
    }

    function RiskConfigOrDefault(): RiskConfig {
      risk.GetOr(DefaultRiskConfig())
    }

    /** A withdrawal or repayment needs the reserve to be registered and past initialisation. */
    predicate AllowsExit(reserveId: u32) {
      reserveId in listings && listings[reserveId].status != ReserveUninitialized
    }
  }

  type Position = (string, u32)

  datatype State = State(
    ledger: Option<LedgerState>,
    reserves: map<u32, ReserveState>,
    snapshots: map<Position, UserSnapshot>,
    market: Market)
  {
    function Snapshot(user: string, reserveId: u32): Option<UserSnapshot> {
      Lookup(snapshots, (user, reserveId))
    }

    function WriteBooks(b: Books): State {
      this.(ledger := Some(b.ledger), reserves := reserves[b.reserve.reserveId := b.reserve])
    }

    function WriteSnapshot(u: UserSnapshot): State {
      this.(snapshots := snapshots[(u.user, u.reserveId) := u])
    }

    /** Every record is stored under the key it names. */
    ghost predicate WellKeyed() {
      && (forall k <- reserves :: reserves[k].reserveId == k)
      && (forall p <- snapshots :: snapshots[p].user == p.0 && snapshots[p].reserveId == p.1)
    }
  }
}
