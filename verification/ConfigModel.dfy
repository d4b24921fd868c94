/** Protocol configuration sections, their validation rules and the risk order on each of them. */
module ConfigModel {
  import opened Prelude

  const INITIAL_CONFIG_VERSION: u32 := 1
  const MIN_GOVERNANCE_TIMELOCK_DELAY_LEDGERS: u32 := 17_280

  datatype ProtocolConfig = ProtocolConfig(
    protocolVersion: u32,
    configVersion: u32,
    protocolFeeBps: u32,
    reserveFactorMinBps: u32,
    reserveFactorMaxBps: u32,
    maxReserves: u32,
    maxAssets: u32,
    minHealthFactor: i128,
    defaultTtl: u32,
    emergencyModeEnabled: bool,
    updatedAt: nat)

  datatype RiskConfig = RiskConfig(
    minLtvBps: u32,
    maxLtvBps: u32,
    minLiquidationThresholdBps: u32,
    maxLiquidationThresholdBps: u32,
    minLiquidationBonusBps: u32,
    maxLiquidationBonusBps: u32,
    maxCloseFactorBps: u32,
    minHealthFactor: i128)

  datatype InterestConfig = InterestConfig(
    baseRateBps: u32,
    slope1Bps: u32,
    slope2Bps: u32,
    optimalUtilizationBps: u32,
    maxBorrowRateBps: u32,
    reserveFactorBps: u32,
    borrowIndexInitial: i128,
    supplyIndexInitial: i128)

  datatype OracleConfig = OracleConfig(
    maxPriceStalenessLedgers: u32,
    maxPriceDeviationBps: u32,
    fallbackEnabled: bool,
    twapEnabled: bool,
    circuitBreakerEnabled: bool,
    emergencyPriceFreezeEnabled: bool)

  datatype GovernanceConfig = GovernanceConfig(
    timelockDelayLedgers: u32,
    emergencyDelayLedgers: u32,
    quorumBps: u32,
    proposalThresholdBps: u32,
    guardianCanReduceRisk: bool,
    guardianCanPause: bool)

  datatype ValidationConfig = ValidationConfig(
    minDepositAmount: i128,
    minBorrowAmount: i128,
    minRepayAmount: i128,
    maxTransactionAmount: i128,
    dustThreshold: i128)

  datatype CurrentConfig = CurrentConfig(
    protocol: ProtocolConfig,
    risk: RiskConfig,
    interest: InterestConfig,
    oracle: OracleConfig,
    governance: GovernanceConfig,
    validation: ValidationConfig)

  function DefaultRiskConfig(): RiskConfig {
    RiskConfig(0, MAX_LTV_BPS, 1, 10_000, 0, 500, 5_000, MIN_HEALTH_FACTOR)
  }

  function DefaultConfig(timestamp: nat): CurrentConfig {
    CurrentConfig(
      ProtocolConfig(2, INITIAL_CONFIG_VERSION, 0, 0, 10_000, MAX_RESERVES, MAX_RESERVES, MIN_HEALTH_FACTOR,
                     TTL_EXTEND_TO, false, timestamp),
      DefaultRiskConfig(),
      InterestConfig(100, 400, 8_500, 8_000, 9_000, 1_000, RAY, RAY),
      OracleConfig(720, 200, true, true, true, true),
      GovernanceConfig(34_560, 0, 400, 100, true, true),
      ValidationConfig(1, 1, 1, I128_MAX, 1))
  }

  // ----- validation -----

  function ValidateProtocolConfig(c: ProtocolConfig): Result<()> {
    var _ :- Reject(c.protocolVersion == 0 || c.configVersion == 0, InvalidAmount);
    var _ :- Reject(c.protocolFeeBps > PERCENTAGE_FACTOR, InvalidAmount);
    var _ :- Reject(c.reserveFactorMinBps > PERCENTAGE_FACTOR || c.reserveFactorMaxBps > PERCENTAGE_FACTOR,
                    InvalidReserveFactor);
    var _ :- Reject(c.reserveFactorMaxBps < c.reserveFactorMinBps, InvalidReserveFactor);
    var _ :- Reject(c.maxReserves == 0 || c.maxAssets == 0, InvalidAmount);
    var _ :- Reject(c.maxReserves > MAX_RESERVES || c.maxAssets > MAX_RESERVES, MaxReservesReached);
    var _ :- Reject(c.minHealthFactor <= 0, InvalidAmount);
    Reject(c.defaultTtl == 0, InvalidAmount)
  }

  function ValidateRiskConfig(c: RiskConfig): Result<()> {
    var _ :- Reject(c.minLtvBps > MAX_LTV_BPS || c.maxLtvBps > MAX_LTV_BPS, InvalidLTV);
    var _ :- Reject(c.minLiquidationThresholdBps > PERCENTAGE_FACTOR
                    || c.maxLiquidationThresholdBps > PERCENTAGE_FACTOR
                    || c.minLiquidationBonusBps > PERCENTAGE_FACTOR
                    || c.maxLiquidationBonusBps > PERCENTAGE_FACTOR
                    || c.maxCloseFactorBps > PERCENTAGE_FACTOR, InvalidAmount);
    var _ :- Reject(c.minHealthFactor <= 0, InvalidAmount);
    var _ :- Reject(c.maxLtvBps < c.minLtvBps, InvalidLTV);
    var _ :- Reject(c.maxLiquidationThresholdBps < c.minLiquidationThresholdBps, InvalidLiquidationThreshold);
    var _ :- Reject(c.maxLiquidationBonusBps < c.minLiquidationBonusBps, InvalidLiquidationBonus);
    var _ :- Reject(c.maxLtvBps >= c.maxLiquidationThresholdBps, InvalidLTV);
    var _ :- Reject(c.minLtvBps >= c.minLiquidationThresholdBps, InvalidLTV);
    Reject(c.maxCloseFactorBps == 0, InvalidLiquidationThreshold)
  }

  function ValidateInterestConfig(c: InterestConfig): Result<()> {
    var _ :- Reject(c.baseRateBps > PERCENTAGE_FACTOR || c.slope1Bps > PERCENTAGE_FACTOR
                    || c.slope2Bps > PERCENTAGE_FACTOR || c.optimalUtilizationBps > PERCENTAGE_FACTOR
                    || c.maxBorrowRateBps > PERCENTAGE_FACTOR, InvalidAmount);
    var _ :- Reject(c.reserveFactorBps > PERCENTAGE_FACTOR, InvalidReserveFactor);
    var _ :- Reject(c.optimalUtilizationBps == 0, InvalidOptimalUtilization);
    var _ :- Reject(c.baseRateBps + c.slope1Bps + c.slope2Bps > c.maxBorrowRateBps, InvalidInterestRateConfig);
    Reject(c.borrowIndexInitial <= 0 || c.supplyIndexInitial <= 0, InvalidInterestRateConfig)
  }

  function ValidateOracleConfig(c: OracleConfig): Result<()> {
    var _ :- Reject(c.maxPriceStalenessLedgers == 0, InvalidPriceAge);
    var _ :- Reject(c.maxPriceDeviationBps > PERCENTAGE_FACTOR, InvalidAmount);
    Reject(c.maxPriceDeviationBps == 0, OraclePriceDeviationExceeded)
  }

  function ValidateGovernanceConfig(c: GovernanceConfig): Result<()> {
    var _ :- Reject(c.quorumBps > PERCENTAGE_FACTOR || c.proposalThresholdBps > PERCENTAGE_FACTOR, InvalidAmount);
    var _ :- Reject(c.timelockDelayLedgers < MIN_GOVERNANCE_TIMELOCK_DELAY_LEDGERS, TimelockActive);
    var _ :- Reject(c.emergencyDelayLedgers > c.timelockDelayLedgers, TimelockActive);
    Reject(c.quorumBps == 0 || c.proposalThresholdBps == 0, ProposalThresholdNotMet)
  }

  function ValidateValidationConfig(c: ValidationConfig): Result<()> {
    var _ :- Reject(c.minDepositAmount <= 0 || c.minBorrowAmount <= 0 || c.minRepayAmount <= 0
                    || c.maxTransactionAmount <= 0 || c.dustThreshold < 0, InvalidAmount);
    var _ :- Reject(c.maxTransactionAmount < c.minDepositAmount || c.maxTransactionAmount < c.minBorrowAmount
                    || c.maxTransactionAmount < c.minRepayAmount, InvalidAmount);
    Reject(c.dustThreshold > c.minDepositAmount || c.dustThreshold > c.minBorrowAmount
           || c.dustThreshold > c.minRepayAmount, InvalidAmount)
  }

  // ----- risk direction of a change -----

  predicate ProtocolIncreasesRisk(current: ProtocolConfig, next: ProtocolConfig) {
    || next.protocolFeeBps > current.protocolFeeBps
    || next.reserveFactorMinBps < current.reserveFactorMinBps
    || next.reserveFactorMaxBps > current.reserveFactorMaxBps
    || next.maxReserves > current.maxReserves
    || next.maxAssets > current.maxAssets
    || next.minHealthFactor < current.minHealthFactor
    || next.defaultTtl < current.defaultTtl
    || (!next.emergencyModeEnabled && current.emergencyModeEnabled)
  }

  predicate ProtocolReducesRisk(current: ProtocolConfig, next: ProtocolConfig) {
    && next.protocolFeeBps <= current.protocolFeeBps
    && next.reserveFactorMinBps >= current.reserveFactorMinBps
    && next.reserveFactorMaxBps <= current.reserveFactorMaxBps
    && next.maxReserves <= current.maxReserves
    && next.maxAssets <= current.maxAssets
    && next.minHealthFactor >= current.minHealthFactor
    && next.defaultTtl >= current.defaultTtl
    && (next.emergencyModeEnabled || !current.emergencyModeEnabled)
  }

  predicate RiskIncreasesRisk(current: RiskConfig, next: RiskConfig) {
    || next.maxLtvBps > current.maxLtvBps
    || next.maxLiquidationThresholdBps > current.maxLiquidationThresholdBps
    || next.minLiquidationBonusBps < current.minLiquidationBonusBps
    || next.maxLiquidationBonusBps < current.maxLiquidationBonusBps
    || next.maxCloseFactorBps < current.maxCloseFactorBps
    || next.minHealthFactor < current.minHealthFactor
  }

  predicate RiskReducesRisk(current: RiskConfig, next: RiskConfig) {
    && next.maxLtvBps <= current.maxLtvBps
    && next.maxLiquidationThresholdBps <= current.maxLiquidationThresholdBps
    && next.minLiquidationBonusBps >= current.minLiquidationBonusBps
    && next.maxLiquidationBonusBps >= current.maxLiquidationBonusBps
    && next.maxCloseFactorBps >= current.maxCloseFactorBps
    && next.minHealthFactor >= current.minHealthFactor
  }

  predicate InterestIncreasesRisk(current: InterestConfig, next: InterestConfig) {
    || next.baseRateBps > current.baseRateBps
    || next.slope1Bps > current.slope1Bps
    || next.slope2Bps > current.slope2Bps
    || next.maxBorrowRateBps > current.maxBorrowRateBps
    || next.reserveFactorBps < current.reserveFactorBps
  }

  predicate InterestReducesRisk(current: InterestConfig, next: InterestConfig) {
    && next.baseRateBps <= current.baseRateBps
    && next.slope1Bps <= current.slope1Bps
    && next.slope2Bps <= current.slope2Bps
    && next.maxBorrowRateBps <= current.maxBorrowRateBps
    && next.reserveFactorBps >= current.reserveFactorBps
  }

  predicate OracleIncreasesRisk(current: OracleConfig, next: OracleConfig) {
    || next.maxPriceStalenessLedgers > current.maxPriceStalenessLedgers
    || next.maxPriceDeviationBps > current.maxPriceDeviationBps
    || (!next.fallbackEnabled && current.fallbackEnabled)
    || (!next.twapEnabled && current.twapEnabled)
    || (!next.circuitBreakerEnabled && current.circuitBreakerEnabled)
    || (!next.emergencyPriceFreezeEnabled && current.emergencyPriceFreezeEnabled)
  }

  predicate OracleReducesRisk(current: OracleConfig, next: OracleConfig) {
    && next.maxPriceStalenessLedgers <= current.maxPriceStalenessLedgers
    && next.maxPriceDeviationBps <= current.maxPriceDeviationBps
    && (next.fallbackEnabled || !current.fallbackEnabled)
    && (next.twapEnabled || !current.twapEnabled)
    && (next.circuitBreakerEnabled || !current.circuitBreakerEnabled)
    && (next.emergencyPriceFreezeEnabled || !current.emergencyPriceFreezeEnabled)
  }

  predicate GovernanceIncreasesRisk(current: GovernanceConfig, next: GovernanceConfig) {
    || next.timelockDelayLedgers < current.timelockDelayLedgers
    || next.emergencyDelayLedgers < current.emergencyDelayLedgers
    || next.quorumBps < current.quorumBps
    || next.proposalThresholdBps < current.proposalThresholdBps
    || (!next.guardianCanReduceRisk && current.guardianCanReduceRisk)
    || (!next.guardianCanPause && current.guardianCanPause)
  }

  predicate ValidationIncreasesRisk(current: ValidationConfig, next: ValidationConfig) {
    || next.minDepositAmount < current.minDepositAmount
    || next.minBorrowAmount < current.minBorrowAmount
    || next.minRepayAmount < current.minRepayAmount
    || next.maxTransactionAmount > current.maxTransactionAmount
    || next.dustThreshold < current.dustThreshold
  }

  predicate ValidationReducesRisk(current: ValidationConfig, next: ValidationConfig) {
    && next.minDepositAmount >= current.minDepositAmount
    && next.minBorrowAmount >= current.minBorrowAmount
    && next.minRepayAmount >= current.minRepayAmount
    && next.maxTransactionAmount <= current.maxTransactionAmount
    && next.dustThreshold >= current.dustThreshold
  }
}
