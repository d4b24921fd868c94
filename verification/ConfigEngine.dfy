/** Versioned protocol configuration: authority, timelock, six section updates, and an append-only history. */
module ConfigEngine {
  import opened Prelude
  import opened ConfigModel

  datatype Authority = Governance | Guardian

  datatype Section = AllSections | ProtocolSection | RiskSection | InterestSection | OracleSection
                   | GovernanceSection | ValidationSection

  datatype UpdateContext = UpdateContext(
    actor: string,
    authority: Authority,
    reason: string,
    emergency: bool,
    timelockDelayLedgers: u32,
    timelockExpiresAtLedger: u32)

  datatype AccessControl = AccessControl(admin: string, guardian: string, createdAt: nat)

  datatype Metadata = Metadata(
    configVersion: u32,
    previousVersion: u32,
    section: Section,
    actor: string,
    ledger: u32,
    timestamp: nat,
    emergency: bool,
    reason: string)

  /** The host's view of the moment a call is made. */
  datatype Clock = Clock(ledger: u32, timestamp: nat, contract: string)

  datatype ConfigState = ConfigState(
    access: Option<AccessControl>,
    currentVersion: Option<u32>,
    historyCount: u32,
    protocol: Option<ProtocolConfig>,
    risk: Option<RiskConfig>,
    interest: Option<InterestConfig>,
    oracle: Option<OracleConfig>,
    governance: Option<GovernanceConfig>,
    validation: Option<ValidationConfig>,
    snapshots: map<u32, CurrentConfig>,
    metadata: map<u32, Metadata>)

  const Empty := ConfigState(None, None, 0, None, None, None, None, None, None, map[], map[])

  /** The new value of one section. */
  datatype Change =
    | ToProtocol(protocol: ProtocolConfig)
    | ToRisk(risk: RiskConfig)
    | ToInterest(interest: InterestConfig)
    | ToOracle(oracle: OracleConfig)
    | ToGovernance(governance: GovernanceConfig)
    | ToValidation(validation: ValidationConfig)
  {
    function Section(): Section {
      match this
      case ToProtocol(_) => ProtocolSection
      case ToRisk(_) => RiskSection
      case ToInterest(_) => InterestSection
      case ToOracle(_) => OracleSection
      case ToGovernance(_) => GovernanceSection
      case ToValidation(_) => ValidationSection
    }

    function Validate(): Result<()> {
      match this
      case ToProtocol(c) => ValidateProtocolConfig(c)
      case ToRisk(c) => ValidateRiskConfig(c)
      case ToInterest(c) => ValidateInterestConfig(c)
      case ToOracle(c) => ValidateOracleConfig(c)
      case ToGovernance(c) => ValidateGovernanceConfig(c)
      case ToValidation(c) => ValidateValidationConfig(c)
    }

    predicate IncreasesRisk(current: CurrentConfig) {
      match this
      case ToProtocol(c) => ProtocolIncreasesRisk(current.protocol, c)
      case ToRisk(c) => RiskIncreasesRisk(current.risk, c)
      case ToInterest(c) => InterestIncreasesRisk(current.interest, c)
      case ToOracle(c) => OracleIncreasesRisk(current.oracle, c)
      case ToGovernance(c) => GovernanceIncreasesRisk(current.governance, c)
      case ToValidation(c) => ValidationIncreasesRisk(current.validation, c)
    }

    /** A guardian may never touch the governance section. */
    predicate GuardianMayApply(current: CurrentConfig) {
      match this
      case ToProtocol(c) => ProtocolReducesRisk(current.protocol, c)
      case ToRisk(c) => RiskReducesRisk(current.risk, c)
      case ToInterest(c) => InterestReducesRisk(current.interest, c)
      case ToOracle(c) => OracleReducesRisk(current.oracle, c)
      case ToGovernance(_) => false
      case ToValidation(c) => ValidationReducesRisk(current.validation, c)
    }

    /** The whole configuration after the change, before the version stamp. */
    function Onto(current: CurrentConfig): CurrentConfig {
      match this
      case ToProtocol(c) => current.(protocol := c)
      case ToRisk(c) => current.(risk := c)
      case ToInterest(c) => current.(interest := c)
      case ToOracle(c) => current.(oracle := c)
      case ToGovernance(c) => current.(governance := c)
      case ToValidation(c) => current.(validation := c)
    }
  }

  // ----- checks -----

  function RequireAuthority(s: ConfigState, x: UpdateContext): Result<()> {
    var _ :- Reject(x.reason == "", InvalidAmount);
    var access :- s.access.OkOr(NotInitialized);
    match x.authority
    case Governance => Reject(x.actor != access.admin, Unauthorized)
    case Guardian => Reject(x.actor != access.guardian || !x.emergency, Unauthorized)
  }

  function GetCurrentConfig(s: ConfigState): Result<CurrentConfig> {
    var protocol :- s.protocol.OkOr(NotInitialized);
    var risk :- s.risk.OkOr(NotInitialized);
    var interest :- s.interest.OkOr(NotInitialized);
    var oracle :- s.oracle.OkOr(NotInitialized);
    var governance :- s.governance.OkOr(NotInitialized);
    var validation :- s.validation.OkOr(NotInitialized);
    Ok(CurrentConfig(protocol, risk, interest, oracle, governance, validation))
  }

  function NextConfigVersion(s: ConfigState): Result<u32> {
    var current :- s.currentVersion.OkOr(NotInitialized);
    if current + 1 > U32_MAX then Err(MathOverflow) else Ok(current + 1)
  }

  /**
   * The delay the caller states is at least the one in force, and the expiry the caller states is not in the future.
   * Both arrive with the call that they are to delay: nothing was announced or recorded before.
   */
  predicate TimelockStated(clock: Clock, x: UpdateContext, governance: GovernanceConfig) {
    && governance.timelockDelayLedgers != 0
    && x.timelockDelayLedgers >= governance.timelockDelayLedgers
    && x.timelockExpiresAtLedger <= clock.ledger
  }

  function ValidateGovernanceConstraints(clock: Clock, x: UpdateContext, governance: GovernanceConfig,
                                         riskIncreasing: bool): Result<()> {
    Reject(riskIncreasing && (x.authority == Guardian || x.emergency || !TimelockStated(clock, x, governance)),
           TimelockActive)
  }

  function ValidateGuardianReduction(x: UpdateContext, reducing: bool): Result<()> {
    Reject(x.authority == Guardian && !reducing, Unauthorized)
  }

  function Stamp(p: ProtocolConfig, version: u32, timestamp: nat): ProtocolConfig {
    p.(configVersion := version, updatedAt := timestamp)
  }

  // ----- versioning -----

  function CommitVersion(s: ConfigState, m: Metadata, config: CurrentConfig): Result<ConfigState> {
    var _ :- Reject(m.configVersion <= s.currentVersion.GetOr(0), InvalidIndex);
    var _ :- Reject(s.historyCount + 1 > U32_MAX, MathOverflow);
    Ok(s.(snapshots := s.snapshots[m.configVersion := config],
          metadata := s.metadata[m.configVersion := m],
          currentVersion := Some(m.configVersion),
          historyCount := s.historyCount + 1))
  }

  function MetadataFor(clock: Clock, x: UpdateContext, previous: u32, version: u32, section: Section): Metadata {
    Metadata(version, previous, section, x.actor, clock.ledger, clock.timestamp, x.emergency, x.reason)
  }

  /** Every latest section written, nothing committed yet. */
  function WriteLatest(s: ConfigState, c: CurrentConfig): ConfigState {
    s.(protocol := Some(c.protocol), risk := Some(c.risk), interest := Some(c.interest), oracle := Some(c.oracle),
       governance := Some(c.governance), validation := Some(c.validation))
  }

  // ----- operations -----

  /** What an update is about to commit: the storage with its latest sections already overwritten. */
  datatype Staged = Staged(state: ConfigState, metadata: Metadata, config: CurrentConfig)

  function StageChecked(s: ConfigState, clock: Clock, x: UpdateContext, change: Change, current: CurrentConfig)
    : Result<Staged>
  {
    var _ :- ValidateGuardianReduction(x, change.GuardianMayApply(current));
    var _ :- ValidateGovernanceConstraints(clock, x, current.governance, change.IncreasesRisk(current));
    var version :- NextConfigVersion(s);
    var next := change.Onto(current);
    var stamped := next.(protocol := Stamp(next.protocol, version, clock.timestamp));
    Ok(Staged(WriteLatest(s, stamped), MetadataFor(clock, x, version - 1, version, change.Section()), stamped))
  }

  /** The protocol section is stamped before it is validated; the other sections are validated first of all. */
  function Stage(s: ConfigState, clock: Clock, x: UpdateContext, change: Change): Result<Staged> {
    var _ :- RequireAuthority(s, x);
    match change
    case ToProtocol(next) =>
      var current :- GetCurrentConfig(s);
      var version :- NextConfigVersion(s);
      var _ :- ValidateProtocolConfig(Stamp(next, version, clock.timestamp));
      StageChecked(s, clock, x, change, current)
    case _ =>
      var _ :- change.Validate();
      var current :- GetCurrentConfig(s);
      StageChecked(s, clock, x, change, current)
  }

  function Update(s: ConfigState, clock: Clock, x: UpdateContext, change: Change): Result<ConfigState> {
    var staged :- Stage(s, clock, x, change);
    CommitVersion(staged.state, staged.metadata, staged.config)
  }

  function StageInitialize(s: ConfigState, clock: Clock, admin: string, guardian: string, reason: string)
    : Result<Staged>
  {
    var _ :- Reject(s.access.Some?, AlreadyInitialized);
    var _ :- Reject(reason == "", InvalidAmount);
    var _ :- Reject(admin == clock.contract, InvalidAdmin);
    var _ :- Reject(guardian == clock.contract, InvalidGuardian);
    var config := DefaultConfig(clock.timestamp);
    var x := UpdateContext(admin, Governance, reason, false, 0, 0);
    Ok(Staged(WriteLatest(s.(access := Some(AccessControl(admin, guardian, clock.timestamp))), config),
              MetadataFor(clock, x, 0, INITIAL_CONFIG_VERSION, AllSections), config))
  }

  function Initialize(s: ConfigState, clock: Clock, admin: string, guardian: string, reason: string)
    : Result<ConfigState>
  {
    var staged :- StageInitialize(s, clock, admin, guardian, reason);
    CommitVersion(staged.state, staged.metadata, staged.config)
  }

  predicate Commits(spec: Result<ConfigState>, r: Result<()>, before: ConfigState, after: ConfigState) {
    match spec
    case Ok(s) => r == Ok(()) && after == s
    case Err(e) => r == Err(e) && after == before
  }

  // ----- the stored history -----

  /** Versions are exactly 1..n, each with its snapshot and its metadata, and the latest sections are snapshot n. */
  ghost predicate ValidHistory(s: ConfigState) {
    if s.access.None? then s == Empty
    else
      && s.currentVersion.Some?
      && var n := s.currentVersion.value;
      && n >= 1 && s.historyCount == n
      && (forall v: u32 :: v in s.snapshots <==> 1 <= v <= n)
      && (forall v: u32 :: v in s.metadata <==> 1 <= v <= n)
      && (forall v <- s.metadata :: s.metadata[v].configVersion == v && s.metadata[v].previousVersion == v - 1)
      && (forall v <- s.snapshots :: s.snapshots[v].protocol.configVersion == v)
      && s.currentVersion.value in s.snapshots
      && GetCurrentConfig(s) == Ok(s.snapshots[n])
  }

  /** What a staged update holds, whatever its section. */
  lemma StagedShape(s: ConfigState, clock: Clock, x: UpdateContext, change: Change) returns (stamped: CurrentConfig)
    requires Stage(s, clock, x, change).Ok?
    ensures s.access.Some? && s.currentVersion.Some? && s.currentVersion.value < U32_MAX && GetCurrentConfig(s).Ok?
    ensures var n, next := s.currentVersion.value, change.Onto(GetCurrentConfig(s).value);
            && stamped == next.(protocol := Stamp(next.protocol, n + 1, clock.timestamp))
            && Stage(s, clock, x, change)
               == Ok(Staged(WriteLatest(s, stamped), MetadataFor(clock, x, n, n + 1, change.Section()), stamped))
    ensures StageChecked(s, clock, x, change, GetCurrentConfig(s).value).Ok?
    ensures if change.ToProtocol? then ValidateProtocolConfig(stamped.protocol).Ok? else change.Validate().Ok?
  {
    stamped := Stage(s, clock, x, change).value.config;
  }

  /** Once the latest sections are written, the commit that follows cannot fail. */
  lemma CommitNeverFailsAfterWrite(s: ConfigState, clock: Clock, x: UpdateContext, change: Change)
    requires ValidHistory(s) && Stage(s, clock, x, change).Ok?
    ensures Update(s, clock, x, change).Ok?
  {
    var stamped := StagedShape(s, clock, x, change);
  }

  lemma CommitKeepsHistory(s: ConfigState, m: Metadata, config: CurrentConfig)
    requires ValidHistory(s) && s.access.Some? && s.currentVersion.value < U32_MAX
    requires m.configVersion == s.currentVersion.value + 1 && m.previousVersion == s.currentVersion.value
    requires config.protocol.configVersion == m.configVersion
    ensures var r := CommitVersion(WriteLatest(s, config), m, config);
            r.Ok? && ValidHistory(r.value) && Extends(s, r.value) && r.value.currentVersion == Some(m.configVersion)
            && r.value.snapshots == s.snapshots[m.configVersion := config]
  {
  }

  lemma UpdateKeepsHistory(s: ConfigState, clock: Clock, x: UpdateContext, change: Change)
    requires ValidHistory(s) && Update(s, clock, x, change).Ok?
    ensures ValidHistory(Update(s, clock, x, change).value) && Extends(s, Update(s, clock, x, change).value)
  {
    var stamped := StagedShape(s, clock, x, change);
    CommitKeepsHistory(s, MetadataFor(clock, x, s.currentVersion.value, s.currentVersion.value + 1, change.Section()),
                       stamped);
  }

  lemma InitializeKeepsHistory(s: ConfigState, clock: Clock, admin: string, guardian: string, reason: string)
    requires ValidHistory(s) && StageInitialize(s, clock, admin, guardian, reason).Ok?
    ensures Initialize(s, clock, admin, guardian, reason).Ok?
    ensures ValidHistory(Initialize(s, clock, admin, guardian, reason).value)
  {
  }

  // ----- every stored configuration is valid -----

  predicate ValidConfig(c: CurrentConfig) {
    && ValidateProtocolConfig(c.protocol).Ok? && ValidateRiskConfig(c.risk).Ok?
    && ValidateInterestConfig(c.interest).Ok? && ValidateOracleConfig(c.oracle).Ok?
    && ValidateGovernanceConfig(c.governance).Ok? && ValidateValidationConfig(c.validation).Ok?
  }

  ghost predicate AllValid(m: map<u32, CurrentConfig>) {
    forall v <- m :: ValidConfig(m[v])
  }

  lemma AddValid(m: map<u32, CurrentConfig>, v: u32, c: CurrentConfig)
    requires AllValid(m) && ValidConfig(c)
    ensures AllValid(m[v := c])
  {
  }

  lemma PickValid(m: map<u32, CurrentConfig>, v: u32)
    requires AllValid(m) && v in m
    ensures ValidConfig(m[v])
  {
  }

  lemma DefaultConfigIsValid(timestamp: nat)
    ensures ValidConfig(DefaultConfig(timestamp))
  {
  }

  lemma StampKeepsValid(p: ProtocolConfig, version: u32, timestamp: nat)
    requires ValidateProtocolConfig(p).Ok? && version > 0
    ensures ValidateProtocolConfig(Stamp(p, version, timestamp)).Ok?
  {
  }

  lemma ChangedConfigIsValid(current: CurrentConfig, change: Change, version: u32, timestamp: nat)
    requires ValidConfig(current) && version > 0
    requires if change.ToProtocol? then ValidateProtocolConfig(Stamp(change.protocol, version, timestamp)).Ok?
             else change.Validate().Ok?
    ensures var next := change.Onto(current);
            ValidConfig(next.(protocol := Stamp(next.protocol, version, timestamp)))
  {
    if !change.ToProtocol? {
      StampKeepsValid(current.protocol, version, timestamp);
    }
  }

  // ----- runs -----

  datatype Op =
    | DoInitialize(clock: Clock, admin: string, guardian: string, reason: string)
    | DoUpdate(clock: Clock, context: UpdateContext, change: Change)

  function Step(s: ConfigState, op: Op): Result<ConfigState> {
    match op
    case DoInitialize(clock, admin, guardian, reason) => Initialize(s, clock, admin, guardian, reason)
    case DoUpdate(clock, x, change) => Update(s, clock, x, change)
  }

  function Next(s: ConfigState, op: Op): ConfigState {
    match Step(s, op)
    case Ok(t) => t
    case Err(_) => s
  }

  function Run(s: ConfigState, ops: seq<Op>): ConfigState
    decreases |ops|
  {
    if ops == [] then s else Run(Next(s, ops[0]), ops[1..])
  }

  /** Earlier snapshots and their metadata are still there, unchanged. */
  ghost predicate Extends(s: ConfigState, t: ConfigState) {
    && (s.access.Some? ==> t.access == s.access && s.currentVersion.Some? && t.currentVersion.Some?
                           && s.currentVersion.value <= t.currentVersion.value)
    && (forall v <- s.snapshots :: v in t.snapshots && t.snapshots[v] == s.snapshots[v])
    && (forall v <- s.metadata :: v in t.metadata && t.metadata[v] == s.metadata[v])
  }

  lemma StepKeepsHistory(s: ConfigState, op: Op)
    requires ValidHistory(s)
    ensures ValidHistory(Next(s, op)) && Extends(s, Next(s, op))
  {
    if Step(s, op).Ok? {
      match op
      case DoInitialize(clock, admin, guardian, reason) => InitializeKeepsHistory(s, clock, admin, guardian, reason);
      case DoUpdate(clock, x, change) => UpdateKeepsHistory(s, clock, x, change);
    }
  }

  /** In every run versions are exactly 1..n, the latest configuration is snapshot n, and no snapshot is rewritten. */
  lemma {:induction false} RunKeepsHistory(s: ConfigState, ops: seq<Op>)
    requires ValidHistory(s)
    ensures ValidHistory(Run(s, ops)) && Extends(s, Run(s, ops))
    decreases |ops|
  {
    if ops != [] {
      StepKeepsHistory(s, ops[0]);
      RunKeepsHistory(Next(s, ops[0]), ops[1..]);
    }
  }

  /** ... and every configuration ever stored satisfies all the validation rules. */
  lemma {:induction false} RunStoresOnlyValidConfigs(s: ConfigState, ops: seq<Op>)
    requires ValidHistory(s) && AllValid(s.snapshots)
    ensures AllValid(Run(s, ops).snapshots)
    decreases |ops|
  {
    if ops != [] {
      var t := Next(s, ops[0]);
      StepKeepsHistory(s, ops[0]);
      var v, c := StepAddsValid(s, ops[0]);
      AddValid(s.snapshots, v, c);
      RunStoresOnlyValidConfigs(t, ops[1..]);
    }
  }

  /** A successful step stores one valid configuration; a failed one changes nothing. */
  lemma StepAddsValid(s: ConfigState, op: Op) returns (v: u32, c: CurrentConfig)
    requires ValidHistory(s) && AllValid(s.snapshots)
    ensures ValidConfig(c)
    ensures Next(s, op).snapshots == s.snapshots[v := c] || Next(s, op).snapshots == s.snapshots
  {
    v, c := 0, DefaultConfig(0);
    if op.DoInitialize? {
      v, c := INITIAL_CONFIG_VERSION, DefaultConfig(op.clock.timestamp);
    } else if Stage(s, op.clock, op.context, op.change).Ok? {
      var staged := Stage(s, op.clock, op.context, op.change).value;
      v, c := staged.metadata.configVersion, staged.config;
    }
    assert ValidConfig(c) by {
      if op.DoUpdate? && Stage(s, op.clock, op.context, op.change).Ok? {
        StagedConfigIsValid(s, op.clock, op.context, op.change);
      } else {
        DefaultConfigIsValid(if op.DoInitialize? then op.clock.timestamp else 0);
      }
    }
    StepStores(s, op, v, c);
  }

  lemma StepStores(s: ConfigState, op: Op, v: u32, c: CurrentConfig)
    requires op.DoInitialize? ==> v == INITIAL_CONFIG_VERSION && c == DefaultConfig(op.clock.timestamp)
    requires op.DoUpdate? && Stage(s, op.clock, op.context, op.change).Ok? ==>
               var staged := Stage(s, op.clock, op.context, op.change).value;
               v == staged.metadata.configVersion && c == staged.config
    ensures Next(s, op).snapshots == s.snapshots[v := c] || Next(s, op).snapshots == s.snapshots
  {
    if op.DoUpdate? && Stage(s, op.clock, op.context, op.change).Ok? {
      var stamped := StagedShape(s, op.clock, op.context, op.change);
    }
  }

  lemma StagedConfigIsValid(s: ConfigState, clock: Clock, x: UpdateContext, change: Change)
    requires ValidHistory(s) && AllValid(s.snapshots) && Stage(s, clock, x, change).Ok?
    ensures ValidConfig(Stage(s, clock, x, change).value.config)
  {
    var n := s.currentVersion.value;
    assert ValidConfig(s.snapshots[n]) by { PickValid(s.snapshots, n); }
    var c := StagedShape(s, clock, x, change);
    assert ValidConfig(c) by { ChangedConfigIsValid(s.snapshots[n], change, n + 1, clock.timestamp); }
  }

  // ----- the risk order -----

  ghost predicate NoRiskierThan(next: CurrentConfig, current: CurrentConfig) {
    && !ProtocolIncreasesRisk(current.protocol, next.protocol)
    && !RiskIncreasesRisk(current.risk, next.risk)
    && !InterestIncreasesRisk(current.interest, next.interest)
    && !OracleIncreasesRisk(current.oracle, next.oracle)
    && !GovernanceIncreasesRisk(current.governance, next.governance)
    && !ValidationIncreasesRisk(current.validation, next.validation)
  }

  /** A change a guardian may apply is exactly one that raises no risk, outside the governance section. */
  lemma ReducingIsNotIncreasing(current: CurrentConfig, change: Change)
    ensures change.GuardianMayApply(current) <==> !change.ToGovernance? && !change.IncreasesRisk(current)
  {
  }

  lemma NoRiskierIsPreorder(a: CurrentConfig, b: CurrentConfig, c: CurrentConfig)
    ensures NoRiskierThan(a, a)
    ensures NoRiskierThan(b, a) && NoRiskierThan(c, b) ==> NoRiskierThan(c, a)
  {
  }

  /** A governance call, not an emergency, that states a long enough delay and an expiry in the past. */
  predicate Timelocked(s: ConfigState, op: Op) {
    && op.DoUpdate? && s.governance.Some?
    && op.context.authority == Governance && !op.context.emergency
    && TimelockStated(op.clock, op.context, s.governance.value)
  }

  /** Whatever the change, what passes the checks without stating a timelock raises no risk in any section. */
  lemma UncheckedChangeIsNoRiskier(s: ConfigState, clock: Clock, x: UpdateContext, change: Change,
                                   current: CurrentConfig, version: u32)
    requires StageChecked(s, clock, x, change, current).Ok?
    requires x.authority == Guardian || x.emergency || !TimelockStated(clock, x, current.governance)
    ensures var next := change.Onto(current);
            NoRiskierThan(next.(protocol := Stamp(next.protocol, version, clock.timestamp)), current)
  {
    assert !change.IncreasesRisk(current);
    NoRiskierIsPreorder(current, current, current);
  }

  lemma UntimelockedUpdateIsNoRiskier(s: ConfigState, op: Op)
    requires ValidHistory(s) && s.access.Some? && !Timelocked(s, op)
    ensures ValidHistory(Next(s, op)) && Next(s, op).access.Some? && Extends(s, Next(s, op))
    ensures NoRiskierThan(GetCurrentConfig(Next(s, op)).value, GetCurrentConfig(s).value)
  {
    hide NoRiskierThan, ValidHistory;
    StepKeepsHistory(s, op);
    var current := GetCurrentConfig(s).value;
    NoRiskierIsPreorder(current, current, current);
    if op.DoUpdate? && Step(s, op).Ok? {
      var n := s.currentVersion.value;
      var stamped := StagedShape(s, op.clock, op.context, op.change);
      CommitKeepsHistory(s, MetadataFor(op.clock, op.context, n, n + 1, op.change.Section()), stamped);
      UncheckedChangeIsNoRiskier(s, op.clock, op.context, op.change, current, n + 1);
    }
  }

  ghost predicate NoTimelockedStep(s: ConfigState, ops: seq<Op>)
    decreases |ops|
  {
    ops == [] || (!Timelocked(s, ops[0]) && NoTimelockedStep(Next(s, ops[0]), ops[1..]))
  }

  /** Between two versions with no timelocked governance update in between, no monitored field has moved in the
      risk-increasing direction, whoever made the changes. */
  lemma {:induction false} RiskOnlyRisesThroughTimelock(s: ConfigState, ops: seq<Op>)
    requires ValidHistory(s) && s.access.Some? && NoTimelockedStep(s, ops)
    ensures var t := Run(s, ops);
            && ValidHistory(t) && Extends(s, t)
            && s.currentVersion.value in t.snapshots && t.currentVersion.value in t.snapshots
            && NoRiskierThan(t.snapshots[t.currentVersion.value], t.snapshots[s.currentVersion.value])
    decreases |ops|
  {
    var n := s.currentVersion.value;
    if ops == [] {
      NoRiskierIsPreorder(s.snapshots[n], s.snapshots[n], s.snapshots[n]);
    } else {
      var u, t := Next(s, ops[0]), Run(s, ops);
      UntimelockedUpdateIsNoRiskier(s, ops[0]);
      RiskOnlyRisesThroughTimelock(u, ops[1..]);
      NoRiskierIsPreorder(s.snapshots[n], u.snapshots[u.currentVersion.value], t.snapshots[t.currentVersion.value]);
    }
  }

  /** What a change must satisfy by itself; the protocol section is judged with its new stamp. */
  predicate Acceptable(s: ConfigState, clock: Clock, change: Change) {
    && s.currentVersion.Some? && s.currentVersion.value < U32_MAX
    && if change.ToProtocol?
       then ValidateProtocolConfig(Stamp(change.protocol, s.currentVersion.value + 1, clock.timestamp)).Ok?
       else change.Validate().Ok?
  }

  /**
   * The timelock delays nothing: whatever risk it raises, a valid change is accepted at once, at any ledger, from an
   * administrator who states the delay in force and an expiry of zero; and only valid changes are.
   */
  lemma ValidChangeNeedNotWait(s: ConfigState, clock: Clock, change: Change, reason: string)
    requires ValidHistory(s) && AllValid(s.snapshots) && s.access.Some? && reason != ""
    ensures s.governance.Some?
    ensures var x := UpdateContext(s.access.value.admin, Governance, reason, false,
                                   s.governance.value.timelockDelayLedgers, 0);
            Update(s, clock, x, change).Ok? <==> Acceptable(s, clock, change)
  {
    hide Stage, ValidHistory, Acceptable;
    SelfStatedTimelockPasses(s, clock, change, reason);
    var x := UpdateContext(s.access.value.admin, Governance, reason, false, s.governance.value.timelockDelayLedgers, 0);
    if Stage(s, clock, x, change).Ok? {
      CommitNeverFailsAfterWrite(s, clock, x, change);
    }
  }

  lemma SelfStatedTimelockPasses(s: ConfigState, clock: Clock, change: Change, reason: string)
    requires ValidHistory(s) && AllValid(s.snapshots) && s.access.Some? && reason != ""
    ensures s.governance.Some?
    ensures var x := UpdateContext(s.access.value.admin, Governance, reason, false,
                                   s.governance.value.timelockDelayLedgers, 0);
            Stage(s, clock, x, change).Ok? <==> Acceptable(s, clock, change)
  {
    hide ValidateProtocolConfig, Change.Validate, Change.IncreasesRisk, Change.GuardianMayApply;
    PickValid(s.snapshots, s.currentVersion.value);
    var x := UpdateContext(s.access.value.admin, Governance, reason, false, s.governance.value.timelockDelayLedgers, 0);
    assert TimelockStated(clock, x, s.governance.value);
  }

  // ----- the engine over its storage -----

  class Engine {
    var access: Option<AccessControl>
    var currentVersion: Option<u32>
    var historyCount: u32
    var protocol: Option<ProtocolConfig>
    var risk: Option<RiskConfig>
    var interest: Option<InterestConfig>
    var oracle: Option<OracleConfig>
    var governance: Option<GovernanceConfig>
    var validation: Option<ValidationConfig>
    var snapshots: map<u32, CurrentConfig>
    var metadata: map<u32, Metadata>

    constructor ()
      ensures State() == Empty && ValidHistory(State())
    {
      access, currentVersion, historyCount := None, None, 0;
      protocol, risk, interest, oracle, governance, validation := None, None, None, None, None, None;
      snapshots, metadata := map[], map[];
    }

    function State(): ConfigState
      reads this
    {
      ConfigState(access, currentVersion, historyCount, protocol, risk, interest, oracle, governance, validation,
                  snapshots, metadata)
    }

    /** Snapshot, metadata, version and count are written one after the other; on error nothing is. */
    method Commit(m: Metadata, config: CurrentConfig) returns (r: Result<()>)
      modifies this
      ensures Commits(CommitVersion(old(State()), m, config), r, old(State()), State())
    {
      if m.configVersion <= currentVersion.GetOr(0) { return Err(InvalidIndex); }
      if historyCount + 1 > U32_MAX { return Err(MathOverflow); }
      snapshots := snapshots[m.configVersion := config];
      metadata := metadata[m.configVersion := m];
      currentVersion := Some(m.configVersion);
      historyCount := historyCount + 1;
      r := Ok(());
    }

    method InitializeDefaultConfig(clock: Clock, admin: string, guardian: string, reason: string)
      returns (r: Result<()>)
      requires ValidHistory(State())
      modifies this
      ensures Commits(Initialize(old(State()), clock, admin, guardian, reason), r, old(State()), State())
    {
      if access.Some? { return Err(AlreadyInitialized); }
      if reason == "" { return Err(InvalidAmount); }
      if admin == clock.contract { return Err(InvalidAdmin); }
      if guardian == clock.contract { return Err(InvalidGuardian); }
      var config := DefaultConfig(clock.timestamp);
      access := Some(AccessControl(admin, guardian, clock.timestamp));
      protocol := Some(config.protocol);
      risk := Some(config.risk);
      interest := Some(config.interest);
      oracle := Some(config.oracle);
      governance := Some(config.governance);
      validation := Some(config.validation);
      var x := UpdateContext(admin, Governance, reason, false, 0, 0);
      r := Commit(MetadataFor(clock, x, 0, INITIAL_CONFIG_VERSION, AllSections), config);
    }

    /** The protocol section: stamped first, so that the stamped value is what gets validated and compared. */
    method UpdateProtocolConfig(clock: Clock, x: UpdateContext, requested: ProtocolConfig) returns (r: Result<()>)
      requires ValidHistory(State())
      modifies this
      ensures Commits(Update(old(State()), clock, x, ToProtocol(requested)), r, old(State()), State())
    {
      var _ :- RequireAuthority(State(), x);
      var current :- GetCurrentConfig(State());
      var version :- NextConfigVersion(State());
      var next := Stamp(requested, version, clock.timestamp);
      var _ :- ValidateProtocolConfig(next);
      var _ :- ValidateGuardianReduction(x, ProtocolReducesRisk(current.protocol, next));
      var _ :- ValidateGovernanceConstraints(clock, x, current.governance,
                                             ProtocolIncreasesRisk(current.protocol, next));
      current := current.(protocol := next);
      protocol := Some(next);
      r := Commit(MetadataFor(clock, x, version - 1, version, ProtocolSection), current);
    }

    /** The five other sections share one shape: validate, check authority over the direction, stamp, write, commit. */
    method UpdateSection(clock: Clock, x: UpdateContext, change: Change) returns (r: Result<()>)
      requires ValidHistory(State()) && !change.ToProtocol?
      modifies this
      ensures Commits(Update(old(State()), clock, x, change), r, old(State()), State())
    {
      hide Change.Validate, Change.GuardianMayApply, Change.IncreasesRisk, RequireAuthority;
      hide ValidateGuardianReduction, ValidateGovernanceConstraints;
      var _ :- RequireAuthority(State(), x);
      var _ :- change.Validate();
      var current :- GetCurrentConfig(State());
      var _ :- ValidateGuardianReduction(x, change.GuardianMayApply(current));
      var _ :- ValidateGovernanceConstraints(clock, x, current.governance, change.IncreasesRisk(current));
      var version :- NextConfigVersion(State());
      current := current.(protocol := Stamp(current.protocol, version, clock.timestamp));
      protocol := Some(current.protocol);
      WriteSection(change, current);
      r := Commit(MetadataFor(clock, x, version - 1, version, change.Section()), change.Onto(current));
    }

    method WriteSection(change: Change, ghost current: CurrentConfig)
      requires GetCurrentConfig(State()) == Ok(current) && !change.ToProtocol?
      modifies this
      ensures State() == WriteLatest(old(State()), change.Onto(current))
    {
      match change {
        case ToRisk(c) => risk := Some(c);
        case ToInterest(c) => interest := Some(c);
        case ToOracle(c) => oracle := Some(c);
        case ToGovernance(c) => governance := Some(c);
        case ToValidation(c) => validation := Some(c);
      }
    }
  }
}
