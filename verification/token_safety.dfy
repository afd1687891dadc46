/** Token safety validation and the liquidity lock, as applied by the token
    factory before a token is minted (core/src/tokens/token_factory.ts). */
module TokenSafety {
  import opened Wrappers

  /** The declared risk tier. `Other` stands for any string outside the three
      named tiers: the type annotation rules it out, the runtime does not, and
      the validator has a branch for it. */
  datatype RiskTier = Safe | Moderate | High | Other

  predicate KnownTier(t: RiskTier) { t != Other }

  datatype SafetyConfig = SafetyConfig(
    maxWalletPercentage: real,
    lockupPeriod: real,
    vestingSchedule: Option<seq<real>>,
    riskTier: RiskTier)

  // ---------------------------------------------------------------------------
  // Tier rules

  /** The per-tier rule table. The wallet cap computed from `totalSupply` in
      the source is never used, so the verdict ignores the supply. */
  function ValidateTokenSafety(config: SafetyConfig, totalSupply: real): (ok: bool)
    ensures config.riskTier == Safe ==>
      (ok <==> config.maxWalletPercentage <= 5.0 && config.lockupPeriod >= 180.0)
    ensures config.riskTier == Moderate ==>
      (ok <==> config.maxWalletPercentage <= 10.0 && config.lockupPeriod >= 90.0)
    ensures config.riskTier == High ==> (ok <==> config.maxWalletPercentage <= 25.0)
    ensures ok ==> KnownTier(config.riskTier)
  {
    match config.riskTier
    case Safe => config.maxWalletPercentage <= 5.0 && config.lockupPeriod >= 180.0
    case Moderate => config.maxWalletPercentage <= 10.0 && config.lockupPeriod >= 90.0
    case High => config.maxWalletPercentage <= 25.0
    case Other => false
  }

  /** The verdict is the same for every total supply. */
  lemma ValidationIgnoresSupply(config: SafetyConfig, supply1: real, supply2: real)
    ensures ValidateTokenSafety(config, supply1) == ValidateTokenSafety(config, supply2)
  {
  }

  /** The tiers are nested: a configuration that passes as `safe` passes as
      `moderate`, and one that passes as `moderate` passes as `high`. */
  lemma {:induction false} TierRulesNest(config: SafetyConfig, supply: real)
    ensures config.riskTier == Safe && ValidateTokenSafety(config, supply) ==>
      ValidateTokenSafety(config.(riskTier := Moderate), supply)
    ensures config.riskTier == Moderate && ValidateTokenSafety(config, supply) ==>
      ValidateTokenSafety(config.(riskTier := High), supply)
  {
  }

  /** Tightening a configuration never makes it fail: a smaller wallet cap and
      a longer lockup pass whenever the original passed. */
  lemma ValidationMonotone(config: SafetyConfig, maxWallet: real, lockup: real, supply: real)
    requires maxWallet <= config.maxWalletPercentage
    requires lockup >= config.lockupPeriod
    ensures ValidateTokenSafety(config, supply) ==>
      ValidateTokenSafety(config.(maxWalletPercentage := maxWallet, lockupPeriod := lockup), supply)
  {
  }

  // ---------------------------------------------------------------------------
  // Liquidity lock

  /** The share of supply a tier must lock: 70%, 50% or 30%. */
  function Multiplier(t: RiskTier): (m: real)
    requires KnownTier(t)
    ensures 0.0 < m < 1.0
  {
    match t
    case Safe => 0.7
    case Moderate => 0.5
    case High => 0.3
  }

  /** `calculateLiquidityLock`: supply times the tier multiplier. For a tier
      outside the table the multiplier is `undefined` and the product is NaN,
      modelled as `None`. */
  function CalculateLiquidityLock(totalSupply: real, config: SafetyConfig): (lock: Option<real>)
    ensures lock.Some? <==> KnownTier(config.riskTier)
    ensures lock.Some? && totalSupply >= 0.0 ==> 0.0 <= lock.value <= totalSupply
    ensures lock.Some? && totalSupply > 0.0 ==> lock.value < totalSupply
  {
    if KnownTier(config.riskTier) then Some(totalSupply * Multiplier(config.riskTier)) else None
  }

  /** A larger supply never needs a smaller lock. */
  lemma LiquidityLockMonotone(supply1: real, supply2: real, config: SafetyConfig)
    requires KnownTier(config.riskTier)
    requires supply1 <= supply2
    ensures CalculateLiquidityLock(supply1, config).value <= CalculateLiquidityLock(supply2, config).value
  {
  }

  /** Safer tiers lock more: safe ≥ moderate ≥ high for a non-negative supply. */
  lemma LiquidityLockOrderedByTier(supply: real, config: SafetyConfig)
    requires supply >= 0.0
    ensures CalculateLiquidityLock(supply, config.(riskTier := Safe)).value
      >= CalculateLiquidityLock(supply, config.(riskTier := Moderate)).value
      >= CalculateLiquidityLock(supply, config.(riskTier := High)).value
  {
  }

  // ---------------------------------------------------------------------------
  // Metadata schema

  /** `EnhancedTokenMetadataSchema`: the only fields it constrains are those
      of the safety configuration. */
  predicate SchemaAccepts(config: SafetyConfig) {
    && 1.0 <= config.maxWalletPercentage <= 100.0
    && config.lockupPeriod >= 0.0
    && KnownTier(config.riskTier)
  }

  /** The configurations that pass both the tier rules and the schema, and
      so reach the ledger: a wallet cap of at least 1 percent and at most the
      tier's cap, and a lockup of at least the tier's minimum. */
  lemma AdmittedConfigurations(c: SafetyConfig, supply: real)
    ensures ValidateTokenSafety(c, supply) && SchemaAccepts(c) <==>
      match c.riskTier
      case Safe => 1.0 <= c.maxWalletPercentage <= 5.0 && c.lockupPeriod >= 180.0
      case Moderate => 1.0 <= c.maxWalletPercentage <= 10.0 && c.lockupPeriod >= 90.0
      case High => 1.0 <= c.maxWalletPercentage <= 25.0 && c.lockupPeriod >= 0.0
      case Other => false
  {
  }

  /** Passing the tier rules does not imply passing the schema: the rules set
      no lower bound on the wallet cap, the schema demands at least 1. */
  lemma ValidationDoesNotImplySchema()
    ensures var c := SafetyConfig(0.5, 0.0, None, High);
      ValidateTokenSafety(c, 1000.0) && !SchemaAccepts(c)
  {
  }

  // ---------------------------------------------------------------------------
  // Risk classification

  lemma RatioAbove(a: real, b: real, c: real)
    requires b != 0.0
    ensures b > 0.0 ==> (a / b > c <==> a > c * b)
  {
    if b > 0.0 {
      assert a == (a / b) * b;
      if a / b > c { assert (a / b) * b > c * b; }
      if a > c * b { assert (a / b) * b > c * b; }
    }
  }

  /** `classifyTokenRisk`: the locked/supply ratio decides the tier, with
      strict thresholds. A zero supply divides to +Infinity for a positive
      lock (so `safe`) and to NaN or -Infinity otherwise (so `high`). */
  function ClassifyTokenRisk(totalSupply: real, marketCap: real, liquidityLocked: real): (t: RiskTier)
    ensures KnownTier(t)
    ensures totalSupply > 0.0 ==>
      && (t == Safe <==> liquidityLocked > 0.7 * totalSupply)
      && (t == Moderate <==> 0.5 * totalSupply < liquidityLocked <= 0.7 * totalSupply)
      && (t == High <==> liquidityLocked <= 0.5 * totalSupply)
    ensures totalSupply == 0.0 ==> (t == Safe <==> liquidityLocked > 0.0) && (t == High <==> liquidityLocked <= 0.0)
  {
    if totalSupply == 0.0 then
      (if liquidityLocked > 0.0 then Safe else High)
    else
      var ratio := liquidityLocked / totalSupply;
      RatioAbove(liquidityLocked, totalSupply, 0.7);
      RatioAbove(liquidityLocked, totalSupply, 0.5);
      if ratio > 0.7 then Safe
      else if ratio > 0.5 then Moderate
      else High
  }

  /** A token that locks exactly what its tier requires is classified one
      tier riskier for `safe` and `moderate`: the lock rule uses the same
      ratios as the classifier's strict thresholds. */
  lemma ClassifyRequiredLock(supply: real, marketCap: real, config: SafetyConfig)
    requires supply > 0.0
    ensures ClassifyTokenRisk(supply, marketCap,
      CalculateLiquidityLock(supply, config.(riskTier := Safe)).value) == Moderate
    ensures ClassifyTokenRisk(supply, marketCap,
      CalculateLiquidityLock(supply, config.(riskTier := Moderate)).value) == High
    ensures ClassifyTokenRisk(supply, marketCap,
      CalculateLiquidityLock(supply, config.(riskTier := High)).value) == High
  {
  }

  // ---------------------------------------------------------------------------
  // Token creation

  datatype TokenMetadata = TokenMetadata(
    symbol: string,
    name: string,
    description: string,
    totalSupply: real,
    decimals: real,
    creator: string,
    createdAt: int,
    safetyConfig: SafetyConfig)

  datatype CreateError = UnsafeToken | InvalidMetadata | NotCompliant | SubmissionFailed

  /** What the factory hands to the ledger: the metadata memo carries the
      compliance hash, the safety memo carries the computed lock. */
  datatype MintRequest = MintRequest(metadata: TokenMetadata, complianceHash: string, lockedLiquidity: real)

  /** `submitted` is the mint transaction sent to the ledger, if any;
      `result` is the returned transaction hash or the raised error. */
  datatype CreateOutcome = CreateOutcome(submitted: Option<MintRequest>, result: Result<string, CreateError>)

  /** `createToken`. The compliance verdict, the compliance hash and the
      ledger's reply (`Some(hash)`, or `None` when submission throws) are
      inputs. Checks run in source order: tier rules, lock, schema,
      compliance, then submission. */
  function CreateToken(meta: TokenMetadata, compliant: bool, complianceHash: string,
                       ledgerReply: Option<string>): (out: CreateOutcome)
    ensures !ValidateTokenSafety(meta.safetyConfig, meta.totalSupply) ==>
      out == CreateOutcome(None, Err(UnsafeToken))
    ensures ValidateTokenSafety(meta.safetyConfig, meta.totalSupply) && !SchemaAccepts(meta.safetyConfig) ==>
      out == CreateOutcome(None, Err(InvalidMetadata))
    ensures out.submitted.Some? <==>
      ValidateTokenSafety(meta.safetyConfig, meta.totalSupply) && SchemaAccepts(meta.safetyConfig) && compliant
    ensures out.submitted.Some? ==>
      && out.submitted.value.metadata == meta
      && out.submitted.value.lockedLiquidity == meta.totalSupply * Multiplier(meta.safetyConfig.riskTier)
    ensures out.result.Ok? <==> out.submitted.Some? && ledgerReply.Some?
    ensures out.result.Ok? ==> out.result.value == ledgerReply.value
  {
    if !ValidateTokenSafety(meta.safetyConfig, meta.totalSupply) then
      CreateOutcome(None, Err(UnsafeToken))
    else
      var lock := CalculateLiquidityLock(meta.totalSupply, meta.safetyConfig).value;
      if !SchemaAccepts(meta.safetyConfig) then CreateOutcome(None, Err(InvalidMetadata))
      else if !compliant then CreateOutcome(None, Err(NotCompliant))
      else
        var request := MintRequest(meta, complianceHash, lock);
        match ledgerReply
        case Some(hash) => CreateOutcome(Some(request), Ok(hash))
        case None => CreateOutcome(Some(request), Err(SubmissionFailed))
  }
}
