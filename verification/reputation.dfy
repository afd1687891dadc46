/** Creator reputation: four bounded sub-scores summed and clamped to
    [0, 100], bucketed into tiers, and a per-creator score map
    (core/src/reputation/creator_reputation.ts). */
module Reputation {
  import opened Wrappers
  import opened Seqs
  import TokenSafety
  import opened JsNumbers

  datatype TokenMetrics = TokenMetrics(
    liquidityLocked: real,
    totalSupply: real,
    safetyConfig: TokenSafety.SafetyConfig,
    communityRatings: seq<real>,
    transparencyLevel: real)

  /** The ranges the inputs are documented to lie in. */
  predicate InDomain(m: TokenMetrics) {
    && m.totalSupply > 0.0
    && m.liquidityLocked >= 0.0
    && (forall i :: 0 <= i < |m.communityRatings| ==> 1.0 <= m.communityRatings[i] <= 5.0)
    && 0.0 <= m.transparencyLevel <= 1.0
  }

  function Id(x: real): real { x }

  // ---------------------------------------------------------------------------
  // Sub-scores

  /** Liquidity sub-score: the locked share of supply scaled to 30, capped at 30. */
  function LiquidityScore(liquidityLocked: real, totalSupply: real): (r: real)
    requires totalSupply > 0.0
    ensures r <= 30.0
    ensures liquidityLocked >= 0.0 ==> r >= 0.0
    ensures r == 30.0 <==> liquidityLocked >= totalSupply
  {
    var scaled := (liquidityLocked / totalSupply) * 30.0;
    assert scaled >= 30.0 <==> liquidityLocked >= totalSupply by {
      assert liquidityLocked == (liquidityLocked / totalSupply) * totalSupply;
    }
    assert liquidityLocked >= 0.0 ==> scaled >= 0.0;
    if scaled <= 30.0 then scaled else 30.0
  }

  /** Safety sub-score: tier base points (20, 15, 5; none for an unknown
      tier) plus a lockup bonus of 5 from 180 days or 3 from 90 days. */
  function SafetyComplianceScore(config: TokenSafety.SafetyConfig): (r: real)
    ensures 0.0 <= r <= 25.0
    ensures r == 25.0 <==> config.riskTier == TokenSafety.Safe && config.lockupPeriod >= 180.0
    ensures config.lockupPeriod < 90.0 ==> r <= 20.0
  {
    var base := match config.riskTier
      case Safe => 20.0
      case Moderate => 15.0
      case High => 5.0
      case Other => 0.0;
    var bonus := if config.lockupPeriod >= 180.0 then 5.0
      else if config.lockupPeriod >= 90.0 then 3.0
      else 0.0;
    base + bonus
  }

  /** A longer lockup never lowers the safety sub-score. */
  lemma SafetyScoreMonotoneInLockup(config: TokenSafety.SafetyConfig, lockup: real)
    requires lockup >= config.lockupPeriod
    ensures SafetyComplianceScore(config) <= SafetyComplianceScore(config.(lockupPeriod := lockup))
  {
  }

  /** Community sub-score: 0 without ratings, otherwise the mean rating
      scaled by 4 and capped at 20. */
  function CommunityScore(ratings: seq<real>): (r: real)
    ensures |ratings| == 0 ==> r == 0.0
    ensures r <= 20.0
    ensures |ratings| > 0 && (forall i :: 0 <= i < |ratings| ==> 1.0 <= ratings[i] <= 5.0) ==>
      4.0 <= r && r * (|ratings| as real) == 4.0 * SumOf(ratings, Id)
  {
    if |ratings| == 0 then 0.0
    else
      var n := |ratings| as real;
      var mean := SumOf(ratings, Id) / n;
      assert SumOf(ratings, Id) == mean * n;
      var inRange := forall i :: 0 <= i < |ratings| ==> 1.0 <= ratings[i] <= 5.0;
      assert inRange ==> 1.0 <= mean <= 5.0 by {
        if inRange {
          SumOfBounds(ratings, Id, 1.0, 5.0);
          MeanBounds(SumOf(ratings, Id), n, 1.0, 5.0);
        }
      }
      if mean * 4.0 <= 20.0 then mean * 4.0 else 20.0
  }

  lemma MeanBounds(sum: real, n: real, lo: real, hi: real)
    requires n > 0.0
    requires lo * n <= sum <= hi * n
    ensures lo <= sum / n <= hi
  {
    assert sum == (sum / n) * n;
    MulCancel(lo, sum / n, n);
    MulCancel(sum / n, hi, n);
  }

  /** Dividing both sides of `x·n ≤ y·n` by a positive `n`. */
  lemma MulCancel(x: real, y: real, n: real)
    requires n > 0.0
    requires x * n <= y * n
    ensures x <= y
  {
    assert (y - x) * n >= 0.0;
  }

  function TransparencyScore(level: real): real { level * 15.0 }

  function Clamp(x: real, lo: real, hi: real): real
    requires lo <= hi
  {
    if x < lo then lo else if x > hi then hi else x
  }

  /** The unclamped total of the four sub-scores. */
  function RawScore(m: TokenMetrics): real
    requires m.totalSupply > 0.0
  {
    LiquidityScore(m.liquidityLocked, m.totalSupply)
      + SafetyComplianceScore(m.safetyConfig)
      + CommunityScore(m.communityRatings)
      + TransparencyScore(m.transparencyLevel)
  }

  /** `calculateReputationScore` on real numbers, for a positive supply.
      `JsReputationScore` below covers every supply. Within the documented
      input ranges the clamp never bites and the score cannot exceed 90. */
  function CalculateReputationScore(m: TokenMetrics): (r: real)
    requires m.totalSupply > 0.0
    ensures 0.0 <= r <= 100.0
    ensures InDomain(m) ==> r == RawScore(m) && r <= 90.0
  {
    Clamp(RawScore(m), 0.0, 100.0)
  }

  /** `calculateReputationScore` as JavaScript evaluates it, for any supply.
      It agrees with the real-valued score for a positive supply. It is NaN
      exactly when nothing is locked out of a zero supply: 0/0 is NaN, and
      NaN passes through `* 30`, `Math.min`, the sum and the final clamp.
      Any other zero-supply ratio is infinite, which the clamps turn back
      into a number. */
  function JsReputationScore(m: TokenMetrics): (r: JsNumber)
    ensures m.totalSupply > 0.0 ==> r == Finite(CalculateReputationScore(m))
    ensures r.NaN? <==> m.totalSupply == 0.0 && m.liquidityLocked == 0.0
    ensures !r.NaN? ==> r.Finite? && 0.0 <= r.value <= 100.0
  {
    var liquidity := MinOf(Times(Div(m.liquidityLocked, m.totalSupply), 30.0), 30.0);
    var total := Plus(Plus(Plus(liquidity, SafetyComplianceScore(m.safetyConfig)),
                           CommunityScore(m.communityRatings)),
                      TransparencyScore(m.transparencyLevel));
    var r := MinOf(MaxOf(total, 0.0), 100.0);
    assert m.totalSupply > 0.0 ==> liquidity == Finite(LiquidityScore(m.liquidityLocked, m.totalSupply));
    r
  }

  /** Raising transparency, other inputs fixed, never lowers the score. */
  lemma ScoreMonotoneInTransparency(m: TokenMetrics, level: real)
    requires m.totalSupply > 0.0
    requires level >= m.transparencyLevel
    ensures CalculateReputationScore(m) <= CalculateReputationScore(m.(transparencyLevel := level))
  {
  }

  /** Locking more liquidity, other inputs fixed, never lowers the score. */
  lemma ScoreMonotoneInLiquidity(m: TokenMetrics, locked: real)
    requires m.totalSupply > 0.0
    requires locked >= m.liquidityLocked
    ensures CalculateReputationScore(m) <= CalculateReputationScore(m.(liquidityLocked := locked))
  {
    var a := m.liquidityLocked / m.totalSupply;
    var b := locked / m.totalSupply;
    assert m.liquidityLocked == a * m.totalSupply;
    assert locked == b * m.totalSupply;
    assert a * m.totalSupply <= b * m.totalSupply;
    MulCancel(a, b, m.totalSupply);
  }

  /** The best in-range inputs reach exactly 90. */
  lemma MaximumScore()
    ensures CalculateReputationScore(TokenMetrics(
      1000.0, 1000.0, TokenSafety.SafetyConfig(5.0, 180.0, None, TokenSafety.Safe), [5.0, 5.0], 1.0)) == 90.0
  {
    assert SumOf([5.0, 5.0], Id) == 10.0 by {
      assert [5.0, 5.0][..1] == [5.0];
      assert [5.0][..0] == [];
    }
  }

  // ---------------------------------------------------------------------------
  // Tiers

  datatype ReputationTier = Bronze | Silver | Gold | Platinum | Unranked

  function TierName(t: ReputationTier): string {
    match t
    case Bronze => "BRONZE"
    case Silver => "SILVER"
    case Gold => "GOLD"
    case Platinum => "PLATINUM"
    case Unranked => "UNRANKED"
  }

  /** `getReputationTier`: the first inclusive range holding the score. The
      ranges leave gaps between consecutive integers, so a fractional score
      just above 25, 50 or 75 falls in none of them. */
  function GetReputationTier(score: real): (t: ReputationTier)
    ensures t == Bronze <==> 0.0 <= score <= 25.0
    ensures t == Silver <==> 26.0 <= score <= 50.0
    ensures t == Gold <==> 51.0 <= score <= 75.0
    ensures t == Platinum <==> 76.0 <= score <= 100.0
  {
    if 0.0 <= score <= 25.0 then Bronze
    else if 26.0 <= score <= 50.0 then Silver
    else if 51.0 <= score <= 75.0 then Gold
    else if 76.0 <= score <= 100.0 then Platinum
    else Unranked
  }

  function TierRank(t: ReputationTier): int {
    match t
    case Unranked => -1
    case Bronze => 0
    case Silver => 1
    case Gold => 2
    case Platinum => 3
  }

  /** Every whole-number score in [0, 100] gets a real tier. */
  lemma WholeScoresAreRanked(score: int)
    requires 0 <= score <= 100
    ensures GetReputationTier(score as real) != Unranked
  {
  }

  /** Fractional scores in a gap are unranked. */
  lemma GapScoresAreUnranked()
    ensures GetReputationTier(25.5) == Unranked
    ensures GetReputationTier(50.2) == Unranked
    ensures GetReputationTier(75.9) == Unranked
  {
  }

  /** Among ranked scores, a higher score never gets a lower tier. */
  lemma TierMonotone(s1: real, s2: real)
    requires s1 <= s2
    requires GetReputationTier(s1) != Unranked && GetReputationTier(s2) != Unranked
    ensures TierRank(GetReputationTier(s1)) <= TierRank(GetReputationTier(s2))
  {
  }

  // ---------------------------------------------------------------------------
  // Tracker

  /** The tracker's score per creator address. */
  type Tracker = map<string, real>

  predicate ScoresInRange(t: Tracker) {
    forall c :: c in t ==> 0.0 <= t[c] <= 100.0
  }

  /** `updateCreatorReputation`: stores the freshly computed score. */
  function UpdateCreatorReputation(t: Tracker, creator: string, m: TokenMetrics): (t': Tracker)
    requires m.totalSupply > 0.0
    ensures t'.Keys == t.Keys + {creator}
    ensures forall c :: c in t && c != creator ==> t'[c] == t[c]
    ensures 0.0 <= t'[creator] <= 100.0
    ensures ScoresInRange(t) ==> ScoresInRange(t')
  {
    t[creator := CalculateReputationScore(m)]
  }

  /** `getCreatorReputation`: 0 for a creator never scored. */
  function GetCreatorReputation(t: Tracker, creator: string): (r: real)
    ensures creator !in t ==> r == 0.0
    ensures creator in t ==> r == t[creator]
  {
    if creator in t then t[creator] else 0.0
  }

  /** `generateCreatorBadge`: `TIER_suffix` for a positive reputation, else
      none. The suffix stands for the truncated, time-salted hash. */
  function GenerateCreatorBadge(t: Tracker, creator: string, suffix: string): (badge: Option<string>)
    ensures badge.None? <==> GetCreatorReputation(t, creator) <= 0.0
    ensures badge.Some? ==>
      badge.value == TierName(GetReputationTier(GetCreatorReputation(t, creator))) + "_" + suffix
  {
    var reputation := GetCreatorReputation(t, creator);
    if reputation > 0.0 then Some(TierName(GetReputationTier(reputation)) + "_" + suffix) else None
  }

  /** With scores kept in range, a creator has no badge exactly when their
      reputation is 0. */
  lemma BadgeAbsentIffZero(t: Tracker, creator: string, suffix: string)
    requires ScoresInRange(t)
    ensures GenerateCreatorBadge(t, creator, suffix).None? <==> GetCreatorReputation(t, creator) == 0.0
  {
  }

  /** Updating one creator leaves every other creator's reputation alone. */
  lemma UpdateIsolated(t: Tracker, creator: string, other: string, m: TokenMetrics)
    requires m.totalSupply > 0.0
    requires other != creator
    ensures GetCreatorReputation(UpdateCreatorReputation(t, creator, m), other) == GetCreatorReputation(t, other)
  {
  }
}
