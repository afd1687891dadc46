# EON XRP business rules in Dafny

This project models the in-memory business rules of the EON XRP creator
platform. Around them sit XRP Ledger calls, HTTP and Firebase, which the
model leaves out. Each stateful TypeScript or Python class becomes an
immutable state record, such as a fee ledger, an order book, a project pool
or a member registry. Each of its methods becomes a pure transition
function. The contracts say what the result means and what stays unchanged.

The modules follow the source files:

| module | source file | what it covers |
|---|---|---|
| `TokenSafety` | core/src/tokens/token_factory.ts | per-tier safety rules, liquidity lock, metadata schema bounds, risk classifier, check order of `createToken` |
| `Reputation` | core/src/reputation/creator_reputation.ts | four sub-scores, clamped total, tiers, per-creator tracker and badge |
| `CreatorRatings` | core/src/marketplace/creator_ratings.ts | weighted overall rating, append-only history, means, status buckets, warnings and suspensions |
| `FeeEngine` | core/src/tokenomics/fee_engine.ts | fee breakdown, transaction ledger and totals, newest-first history, partial fee updates |
| `FeeDistribution` | core/src/wallet/fee_distribution.ts | percentage split, XRP-to-drops rendering, all-or-error payout, partial config updates |
| `BetaExchange` | core/src/trading/beta_exchange.ts | token registry, order placement recorded with the fee engine, the matching pass, open orders, metrics |
| `ProjectPool` | core/src/collaborative/project_pool.ts | project lifecycle, contribution merging, contributor search, collective earnings |
| `Launchpad` | core/src/launchpad/creator_launchpad.ts | achievements, points and levels, recommendations, dashboard, leaderboard |
| `BrandMarketplace` | core/src/marketplace/brand_marketplace.ts | tier fees and features, reputation gate, subscriptions with an injected clock, page lookup |
| `XrpTrading` | core/src/trading/xrp_trading.ts | trade validation, the offer submitted, the status rule, fees, filled-trade history |
| `CommunityOnboarding` | scripts/community_onboarding.py | member registry, collaborator matching and ordering, contribution score, export |
| `Exceptions` | backend/src/core/exceptions.py | mapping each exception class to an HTTP status |

Three modules hold shared building blocks:

- `Wrappers` holds `Option` and `Result`.
- `Seqs` holds sums over sequences, `filter` and JavaScript `slice(0, n)`.
  It also holds a stable newest-first sort, like `Array.prototype.sort` with
  a `b - a` comparator.
- `OrderedMap` is an association list. It stands for a JavaScript `Map` or
  a Python `dict`: keys stay in insertion order, and `set` on a present key
  replaces the value in place.

Modelling choices:

- JavaScript numbers are modelled as `real`.
- Counts, points and millisecond timestamps are modelled as `int` or `nat`.
- Generated ids, the clock, hashes and the XRP Ledger's replies become
  parameters.
- A default argument becomes a named constant passed explicitly: a history
  of 50 in `getTransactionHistory` and `getTradeHistory`, a leaderboard of
  10 in `getCreatorLeaderboard`.

## Model

| member | source | states |
|---|---|---|
| TokenSafety.ValidateTokenSafety | core/src/tokens/token_factory.ts:62-85 | `safe` passes iff the wallet cap is ≤ 5 and the lockup is ≥ 180. `moderate` passes iff ≤ 10 and ≥ 90. `high` passes iff ≤ 25, whatever the lockup. No other tier string passes. |
| TokenSafety.ValidationIgnoresSupply | core/src/tokens/token_factory.ts:62-85 | The verdict is the same for every total supply, because the wallet cap computed from it is never used. |
| TokenSafety.TierRulesNest | core/src/tokens/token_factory.ts:70-83 | A configuration that passes as `safe` also passes as `moderate`. One that passes as `moderate` also passes as `high`. |
| TokenSafety.ValidationMonotone | core/src/tokens/token_factory.ts:70-83 | Lowering the wallet cap or lengthening the lockup never turns a pass into a failure. |
| TokenSafety.CalculateLiquidityLock | core/src/tokens/token_factory.ts:88-99 | The lock exists exactly for the three known tiers. For a non-negative supply it lies between 0 and the supply. For a positive supply it is strictly below the supply. |
| TokenSafety.LiquidityLockMonotone | core/src/tokens/token_factory.ts:88-99 | A larger supply never needs a smaller lock. |
| TokenSafety.LiquidityLockOrderedByTier | core/src/tokens/token_factory.ts:88-99 | For the same supply, `safe` locks at least as much as `moderate`, which locks at least as much as `high`. |
| TokenSafety.ValidationDoesNotImplySchema | core/src/tokens/token_factory.ts:103-110 | A wallet cap of 0.5 passes the tier rules but fails the schema, which demands a cap in [1, 100]. |
| TokenSafety.AdmittedConfigurations | core/src/tokens/token_factory.ts:62-110 | A configuration passes both the tier rules and the metadata schema iff its wallet cap lies between 1 and the tier's cap, and its lockup is at least the tier's minimum (0 for `high`). An unknown tier never passes. |
| TokenSafety.ClassifyTokenRisk | core/src/tokens/token_factory.ts:321-331 | For a positive supply the result is `safe` iff locked > 0.7·supply. It is `moderate` iff 0.5·supply < locked ≤ 0.7·supply, and `high` iff locked ≤ 0.5·supply. For a zero supply the JavaScript ratio is +Infinity for a positive lock, giving `safe`, and NaN or −Infinity otherwise, giving `high`. The result is always one of the three known tiers. |
| TokenSafety.ClassifyRequiredLock | core/src/tokens/token_factory.ts:321-331 | A token locking exactly what `safe` requires is classified `moderate`. One locking exactly what `moderate` requires is classified `high`. |
| TokenSafety.CreateToken | core/src/tokens/token_factory.ts:177-256 | A failed tier check ends the call with nothing submitted. It does so before the schema is consulted. A schema failure also submits nothing. Something is submitted iff all checks pass and the token is compliant. The submitted lock is supply × the tier multiplier. The call succeeds iff the ledger returns a hash, and returns that hash. |
| Reputation.LiquidityScore | core/src/reputation/creator_reputation.ts:41-44 | The liquidity sub-score is at most 30, and non-negative for a non-negative lock. It is exactly 30 iff the whole supply is locked. |
| Reputation.SafetyComplianceScore | core/src/reputation/creator_reputation.ts:76-99 | The safety sub-score lies in [0, 25]. It is 25 exactly for a `safe` tier with at least 180 days of lockup. A lockup under 90 days caps it at 20. |
| Reputation.SafetyScoreMonotoneInLockup | core/src/reputation/creator_reputation.ts:76-99 | A longer lockup never lowers the safety sub-score. |
| Reputation.CommunityScore | core/src/reputation/creator_reputation.ts:102-109 | No ratings give 0, and every result is at most 20. For ratings in [1, 5] the score is at least 4, and score × count = 4 × the sum of the ratings. |
| Reputation.CalculateReputationScore | core/src/reputation/creator_reputation.ts:23-63 | The score always lies in [0, 100]. For in-range inputs the clamp never bites: the score is the sum of the four sub-scores, and at most 90. |
| Reputation.JsReputationScore | core/src/reputation/creator_reputation.ts:23-63 | The score with JavaScript division. For a positive supply it equals the real-valued score. It is NaN iff both the supply and the lock are 0. Otherwise it is a finite number in [0, 100]: an infinite ratio from a zero supply is absorbed by the clamps. |
| Reputation.ScoreMonotoneInTransparency | core/src/reputation/creator_reputation.ts:53-62 | Raising the transparency level, other inputs fixed, never lowers the score. |
| Reputation.ScoreMonotoneInLiquidity | core/src/reputation/creator_reputation.ts:41-62 | Locking more liquidity, other inputs fixed, never lowers the score. |
| Reputation.MaximumScore | core/src/reputation/creator_reputation.ts:23-63 | The best in-range inputs give exactly 90, not 100. |
| Reputation.GetReputationTier | core/src/reputation/creator_reputation.ts:66-73 | Each tier holds exactly its inclusive range: BRONZE [0,25], SILVER [26,50], GOLD [51,75], PLATINUM [76,100]. |
| Reputation.WholeScoresAreRanked | core/src/reputation/creator_reputation.ts:15-20 | Every whole score from 0 to 100 gets a real tier. |
| Reputation.GapScoresAreUnranked | core/src/reputation/creator_reputation.ts:15-20 | Scores in the gaps, such as 25.5, 50.2 and 75.9, are UNRANKED. |
| Reputation.TierMonotone | core/src/reputation/creator_reputation.ts:66-73 | Among ranked scores, a higher score never gets a lower tier. |
| Reputation.UpdateCreatorReputation | core/src/reputation/creator_reputation.ts:141-147 | Only that creator's entry is set. Its new score lies in [0, 100], and scores already in range stay in range. |
| Reputation.UpdateIsolated | core/src/reputation/creator_reputation.ts:141-147 | Updating one creator never changes the reputation read for another. |
| Reputation.GetCreatorReputation | core/src/reputation/creator_reputation.ts:150-152 | An unknown creator reads 0. A known creator reads the stored score. |
| Reputation.GenerateCreatorBadge | core/src/reputation/creator_reputation.ts:155-160 | There is no badge iff the reputation is ≤ 0. Otherwise the badge is the tier name, `_`, and the opaque suffix. |
| Reputation.BadgeAbsentIffZero | core/src/reputation/creator_reputation.ts:155-160 | With stored scores in range, the badge is absent exactly when the reputation is 0. |
| CreatorRatings.OverallRatingIsWeightedMean | core/src/marketplace/creator_ratings.ts:37-57 | The weighted overall rating lies between the lowest and the highest of the four stars. Four equal stars give that star back. |
| CreatorRatings.RateCreator | core/src/marketplace/creator_ratings.ts:9-34 | The call appends exactly one entry and keeps the earlier ones. A new creator starts with 0 warnings and 0 suspensions. Existing counters and every other creator are unchanged. |
| CreatorRatings.CalculateAverageRatings | core/src/marketplace/creator_ratings.ts:77-115 | Each average times the number of entries equals that field's sum. An empty history gives all zeros. |
| CreatorRatings.AveragesInRange | core/src/marketplace/creator_ratings.ts:77-115 | Averages of stars in [1, 5] stay in [1, 5]. |
| CreatorRatings.AverageOverallIsOverallOfAverages | core/src/marketplace/creator_ratings.ts:77-115 | The mean overall rating is the weighted overall rating of the mean stars. |
| CreatorRatings.DetermineRatingStatus | core/src/marketplace/creator_ratings.ts:118-125 | Each status holds exactly its band: ≥4.5 top rated, [4,4.5) highly trusted, [3.5,4) trusted, [3,3.5) standard, [2.5,3) caution, below 2.5 high risk. |
| CreatorRatings.StatusMonotone | core/src/marketplace/creator_ratings.ts:118-125 | A higher overall rating never earns a worse status. |
| CreatorRatings.GetCreatorRating | core/src/marketplace/creator_ratings.ts:60-74 | The result is none iff the creator has no record. Otherwise it carries the averages, the counters and the status of the average overall rating. |
| CreatorRatings.FivesAndOnesAverageToStandard | core/src/marketplace/creator_ratings.ts:94-125 | A rating of all fives followed by one of all ones averages to 3 in every field, which is `standard`. |
| CreatorRatings.SuspendCreator | core/src/marketplace/creator_ratings.ts:141-146 | A known creator gets exactly one more suspension. Nothing else changes. |
| CreatorRatings.AddWarning | core/src/marketplace/creator_ratings.ts:128-138 | An unknown creator is a no-op. Otherwise the warnings go up by one, and the suspensions go up by one iff the new warning count is ≥ 3. Every other creator is unchanged. |
| CreatorRatings.RatingAndWarningNeverLowerCounters | core/src/marketplace/creator_ratings.ts:128-146 | Neither rating nor warning removes a creator or lowers any creator's counters. |
| CreatorRatings.ReachablePreserved | core/src/marketplace/creator_ratings.ts:128-146 | In every reachable state, suspensions = max(warnings − 2, 0) and every record has a rating. |
| CreatorRatings.ThirdAndFourthWarnings | core/src/marketplace/creator_ratings.ts:131-136 | The third warning suspends once, and a fourth suspends again. |
| CreatorRatings.WarningUnknownCreatesNothing | core/src/marketplace/creator_ratings.ts:128-138 | Warning an unknown creator creates no record, so no profile appears. |
| FeeEngine.CalculateTokenCreationFee | core/src/tokenomics/fee_engine.ts:32-34 | With the default structure the creation fee is 5. |
| FeeEngine.CreationFeeFollowsAdjust | core/src/tokenomics/fee_engine.ts:32-34 | The creation fee is whatever the structure currently holds: after an adjustment it is the patch's fee if one was given and the old fee otherwise, and recording a transaction leaves it unchanged. |
| FeeEngine.CalculateTradingFees | core/src/tokenomics/fee_engine.ts:36-52 | The total fee is the amount × the percentage / 100. The platform and community parts are fractions of that fee, not of the amount. |
| FeeEngine.SharesWithinFee | core/src/tokenomics/fee_engine.ts:36-52 | With non-negative shares summing to at most 1, platform + community lies between 0 and the total fee. |
| FeeEngine.DefaultSharesLeaveHalf | core/src/tokenomics/fee_engine.ts:23-28 | With the defaults the fee is 0.5% of the amount, and half of it goes to neither share. |
| FeeEngine.FeesAdditive | core/src/tokenomics/fee_engine.ts:36-52 | Fees are linear in the amount: splitting a trade in two leaves every part unchanged. |
| FeeEngine.RecordTokenTransaction | core/src/tokenomics/fee_engine.ts:54-73 | The call appends exactly one record, carrying the computed fees. Earlier records and the fee structure are unchanged. |
| FeeEngine.RecordRaisesTotals | core/src/tokenomics/fee_engine.ts:75-87 | Recording raises each total by exactly the new record's share. |
| FeeEngine.TotalsFromLedger | core/src/tokenomics/fee_engine.ts:75-87 | Both totals are 0 for an empty ledger. Neither is negative while no record carries a negative share. |
| FeeEngine.RevenueIsShareOfVolume | core/src/tokenomics/fee_engine.ts:75-87 | On a ledger recorded under one fee structure, revenue × 100 = the total amount × the fee percentage × the platform share. |
| FeeEngine.RecordingHundredAndTwoHundred | core/src/tokenomics/fee_engine.ts:75-87 | With the defaults, recording 100 and then 200 gives revenue 0.45 and a community pool of 0.3. |
| FeeEngine.GetTransactionHistory | core/src/tokenomics/fee_engine.ts:89-95 | The ledger is sorted in place: it comes back as a permutation of itself, newest first, and records with the same timestamp keep their previous order. The result is the first min(limit, size) records of that order. The totals are unchanged. |
| FeeEngine.DefaultHistoryCoversSmallLedger | core/src/tokenomics/fee_engine.ts:89-95 | Without a limit the history holds min(50, size) records. A ledger of at most 50 records comes back whole, reordered. |
| FeeEngine.RecordThenLatest | core/src/tokenomics/fee_engine.ts:89-95 | A record stamped later than every earlier one is what `history(1)` returns next. |
| FeeEngine.SameMillisecondHidesNewest | core/src/tokenomics/fee_engine.ts:89-95 | Two records in the same millisecond: `history(1)` returns the older one. |
| FeeEngine.AdjustFeeStructure | core/src/tokenomics/fee_engine.ts:97-102 | Given fields replace the current ones and omitted fields are kept. Recorded transactions are untouched. |
| FeeEngine.AdjustIdempotent | core/src/tokenomics/fee_engine.ts:97-102 | An empty patch changes nothing. Applying a patch twice equals applying it once. |
| FeeEngine.AdjustKeepsTotals | core/src/tokenomics/fee_engine.ts:97-102 | Changing the fees never alters the totals already earned. |
| FeeDistribution.Split | core/src/wallet/fee_distribution.ts:50-54 | Each share × 100 = the total × its percentage. |
| FeeDistribution.SplitConserves | core/src/wallet/fee_distribution.ts:50-54 | When the percentages sum to 100, the shares sum exactly to the total. |
| FeeDistribution.ManagerSplitsThousand | core/src/wallet/fee_distribution.ts:143-151 | The exported manager splits 1000 into 500/300/200, and both default configurations sum to 100. |
| FeeDistribution.ToFixed0 | core/src/wallet/fee_distribution.ts:111-113 | The sign is kept, including a minus for a negative value that rounds to 0. The magnitude is within half a unit of the value's, rounded half up. |
| FeeDistribution.WholeDropsRoundTrip | core/src/wallet/fee_distribution.ts:111-113 | An amount that is a whole number of drops converts to exactly that number, in decimal. |
| FeeDistribution.ConvertToDropsNearest | core/src/wallet/fee_distribution.ts:111-113 | The drop count is within half a drop of amount × 1,000,000. |
| FeeDistribution.ConvertToDropsReadsBack | core/src/wallet/fee_distribution.ts:111-113 | The string starts with a minus sign exactly when the amount is negative, and holds only digits after it. Read back as a signed integer, it is within half a drop of amount × 1,000,000. |
| FeeDistribution.TinyNegativePrintsMinusZero | core/src/wallet/fee_distribution.ts:111-113 | −0.0000001 XRP converts to "-0". |
| FeeDistribution.DestinationsFollowEnvironment | core/src/wallet/fee_distribution.ts:116-124 | Set, non-empty variables become the destinations of the creator, developer and community payments, in that order. Unset variables give the three placeholder addresses, and an empty variable acts as an unset one. |
| FeeDistribution.DistributeFees | core/src/wallet/fee_distribution.ts:48-70 | Three payments are issued from the signer, to the creator, developer and community destinations, none of them empty. The result is the split iff all three legs settle, and otherwise the one generic error. |
| FeeDistribution.FailureHidesLeg | core/src/wallet/fee_distribution.ts:73-81 | Any two failing combinations of legs give the same payout and the same error. |
| FeeDistribution.PlatformWalletUnused | core/src/wallet/fee_distribution.ts:84-108 | The configured platform wallet has no effect on a payout. |
| FeeDistribution.RoundedLegsOverpay | core/src/wallet/fee_distribution.ts:84-108 | Three drops split 50/30/20 are paid as 2 + 1 + 1 = 4 drops. |
| FeeDistribution.UpdateDistributionConfig | core/src/wallet/fee_distribution.ts:127-130 | Given fields replace the current ones; omitted fields are kept. |
| FeeDistribution.UpdateCanBreakSplits | core/src/wallet/fee_distribution.ts:127-130 | A one-field update can leave the percentages summing to something other than 100. |
| FeeDistribution.UpdateIdempotent | core/src/wallet/fee_distribution.ts:127-130 | An empty patch changes nothing. Applying a patch twice equals applying it once. |
| BetaExchange.CreateToken | core/src/trading/beta_exchange.ts:26-45 | The token is stored under its symbol and replaces any earlier token with that symbol. Every other symbol, the book and the fee ledger are unchanged. |
| BetaExchange.PlaceTradeOrder | core/src/trading/beta_exchange.ts:47-78 | The call is rejected iff the symbol is not registered, and then nothing changes. Otherwise one `open` order is appended, and one fee record of amount × price goes to the fee engine. The order and the fee record each take their own clock reading. |
| BetaExchange.MatchTradeOrders | core/src/trading/beta_exchange.ts:80-98 | The loop computes `Matched`: each open buy is filled together with the first open sell for the same token priced at or below it. Sides are taken from the book at the start of the pass. |
| BetaExchange.MatchExchange | core/src/trading/beta_exchange.ts:80-98 | Matching changes only the order book. |
| BetaExchange.MatchedChangesStatusOnly | core/src/trading/beta_exchange.ts:80-98 | Every order is either unchanged or goes from open to filled, with nothing else about it changed. |
| BetaExchange.MatchedBuyIff | core/src/trading/beta_exchange.ts:80-98 | An open buy is filled iff some open sell for the same token is priced at or below it. |
| BetaExchange.MatchIdempotent | core/src/trading/beta_exchange.ts:80-98 | A second pass straight after the first changes nothing. |
| BetaExchange.OneSellFillsTwoBuys | core/src/trading/beta_exchange.ts:82-96 | One resting sell fills two crossing buys in one pass. |
| BetaExchange.CreateTokenListingOrder | core/src/trading/beta_exchange.ts:26-45 | Listing a new symbol appends its token to the end of the `getTokens` list. Listing a symbol already present replaces that token where it stood, and every other position is unchanged. |
| BetaExchange.GetOpenOrders | core/src/trading/beta_exchange.ts:104-109 | An order is listed iff it is in the book and open, and for the symbol when one is given. |
| BetaExchange.GetTradingMetrics | core/src/trading/beta_exchange.ts:111-125 | The volume is Σ amount × price over the relevant orders. The open count is at most the number of relevant orders. `uniqueTokens` is the number of registered symbols. |
| BetaExchange.MetricsCountOpenOrders | core/src/trading/beta_exchange.ts:104-125 | The metrics' open count equals the length of `getOpenOrders` for the same symbol. |
| BetaExchange.InitialValid | core/src/trading/beta_exchange.ts:22-24 | The empty exchange satisfies the invariant: distinct symbols, and a fee record at each order's position. |
| BetaExchange.CreateTokenPreservesValid | core/src/trading/beta_exchange.ts:26-45 | Listing a token keeps the invariant. |
| BetaExchange.PlaceTradeOrderPreservesValid | core/src/trading/beta_exchange.ts:47-78 | Placing an order keeps each order paired with its fee record. |
| BetaExchange.MatchPreservesValid | core/src/trading/beta_exchange.ts:80-98 | Matching keeps the invariant. |
| BetaExchange.VolumeMatchesFeeLedger | core/src/trading/beta_exchange.ts:111-125 | The whole-book volume equals the total amount on the fee engine's ledger. |
| ProjectPool.CreateProject | core/src/collaborative/project_pool.ts:31-52 | A `draft` project is stored under the given id, with the single initial contributor and funding equal to that contribution. Other ids are unchanged. |
| ProjectPool.Merge | core/src/collaborative/project_pool.ts:63-74 | A returning wallet has its amount raised in place. A new wallet is appended. |
| ProjectPool.Funded | core/src/collaborative/project_pool.ts:63-80 | Funding rises by the amount. The status becomes `in_progress` iff the goal is reached, and `funding` otherwise. |
| ProjectPool.ContributeToProject | core/src/collaborative/project_pool.ts:54-83 | The call succeeds iff the project exists and is `funding`. On failure nothing changes. On success only that project changes. |
| ProjectPool.LaunchProject | core/src/collaborative/project_pool.ts:85-99 | The call succeeds iff the project exists and is `in_progress`. It then becomes `launched` with the details. Otherwise nothing changes. |
| ProjectPool.GetProjectsByType | core/src/collaborative/project_pool.ts:101-104 | A project is listed iff it is in the pool and of the type. |
| ProjectPool.FindProjectContributors | core/src/collaborative/project_pool.ts:106-120 | A contributor is listed iff they share a wanted skill and belong to a project of the given type, or of any type when none is given. |
| ProjectPool.CalculateCollectiveEarnings | core/src/collaborative/project_pool.ts:122-138 | With no launched project, every wallet has earned 0. |
| ProjectPool.LaunchCreditsContributors | core/src/collaborative/project_pool.ts:122-138 | Launching adds exactly 1.5 × the wallet's stake in that project to its earnings, or nothing if it has no stake. |
| ProjectPool.MergeKeepsProjectValid | core/src/collaborative/project_pool.ts:63-74 | Merging keeps the funding equal to the sum of contributions and keeps the wallets distinct. |
| ProjectPool.CreateKeepsPoolValid | core/src/collaborative/project_pool.ts:31-52 | Creating a project keeps every project's books balanced. |
| ProjectPool.ContributeKeepsPoolValid | core/src/collaborative/project_pool.ts:54-83 | Contributing keeps every project's books balanced. |
| ProjectPool.LaunchKeepsPoolValid | core/src/collaborative/project_pool.ts:85-99 | Launching keeps every project's books balanced. |
| ProjectPool.CreateKeepsAllDraft | core/src/collaborative/project_pool.ts:31-52 | Creating keeps every project in `draft`. Nothing else ever sets another status. |
| ProjectPool.DraftsRejectEverything | core/src/collaborative/project_pool.ts:54-99 | In a pool of drafts, every contribution and every launch fails and changes nothing, and nobody has earned anything. |
| Launchpad.TitlesIdentifyAchievements | core/src/launchpad/creator_launchpad.ts:8-34 | Two achievements share a title iff they are the same achievement. |
| Launchpad.CalculateLevel | core/src/launchpad/creator_launchpad.ts:71-73 | The level is at least 1, and (level − 1) × 100 ≤ points < level × 100. |
| Launchpad.LevelUnique | core/src/launchpad/creator_launchpad.ts:71-73 | Only one level meets those bounds, so the bounds define the level. |
| Launchpad.LevelMonotone | core/src/launchpad/creator_launchpad.ts:71-73 | More points never give a lower level. |
| Launchpad.Award | core/src/launchpad/creator_launchpad.ts:56-65 | A title already held changes nothing. Otherwise one achievement is appended, the points rise by its value, and the level is recomputed. |
| Launchpad.TrackAchievement | core/src/launchpad/creator_launchpad.ts:40-68 | The creator's profile, or a new 0-point level-1 one, receives the award. Every other creator is unchanged. |
| Launchpad.NewProfileValid | core/src/launchpad/creator_launchpad.ts:46-54 | A new profile starts consistent, with 0 points, level 1 and no achievements. |
| Launchpad.AwardKeepsValid | core/src/launchpad/creator_launchpad.ts:56-65 | Titles stay distinct, the points stay the sum of the achievements' points, and the level stays derived from them. Points and level never drop. |
| Launchpad.AwardIdempotent | core/src/launchpad/creator_launchpad.ts:56-65 | Awarding the same achievement again changes nothing. |
| Launchpad.TrackTwiceIsOnce | core/src/launchpad/creator_launchpad.ts:40-68 | Tracking the same achievement twice equals tracking it once. |
| Launchpad.TrackKeepsAllValid | core/src/launchpad/creator_launchpad.ts:40-68 | Tracking keeps every stored profile consistent. |
| Launchpad.AllFiveAchievements | core/src/launchpad/creator_launchpad.ts:8-34 | All five achievements give 465 points and level 5. |
| Launchpad.Recommendations | core/src/launchpad/creator_launchpad.ts:106-122 | The two token and brand-page items appear iff level ≤ 2. The badge item appears iff there are fewer than 3 achievements. The list always ends with the same two items. |
| Launchpad.GenerateCreatorDashboard | core/src/launchpad/creator_launchpad.ts:76-103 | `NEW_CREATOR` with the three fixed steps comes back iff there is no profile. Otherwise the result is the profile view, the rating, the first brand page if any, and the recommendations. |
| Launchpad.DashboardAsWrittenAlwaysThrows | core/src/launchpad/creator_launchpad.ts:78-79 | As written, every call throws. The corrected version answers an unknown creator with `NEW_CREATOR`. |
| Launchpad.GenerateCreatorDashboardAsWritten | core/src/launchpad/creator_launchpad.ts:76-80 | As written, every call fails, whatever the creator and the profiles. |
| Launchpad.TopProfiles | core/src/launchpad/creator_launchpad.ts:125-135 | The result is the first min(limit, size) profiles of the whole registry sorted by points, highest first. Profiles with equal points keep their registration order. |
| Launchpad.GetCreatorLeaderboard | core/src/launchpad/creator_launchpad.ts:125-135 | Entry i shows the i-th profile of the registry sorted by points, highest first, with its latest achievement. The board has min(limit, size) entries. |
| Launchpad.LeaderHeadsBoard | core/src/launchpad/creator_launchpad.ts:125-135 | A new creator out-scoring everyone heads the board. |
| Launchpad.DefaultBoardCoversFewCreators | core/src/launchpad/creator_launchpad.ts:125-135 | Without a limit the board has min(10, creators) entries. With at most 10 creators, every creator is on it. |
| BrandMarketplace.HigherTiersCostMore | core/src/marketplace/brand_marketplace.ts:26-60 | A higher tier costs more per month and lists more features. |
| BrandMarketplace.Subscribe | core/src/marketplace/brand_marketplace.ts:109-123 | The creator's subscription becomes the tier, expiring 2,592,000,000 ms from now. Every other creator and every page are unchanged. |
| BrandMarketplace.IsSubscriptionActive | core/src/marketplace/brand_marketplace.ts:137-140 | A subscription is active iff one exists and its expiry is strictly after now. |
| BrandMarketplace.GetSubscriptionTier | core/src/marketplace/brand_marketplace.ts:143-146 | The result is none iff the creator has no subscription. |
| BrandMarketplace.SubscriptionLastsThirtyDays | core/src/marketplace/brand_marketplace.ts:119-140 | A new subscription reports its tier and is active exactly until thirty days after it was taken. |
| BrandMarketplace.RenewalReplacesTier | core/src/marketplace/brand_marketplace.ts:109-123 | Subscribing again replaces the tier outright, even with a lower one. |
| BrandMarketplace.CreateBrandPage | core/src/marketplace/brand_marketplace.ts:70-106 | The call is rejected iff the tier is premium below 50 or enterprise below 75. A rejection stores nothing. Otherwise the page is stored under its id, other pages are unchanged, and the creator is subscribed. |
| BrandMarketplace.GateMonotone | core/src/marketplace/brand_marketplace.ts:89-95 | Basic is never gated, and a creator accepted for a tier stays accepted with a higher reputation. |
| BrandMarketplace.GateBoundaries | core/src/marketplace/brand_marketplace.ts:89-95 | A reputation of exactly 50 opens premium but not enterprise. Exactly 75 opens enterprise. |
| BrandMarketplace.PlaceholderReputation | core/src/marketplace/brand_marketplace.ts:76-87 | The reputation formula, with JavaScript division, applied to the placeholder metrics (0 locked out of a supply of 0) gives NaN. |
| BrandMarketplace.CreateBrandPageAsWritten | core/src/marketplace/brand_marketplace.ts:76-106 | As written, every request succeeds for every tier, and the page is stored under its id. |
| BrandMarketplace.PlaceholderGateNeverRejects | core/src/marketplace/brand_marketplace.ts:76-95 | As written, every tier is accepted, including enterprise for a creator the intended gate rejects. |
| BrandMarketplace.GetBrandPage | core/src/marketplace/brand_marketplace.ts:126-128 | A page is found iff its id is stored. |
| BrandMarketplace.GetCreatorBrandPages | core/src/marketplace/brand_marketplace.ts:131-134 | As written, a page is listed iff its id begins with the creator's address. |
| BrandMarketplace.UuidPagesNeverListed | core/src/marketplace/brand_marketplace.ts:131-134 | With UUID page ids and an `r…` address, the list is always empty. |
| BrandMarketplace.GetCreatorBrandPagesByOwner | core/src/marketplace/brand_marketplace.ts:131-134 | Corrected listing: a page is listed iff it is stored and the creator made it. |
| BrandMarketplace.CreatedPageIsListed | core/src/marketplace/brand_marketplace.ts:97-105 | A page the creator made appears among their pages. |
| XrpTrading.PlaceTrade | core/src/trading/xrp_trading.ts:25-74 | Nothing is submitted iff amount ≤ 0 or price ≤ 0, and then the invalid-trade error comes back. The call succeeds iff the ledger answers. The order is then appended, `filled` iff the result is `tesSUCCESS` and `open` otherwise. A throw leaves the book unchanged. |
| XrpTrading.SellSubmitsCancel | core/src/trading/xrp_trading.ts:49-60 | A buy submits OfferCreate and a sell submits OfferCancel. |
| XrpTrading.PlaceTradeKeepsBookValid | core/src/trading/xrp_trading.ts:25-74 | Every order in the book has a positive amount and price and is never `cancelled`. |
| XrpTrading.CalculateTradingFees | core/src/trading/xrp_trading.ts:97-113 | The network fee is 0.000012. The platform fee is 0.5% of amount × price. The total is their sum. |
| XrpTrading.FeesAgreeWithFeeEngine | core/src/trading/xrp_trading.ts:97-113 | The platform fee equals the fee engine's default total fee on the same value, and the network fee is "12" drops. |
| XrpTrading.GetTradeHistory | core/src/trading/xrp_trading.ts:115-120 | The history is the first min(limit, filled count) of the book's filled trades sorted newest first. Filled trades with the same timestamp keep their book order. |
| XrpTrading.DefaultHistoryCoversFewTrades | core/src/trading/xrp_trading.ts:115-120 | Without a limit the history holds min(50, filled count) trades. With at most 50 filled trades, every one is listed. |
| XrpTrading.AcceptedTradeLeadsHistory | core/src/trading/xrp_trading.ts:115-120 | A `tesSUCCESS` trade later than all others heads the history. |
| XrpTrading.RejectedTradeNotInHistory | core/src/trading/xrp_trading.ts:115-120 | A trade with any other engine result leaves the history unchanged. |
| CommunityOnboarding.AddMember | scripts/community_onboarding.py:33-59 | The call is rejected iff the wallet is registered, and then nothing changes. Otherwise the member is stored under its wallet, with score 0, and the registry grows by one. |
| CommunityOnboarding.NewCommunity | scripts/community_onboarding.py:17-31 | The founding leader is the first and only member, with the fixed skills and interests. |
| CommunityOnboarding.JoinOnce | scripts/community_onboarding.py:47-59 | A new wallet joins and adds one member. A second join by the same wallet is rejected. |
| CommunityOnboarding.AddKeepsWalletsDistinct | scripts/community_onboarding.py:47-58 | Registered wallets stay distinct. |
| CommunityOnboarding.AddMemberAsWrittenNeverAdds | scripts/community_onboarding.py:55 | As written, every add fails, so the leader cannot be registered by the constructor. The corrected add succeeds. |
| CommunityOnboarding.AddMemberAsWritten | scripts/community_onboarding.py:47-58 | As written, every call fails: with the duplicate error iff the wallet is registered, and with the undefined-name error otherwise. |
| CommunityOnboarding.MatchPotentialCollaborators | scripts/community_onboarding.py:61-83 | A member is listed iff they share a skill or an interest with the project. The list is a permutation of those members, in non-increasing skill overlap, and members with equal overlap keep their registration order. |
| CommunityOnboarding.SharedSkillsRankFirst | scripts/community_onboarding.py:73-83 | A member shares a skill iff their overlap is positive, so skill matches precede interest-only matches. |
| CommunityOnboarding.CalculateContributionScore | scripts/community_onboarding.py:85-100 | An unknown wallet scores 0. A member scores 0.5 per listed skill plus 0.3 per listed interest. |
| CommunityOnboarding.ScoreZeroIff | scripts/community_onboarding.py:85-100 | The score is never negative. It is 0 iff the wallet is unknown or the member lists nothing. |
| CommunityOnboarding.LeaderScore | scripts/community_onboarding.py:23-31 | The founding leader scores 2.4. |
| CommunityOnboarding.ExportCommunityData | scripts/community_onboarding.py:102-115 | The export counts the registered wallets, names the leader, and lists every member in order. |
| Exceptions.HttpExceptionHandler | backend/src/core/exceptions.py:19-40 | The status is 404 iff user-not-found. It is 401 iff invalid credentials and not the former. It is 400 iff transaction and neither of the former. It is 500 otherwise. |
| Exceptions.DetailFollowsStatus | backend/src/core/exceptions.py:19-40 | The status is one of the four, and each status has its own detail text. |
| Exceptions.BaseClassIsInternal | backend/src/core/exceptions.py:36-40 | A foreign exception and the bare base class both map to 500. |
| Exceptions.FirstCheckWins | backend/src/core/exceptions.py:21-35 | An exception of two specific classes gets the status of the one checked first. |
| Seqs.SortDescStable | core/src/tokenomics/fee_engine.ts:89-95 | Sorting by a key, highest first, keeps the elements that share a key in their original order, as `Array.prototype.sort` does. |

## Left out

- XRP Ledger I/O is not modelled, because it is network access. This covers signing, submitting and querying, and `Client`/`Wallet`. The ledger's answer to each submission is a parameter: a hash, an engine result, or a throw. Left out with it:
  - `getTokenDetails`, `transferTokens`, `getTokenBalance` and `checkWalletDistribution` in token_factory.ts;
  - `getOrderBook` in xrp_trading.ts.
- `createToken` in token_factory.ts: memo building, event emission, timing and logging are left out. The compliance verdict and the compliance hash are parameters, because the hash digests the wall clock.
- `generateReputationBadge`: the SHA-256 suffix is an opaque parameter.
- `performFeeTransfers`: the `Promise.all` fan-out is modelled as three independent leg outcomes, with no interleavings. `transferFunds` is reduced to the payment it builds.
- `getDestinationWallet`: the three environment variables are parameters.
- Logging, `performance.now()`, uuid generation and `Date.now()` are left out. Ids and times are parameters. Where one call reads the clock twice, as `placeTradeOrder` does, each reading is its own parameter.
- `export_community_data` and `initialize_eon_xrp_community` write files. Only the exported data is modelled.
- Floating point is not modelled. JavaScript and Python numbers are exact reals, so results such as 0.1 + 0.2 are exact in the model. The one explicit rounding, `toFixed(0)` in `convertToDrops`, is modelled.
- NaN and infinities are modelled only where a zero supply or an unknown tier produces them: the reputation score (`JsReputationScore`), the brand-marketplace gate built on it, the zero-supply branch of `ClassifyTokenRisk`, and an unknown risk tier in the liquidity lock.
- `toFixed` switches to exponential notation at or above 1e21. This is not modelled.
- An `undefined` value written explicitly into a partial update is not modelled. It would overwrite the field. A patch field is either given or omitted.
- Reputation.CalculateReputationScore: requires a positive total supply. The zero-supply case, where the ratio is NaN or infinite, is stated by `JsReputationScore` instead.
- BrandMarketplace.CreateBrandPage: takes the creator's reputation as a parameter. The code as written computes a placeholder score instead; see Findings.
- Launchpad.GenerateCreatorDashboard: the rating and the creator's brand pages are parameters, supplied by the rating system and the marketplace.
- BetaExchange.GetTradingMetrics: requires distinct symbols in the registry. A JavaScript `Map` always has distinct keys, and `Valid` keeps them distinct.
- CommunityOnboarding.ExportCommunityData: requires distinct wallets, as a Python `dict` always has them.
- ProjectPool.CalculateCollectiveEarnings: its own contract covers only the case with no launched project. How launching changes a wallet's earnings is stated by `LaunchCreditsContributors`.
- FeeDistribution.ConvertToDrops: its own contract says only that the string is non-empty. Its value is stated by `ConvertToDropsReadsBack`, `WholeDropsRoundTrip`, `ConvertToDropsNearest` and `TinyNegativePrintsMinusZero`.
- `placeTrade` marks the failed order `cancelled`. That order is never stored or returned, so the model leaves the write out.
- `project_pool.ts` stores the caller's contributor object and later raises its amount in place. That aliasing is not modelled; contributions are values.
- The beta exchange records fees into the module-wide fee engine, which other callers share. Here that engine is a field of the exchange, so `Valid` assumes the exchange is its only writer.
- The beta exchange looks up `calculateTokenCreationFee` when a token is listed but never charges it. The lookup has no effect and is not modelled.

Notes where the code and its documentation differ (the model follows the code):

- `addWarning` suspends again on every warning from the third on, not once when the count first reaches 3.
- The reputation tiers leave gaps between 25 and 26, 50 and 51, and 75 and 76. A score in a gap is UNRANKED.
- With in-range inputs the reputation score reaches at most 90, so the 100 cap never applies.
- A `safe` or `moderate` token that locks exactly the share its tier requires is classified one tier riskier. A `high` token locking exactly its 30% stays `high`.
- A sell in `placeTrade` submits an `OfferCancel`, not an offer.
- The configured `platformWallet` is never used by a payout.
- Per-leg rounding in a payout can send more drops than were collected.
- The distribution error does not say which leg failed.
- Nothing ever moves a project out of `draft`, so every contribution and every launch fails.
- History views order by millisecond timestamp. Records in the same millisecond keep insertion order, so the newest can be hidden.

## Findings

| source | as written | input that shows it | evidently intended | confidence | as-written member | corrected member |
|---|---|---|---|---|---|---|
| core/src/launchpad/creator_launchpad.ts:78-79 | `generateCreatorDashboard` calls `getCreatorRating` and `getCreatorBrandPages` on the classes, which have no such static methods, so every call throws a TypeError | any creator address, including one with no profile | look the rating and the pages up on the instances, then return `NEW_CREATOR` or the progress view | high, not executed | Launchpad.DashboardAsWrittenAlwaysThrows | Launchpad.GenerateCreatorDashboard |
| core/src/marketplace/brand_marketplace.ts:76-95 | the reputation is computed from placeholder metrics with `totalSupply: 0`; 0/0 is NaN (derived by `Reputation.JsReputationScore`), NaN survives the sums and clamps, and `NaN < 50` is false, so the gate never rejects | tier ENTERPRISE for a creator whose reputation is 0 | reject premium below 50 and enterprise below 75 of the creator's real reputation | high, not executed | BrandMarketplace.PlaceholderGateNeverRejects | BrandMarketplace.CreateBrandPage |
| core/src/marketplace/brand_marketplace.ts:131-134 | pages are found by checking that the page id starts with the creator address, but ids are UUIDs and addresses start with `r` | any `r…` address after that creator made a page | list the pages the creator made | high, not executed | BrandMarketplace.UuidPagesNeverListed | BrandMarketplace.CreatedPageIsListed |
| scripts/community_onboarding.py:55 | `datetime.now()` is used without importing `datetime`, so every new member raises NameError, and so does the constructor | constructing the engine with any leader wallet | stamp the join time and store the member | high, not executed | CommunityOnboarding.AddMemberAsWrittenNeverAdds | CommunityOnboarding.AddMember |
