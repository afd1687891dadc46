/** The platform fee engine: creation fee, per-trade fee breakdown, an
    append-only fee ledger whose totals are recomputed from it, a history
    view, and partial updates of the fee structure
    (core/src/tokenomics/fee_engine.ts). */
module FeeEngine {
  import opened Wrappers
  import opened Seqs

  datatype FeeStructure = FeeStructure(
    tokenCreationFee: real,
    tradingFeePercent: real,
    platformRevenueShare: real,
    communityRewardPool: real)

  /** 5 XRP to create a token, 0.5% per trade, 30% of each fee to the
      platform and 20% to community rewards. */
  const DefaultFeeStructure := FeeStructure(5.0, 0.5, 0.3, 0.2)

  datatype FeeBreakdown = FeeBreakdown(platformFee: real, communityReward: real, totalFee: real)

  /** One recorded transaction; `id` and `timestamp` are supplied by the caller. */
  datatype TokenTransaction = TokenTransaction(
    id: string,
    tokenSymbol: string,
    amount: real,
    platformFee: real,
    communityReward: real,
    timestamp: int)

  datatype Engine = Engine(fees: FeeStructure, ledger: seq<TokenTransaction>)

  const InitialEngine := Engine(DefaultFeeStructure, [])

  /** `calculateTokenCreationFee`: the creation fee of the current structure. */
  function CalculateTokenCreationFee(e: Engine): (fee: real)
    ensures e.fees == DefaultFeeStructure ==> fee == 5.0
  {
    e.fees.tokenCreationFee
  }

  // ---------------------------------------------------------------------------
  // Fees

  /** `calculateTradingFees`: the fee is a percentage of the amount; the
      platform and community parts are fractions of the fee, not of the amount. */
  function CalculateTradingFees(fs: FeeStructure, amount: real): (b: FeeBreakdown)
    ensures b.totalFee * 100.0 == amount * fs.tradingFeePercent
    ensures b.platformFee == b.totalFee * fs.platformRevenueShare
    ensures b.communityReward == b.totalFee * fs.communityRewardPool
  {
    var totalFee := amount * (fs.tradingFeePercent / 100.0);
    FeeBreakdown(totalFee * fs.platformRevenueShare, totalFee * fs.communityRewardPool, totalFee)
  }

  /** With non-negative shares summing to at most one, the platform and
      community parts never exceed the fee they are taken from. */
  lemma SharesWithinFee(fs: FeeStructure, amount: real)
    requires amount >= 0.0 && fs.tradingFeePercent >= 0.0
    requires fs.platformRevenueShare >= 0.0 && fs.communityRewardPool >= 0.0
    requires fs.platformRevenueShare + fs.communityRewardPool <= 1.0
    ensures var b := CalculateTradingFees(fs, amount);
      0.0 <= b.platformFee + b.communityReward <= b.totalFee
  {
    var b := CalculateTradingFees(fs, amount);
    assert b.totalFee >= 0.0 by {
      assert b.totalFee * 100.0 >= 0.0;
    }
    assert b.platformFee + b.communityReward == b.totalFee * (fs.platformRevenueShare + fs.communityRewardPool);
    assert b.totalFee * (fs.platformRevenueShare + fs.communityRewardPool) <= b.totalFee * 1.0;
  }

  /** The default structure keeps exactly half of every fee unallocated. */
  lemma DefaultSharesLeaveHalf(amount: real)
    ensures var b := CalculateTradingFees(DefaultFeeStructure, amount);
      b.platformFee + b.communityReward == b.totalFee * 0.5 && b.totalFee == amount * 0.005
  {
  }

  /** Fees are linear in the amount: splitting a trade in two changes nothing. */
  lemma FeesAdditive(fs: FeeStructure, a1: real, a2: real)
    ensures var b1 := CalculateTradingFees(fs, a1);
            var b2 := CalculateTradingFees(fs, a2);
            var b := CalculateTradingFees(fs, a1 + a2);
      && b.totalFee == b1.totalFee + b2.totalFee
      && b.platformFee == b1.platformFee + b2.platformFee
      && b.communityReward == b1.communityReward + b2.communityReward
  {
    var t1 := CalculateTradingFees(fs, a1).totalFee;
    var t2 := CalculateTradingFees(fs, a2).totalFee;
    var t := CalculateTradingFees(fs, a1 + a2).totalFee;
    assert t == t1 + t2;
    assert t * fs.platformRevenueShare == t1 * fs.platformRevenueShare + t2 * fs.platformRevenueShare;
    assert t * fs.communityRewardPool == t1 * fs.communityRewardPool + t2 * fs.communityRewardPool;
  }

  // ---------------------------------------------------------------------------
  // Ledger

  /** `recordTokenTransaction`: appends one record carrying the current fees. */
  function RecordTokenTransaction(e: Engine, tokenSymbol: string, amount: real, id: string,
                                  timestamp: int): (res: (Engine, TokenTransaction))
    ensures res.0.fees == e.fees
    ensures res.0.ledger == e.ledger + [res.1]
    ensures res.1.tokenSymbol == tokenSymbol && res.1.amount == amount
    ensures res.1.id == id && res.1.timestamp == timestamp
    ensures res.1.platformFee == CalculateTradingFees(e.fees, amount).platformFee
    ensures res.1.communityReward == CalculateTradingFees(e.fees, amount).communityReward
  {
    var b := CalculateTradingFees(e.fees, amount);
    var tx := TokenTransaction(id, tokenSymbol, amount, b.platformFee, b.communityReward, timestamp);
    (e.(ledger := e.ledger + [tx]), tx)
  }

  function PlatformFeeOf(tx: TokenTransaction): real { tx.platformFee }
  function CommunityRewardOf(tx: TokenTransaction): real { tx.communityReward }
  function AmountOf(tx: TokenTransaction): real { tx.amount }
  function TimestampOf(tx: TokenTransaction): int { tx.timestamp }

  /** `getTotalPlatformRevenue`: recomputed from the ledger. */
  function GetTotalPlatformRevenue(e: Engine): real { SumOf(e.ledger, PlatformFeeOf) }

  /** `getCommunityRewardPoolTotal`: recomputed from the ledger. */
  function GetCommunityRewardPoolTotal(e: Engine): real { SumOf(e.ledger, CommunityRewardOf) }

  /** Both totals are zero for an empty ledger, and neither is negative while
      no record carries a negative share. */
  lemma TotalsFromLedger(e: Engine)
    ensures e.ledger == [] ==> GetTotalPlatformRevenue(e) == 0.0 && GetCommunityRewardPoolTotal(e) == 0.0
    ensures (forall i :: 0 <= i < |e.ledger| ==> e.ledger[i].platformFee >= 0.0) ==>
      GetTotalPlatformRevenue(e) >= 0.0
    ensures (forall i :: 0 <= i < |e.ledger| ==> e.ledger[i].communityReward >= 0.0) ==>
      GetCommunityRewardPoolTotal(e) >= 0.0
  {
    SumOfNonNegative(e.ledger, PlatformFeeOf);
    SumOfNonNegative(e.ledger, CommunityRewardOf);
  }

  /** Recording a transaction raises each total by exactly that record's share. */
  lemma RecordRaisesTotals(e: Engine, tokenSymbol: string, amount: real, id: string, timestamp: int)
    ensures var (e', tx) := RecordTokenTransaction(e, tokenSymbol, amount, id, timestamp);
      && GetTotalPlatformRevenue(e') == GetTotalPlatformRevenue(e) + tx.platformFee
      && GetCommunityRewardPoolTotal(e') == GetCommunityRewardPoolTotal(e) + tx.communityReward
  {
    var (e', tx) := RecordTokenTransaction(e, tokenSymbol, amount, id, timestamp);
    SumOfAppend(e.ledger, tx, PlatformFeeOf);
    SumOfAppend(e.ledger, tx, CommunityRewardOf);
  }

  /** The platform's revenue is its share of the fee on the ledger's total amount. */
  predicate LedgerFollows(e: Engine) {
    forall i :: 0 <= i < |e.ledger| ==>
      e.ledger[i].platformFee == CalculateTradingFees(e.fees, e.ledger[i].amount).platformFee
  }

  lemma {:induction false} RevenueIsShareOfVolume(fs: FeeStructure, ledger: seq<TokenTransaction>)
    requires LedgerFollows(Engine(fs, ledger))
    ensures GetTotalPlatformRevenue(Engine(fs, ledger)) * 100.0 ==
      SumOf(ledger, AmountOf) * fs.tradingFeePercent * fs.platformRevenueShare
    decreases |ledger|
  {
    if |ledger| > 0 {
      var init := ledger[..|ledger| - 1];
      var last := ledger[|ledger| - 1];
      assert forall i :: 0 <= i < |init| ==> init[i] == ledger[i];
      RevenueIsShareOfVolume(fs, init);
      var b := CalculateTradingFees(fs, last.amount);
      assert last.platformFee * 100.0 == last.amount * fs.tradingFeePercent * fs.platformRevenueShare by {
        assert b.platformFee * 100.0 == (b.totalFee * 100.0) * fs.platformRevenueShare;
      }
    }
  }

  /** With the default fees, recording 100 and then 200 yields platform
      revenue 0.45 and a community pool of 0.3. */
  lemma RecordingHundredAndTwoHundred()
    ensures var (e1, _) := RecordTokenTransaction(InitialEngine, "EON", 100.0, "t1", 1);
            var (e2, _) := RecordTokenTransaction(e1, "EON", 200.0, "t2", 2);
      GetTotalPlatformRevenue(e2) == 0.45 && GetCommunityRewardPoolTotal(e2) == 0.3
  {
    var (e1, tx1) := RecordTokenTransaction(InitialEngine, "EON", 100.0, "t1", 1);
    var (e2, tx2) := RecordTokenTransaction(e1, "EON", 200.0, "t2", 2);
    assert e2.ledger == [tx1, tx2];
    SumOfPair(tx1, tx2, PlatformFeeOf);
    SumOfPair(tx1, tx2, CommunityRewardOf);
  }

  // ---------------------------------------------------------------------------
  // History

  /** The limit `getTransactionHistory` uses when called without one. */
  const DefaultHistoryLimit := 50

  /** `getTransactionHistory`: sorts the ledger in place, newest first (the
      sort is stable), and returns its first `limit` records. The engine
      comes back with the re-ordered ledger. */
  function GetTransactionHistory(e: Engine, limit: int): (res: (Engine, seq<TokenTransaction>))
    ensures res.0.fees == e.fees
    ensures multiset(res.0.ledger) == multiset(e.ledger)
    ensures SortedDesc(res.0.ledger, TimestampOf)
    ensures forall v :: Filter(res.0.ledger, KeyIs(TimestampOf, v)) == Filter(e.ledger, KeyIs(TimestampOf, v))
    ensures |res.1| <= |res.0.ledger| && res.1 == res.0.ledger[..|res.1|]
    ensures limit >= 0 ==> |res.1| == Min(limit, |e.ledger|)
    ensures GetTotalPlatformRevenue(res.0) == GetTotalPlatformRevenue(e)
    ensures GetCommunityRewardPoolTotal(res.0) == GetCommunityRewardPoolTotal(e)
  {
    var sorted := SortDesc(e.ledger, TimestampOf);
    SumOfSortDesc(e.ledger, TimestampOf, PlatformFeeOf);
    SumOfSortDesc(e.ledger, TimestampOf, CommunityRewardOf);
    forall v ensures Filter(sorted, KeyIs(TimestampOf, v)) == Filter(e.ledger, KeyIs(TimestampOf, v)) {
      SortDescStable(e.ledger, TimestampOf, v);
    }
    (e.(ledger := sorted), SliceTo(sorted, limit))
  }

  /** Called without a limit, the history lists the whole ledger while it
      holds at most 50 records, and exactly 50 of them beyond that. */
  lemma DefaultHistoryCoversSmallLedger(e: Engine)
    ensures var h := GetTransactionHistory(e, DefaultHistoryLimit).1;
      |h| == Min(50, |e.ledger|) && (|e.ledger| <= 50 ==> multiset(h) == multiset(e.ledger))
  {
    var (e', h) := GetTransactionHistory(e, DefaultHistoryLimit);
    if |e.ledger| <= 50 {
      assert h == e'.ledger;
    }
  }

  /** A record stamped later than everything before it is what `history(1)`
      returns right after it is recorded. */
  lemma RecordThenLatest(e: Engine, tokenSymbol: string, amount: real, id: string, timestamp: int)
    requires forall i :: 0 <= i < |e.ledger| ==> e.ledger[i].timestamp < timestamp
    ensures var (e', tx) := RecordTokenTransaction(e, tokenSymbol, amount, id, timestamp);
      GetTransactionHistory(e', 1).1 == [tx]
  {
    var (e', tx) := RecordTokenTransaction(e, tokenSymbol, amount, id, timestamp);
    SortDescNewestFirst(e.ledger, tx, TimestampOf);
  }

  /** With equal timestamps the stable sort keeps the earlier record first,
      so `history(1)` does not return the record just made. */
  lemma SameMillisecondHidesNewest()
    ensures var (e1, tx1) := RecordTokenTransaction(InitialEngine, "EON", 100.0, "t1", 7);
            var (e2, tx2) := RecordTokenTransaction(e1, "EON", 200.0, "t2", 7);
      GetTransactionHistory(e2, 1).1 == [tx1] && tx1 != tx2
  {
    var (e1, tx1) := RecordTokenTransaction(InitialEngine, "EON", 100.0, "t1", 7);
    var (e2, tx2) := RecordTokenTransaction(e1, "EON", 200.0, "t2", 7);
    assert e2.ledger == [tx1, tx2];
    assert [tx1, tx2][1..] == [tx2];
    assert SortDesc([tx2], TimestampOf) == [tx2] by {
      assert [tx2][1..] == [];
    }
  }

  // ---------------------------------------------------------------------------
  // Fee structure updates

  /** A partial fee structure: `None` marks a field left out of the update. */
  datatype FeePatch = FeePatch(
    tokenCreationFee: Option<real>,
    tradingFeePercent: Option<real>,
    platformRevenueShare: Option<real>,
    communityRewardPool: Option<real>)

  /** `adjustFeeStructure`: fields given in the patch replace the current
      ones, omitted fields are kept, recorded transactions are untouched. */
  function AdjustFeeStructure(e: Engine, patch: FeePatch): (e': Engine)
    ensures e'.ledger == e.ledger
    ensures e'.fees.tokenCreationFee == patch.tokenCreationFee.GetOr(e.fees.tokenCreationFee)
    ensures e'.fees.tradingFeePercent == patch.tradingFeePercent.GetOr(e.fees.tradingFeePercent)
    ensures e'.fees.platformRevenueShare == patch.platformRevenueShare.GetOr(e.fees.platformRevenueShare)
    ensures e'.fees.communityRewardPool == patch.communityRewardPool.GetOr(e.fees.communityRewardPool)
  {
    e.(fees := FeeStructure(
      patch.tokenCreationFee.GetOr(e.fees.tokenCreationFee),
      patch.tradingFeePercent.GetOr(e.fees.tradingFeePercent),
      patch.platformRevenueShare.GetOr(e.fees.platformRevenueShare),
      patch.communityRewardPool.GetOr(e.fees.communityRewardPool)))
  }

  /** The creation fee quoted is always the current structure's: an
      adjustment that sets it changes the quote, one that omits it keeps the
      quote, and recording a transaction leaves it alone. */
  lemma CreationFeeFollowsAdjust(e: Engine, patch: FeePatch, tokenSymbol: string, amount: real,
                                 id: string, timestamp: int)
    ensures CalculateTokenCreationFee(AdjustFeeStructure(e, patch))
         == patch.tokenCreationFee.GetOr(CalculateTokenCreationFee(e))
    ensures CalculateTokenCreationFee(RecordTokenTransaction(e, tokenSymbol, amount, id, timestamp).0)
         == CalculateTokenCreationFee(e)
  {
  }

  /** An empty patch changes nothing, and applying a patch twice is the same
      as applying it once. */
  lemma AdjustIdempotent(e: Engine, patch: FeePatch)
    ensures AdjustFeeStructure(e, FeePatch(None, None, None, None)) == e
    ensures AdjustFeeStructure(AdjustFeeStructure(e, patch), patch) == AdjustFeeStructure(e, patch)
  {
  }

  /** Changing the fees does not alter the totals already earned. */
  lemma AdjustKeepsTotals(e: Engine, patch: FeePatch)
    ensures GetTotalPlatformRevenue(AdjustFeeStructure(e, patch)) == GetTotalPlatformRevenue(e)
    ensures GetCommunityRewardPoolTotal(AdjustFeeStructure(e, patch)) == GetCommunityRewardPoolTotal(e)
  {
  }
}
