/** The XRP Ledger trading engine: validated trades submitted as offers,
    a local book of the trades the ledger answered, fees, and the filled-trade
    history (core/src/trading/xrp_trading.ts). The ledger's reply, the order
    id and the clock are inputs. */
module XrpTrading {
  import opened Wrappers
  import opened Seqs
  import FeeEngine
  import FeeDistribution

  datatype Side = Buy | Sell
  datatype OrderStatus = Open | Filled | Cancelled

  datatype XrpOrder = XrpOrder(
    id: string,
    tokenSymbol: string,
    amount: real,
    price: real,
    side: Side,
    status: OrderStatus,
    timestamp: int,
    trader: string)

  datatype TxType = OfferCreate | OfferCancel

  datatype IssuedAmount = IssuedAmount(currency: string, value: real)

  datatype OfferTx = OfferTx(transactionType: TxType, account: string, takerPays: IssuedAmount, takerGets: IssuedAmount)

  /** How the ledger answered a submission: an engine result code, or an
      exception carrying a message. */
  datatype SubmitReply = EngineResult(code: string) | Threw(message: string)

  datatype Engine = Engine(traderAddress: string, orderBook: seq<XrpOrder>)

  /** The offer submitted for a trade: a buy creates an offer, a sell
      submits an offer cancellation with the same amounts. */
  function OfferFor(trader: string, tokenSymbol: string, amount: real, price: real, side: Side): OfferTx {
    OfferTx(if side == Buy then OfferCreate else OfferCancel, trader,
            IssuedAmount(tokenSymbol, amount), IssuedAmount("XRP", amount * price))
  }

  const InvalidTrade := "Invalid trade amount or price"

  datatype TradeOutcome = TradeOutcome(submitted: Option<OfferTx>, result: Result<(Engine, XrpOrder), string>)

  /** `placeTrade`: a non-positive amount or price is rejected before
      anything is sent. Otherwise the offer is submitted; if the submission
      throws, the trade fails and the book is untouched; if the ledger
      answers, the order is kept, filled exactly when the result is
      `tesSUCCESS` and still open otherwise. */
  function PlaceTrade(e: Engine, tokenSymbol: string, amount: real, price: real, side: Side,
                      id: string, now: int, reply: SubmitReply): (out: TradeOutcome)
    ensures out.submitted.None? <==> amount <= 0.0 || price <= 0.0
    ensures out.submitted.None? ==> out.result == Err(InvalidTrade)
    ensures out.submitted.Some? ==> out.submitted.value == OfferFor(e.traderAddress, tokenSymbol, amount, price, side)
    ensures out.result.Ok? <==> out.submitted.Some? && reply.EngineResult?
    ensures out.submitted.Some? && reply.Threw? ==> out.result == Err("Trade failed: " + reply.message)
    ensures out.result.Ok? ==>
      var (e', o) := out.result.value;
      && e'.traderAddress == e.traderAddress
      && e'.orderBook == e.orderBook + [o]
      && o.amount == amount && o.price == price && o.side == side && o.tokenSymbol == tokenSymbol
      && o.id == id && o.timestamp == now && o.trader == e.traderAddress
      && (o.status == Filled <==> reply.code == "tesSUCCESS")
      && (o.status == Open <==> reply.code != "tesSUCCESS")
  {
    if amount <= 0.0 || price <= 0.0 then TradeOutcome(None, Err(InvalidTrade))
    else
      var tx := OfferFor(e.traderAddress, tokenSymbol, amount, price, side);
      match reply
      case Threw(msg) => TradeOutcome(Some(tx), Err("Trade failed: " + msg))
      case EngineResult(code) =>
        var o := XrpOrder(id, tokenSymbol, amount, price, side,
                          if code == "tesSUCCESS" then Filled else Open, now, e.traderAddress);
        TradeOutcome(Some(tx), Ok((e.(orderBook := e.orderBook + [o]), o)))
  }

  /** A sell never creates an offer on the ledger. */
  lemma SellSubmitsCancel(e: Engine, tokenSymbol: string, amount: real, price: real, id: string, now: int,
                          reply: SubmitReply)
    requires amount > 0.0 && price > 0.0
    ensures PlaceTrade(e, tokenSymbol, amount, price, Sell, id, now, reply).submitted.value.transactionType == OfferCancel
    ensures PlaceTrade(e, tokenSymbol, amount, price, Buy, id, now, reply).submitted.value.transactionType == OfferCreate
  {
  }

  /** Every order in the book was a valid trade; none is ever cancelled. */
  predicate BookValid(e: Engine) {
    forall i :: 0 <= i < |e.orderBook| ==>
      e.orderBook[i].amount > 0.0 && e.orderBook[i].price > 0.0 && e.orderBook[i].status != Cancelled
  }

  lemma PlaceTradeKeepsBookValid(e: Engine, tokenSymbol: string, amount: real, price: real, side: Side,
                                 id: string, now: int, reply: SubmitReply)
    requires BookValid(e)
    ensures var out := PlaceTrade(e, tokenSymbol, amount, price, side, id, now, reply);
      out.result.Ok? ==> BookValid(out.result.value.0)
  {
  }

  // ---------------------------------------------------------------------------
  // Fees

  datatype TradingFees = TradingFees(networkFee: real, platformFee: real, totalFee: real)

  /** Twelve drops, the ledger's base transaction cost. */
  const NetworkFee := 0.000012

  /** `calculateTradingFees`: the network fee plus half a percent of the
      trade's value. */
  function CalculateTradingFees(amount: real, price: real): (f: TradingFees)
    ensures f.networkFee == NetworkFee
    ensures f.platformFee * 200.0 == amount * price
    ensures f.totalFee == f.networkFee + f.platformFee
  {
    var platformFee := amount * price * 0.005;
    TradingFees(NetworkFee, platformFee, NetworkFee + platformFee)
  }

  /** The platform part is the whole fee the fee engine charges by default
      on the same trade value, and the network fee is exactly 12 drops. */
  lemma FeesAgreeWithFeeEngine(amount: real, price: real)
    ensures CalculateTradingFees(amount, price).platformFee ==
      FeeEngine.CalculateTradingFees(FeeEngine.DefaultFeeStructure, amount * price).totalFee
    ensures FeeDistribution.ConvertToDrops(NetworkFee) == "12"
  {
    assert FeeDistribution.ToFixed0(NetworkFee * FeeDistribution.DropsPerXrp) == FeeDistribution.Fixed(false, 12);
    assert FeeDistribution.NatToDecimal(12) == "12";
  }

  // ---------------------------------------------------------------------------
  // History

  function IsFilled(o: XrpOrder): bool { o.status == Filled }

  function TimestampOf(o: XrpOrder): int { o.timestamp }

  /** The limit `getTradeHistory` uses when called without one. */
  const DefaultHistoryLimit := 50

  /** `getTradeHistory`: the filled trades, newest first, cut to `limit`;
      trades stamped in the same millisecond keep their book order. The
      book itself keeps its order. */
  function GetTradeHistory(e: Engine, limit: int): (h: seq<XrpOrder>)
    ensures limit >= 0 ==> |h| == Min(limit, |Filter(e.orderBook, IsFilled)|)
    ensures forall i :: 0 <= i < |h| ==> h[i].status == Filled && h[i] in e.orderBook
    ensures SortedDesc(h, TimestampOf)
    ensures |h| <= |Filter(e.orderBook, IsFilled)|
    ensures h == SortDesc(Filter(e.orderBook, IsFilled), TimestampOf)[..|h|]
    ensures forall v :: Filter(h, KeyIs(TimestampOf, v)) <= Filter(Filter(e.orderBook, IsFilled), KeyIs(TimestampOf, v))
  {
    var filled := Filter(e.orderBook, IsFilled);
    var h := TopByKey(filled, TimestampOf, limit);
    assert forall i :: 0 <= i < |h| ==> h[i] in filled;
    h
  }

  /** Called without a limit, the history lists every filled trade while
      there are at most 50 of them, and exactly 50 beyond that. */
  lemma DefaultHistoryCoversFewTrades(e: Engine)
    ensures var h := GetTradeHistory(e, DefaultHistoryLimit);
      var filled := Filter(e.orderBook, IsFilled);
      |h| == Min(50, |filled|) && (|filled| <= 50 ==> multiset(h) == multiset(filled))
  {
    var h := GetTradeHistory(e, DefaultHistoryLimit);
    var filled := Filter(e.orderBook, IsFilled);
    if |filled| <= 50 {
      assert h == SortDesc(filled, TimestampOf);
    }
  }

  /** A trade the ledger accepts, placed later than every earlier trade,
      is the first entry of the history. */
  lemma AcceptedTradeLeadsHistory(e: Engine, tokenSymbol: string, amount: real, price: real, side: Side,
                                  id: string, now: int, limit: int)
    requires amount > 0.0 && price > 0.0 && limit >= 1
    requires forall i :: 0 <= i < |e.orderBook| ==> e.orderBook[i].timestamp < now
    ensures var out := PlaceTrade(e, tokenSymbol, amount, price, side, id, now, EngineResult("tesSUCCESS"));
      var h := GetTradeHistory(out.result.value.0, limit);
      |h| > 0 && h[0] == out.result.value.1
  {
    var out := PlaceTrade(e, tokenSymbol, amount, price, side, id, now, EngineResult("tesSUCCESS"));
    var (e', o) := out.result.value;
    var filled := Filter(e.orderBook, IsFilled);
    FilterAppend(e.orderBook, o, IsFilled);
    forall i | 0 <= i < |filled| ensures TimestampOf(filled[i]) < TimestampOf(o) {
      assert filled[i] in e.orderBook;
    }
    SortDescNewestFirst(filled, o, TimestampOf);
  }

  /** A trade the ledger does not accept stays open and out of the history. */
  lemma RejectedTradeNotInHistory(e: Engine, tokenSymbol: string, amount: real, price: real, side: Side,
                                  id: string, now: int, code: string, limit: int)
    requires amount > 0.0 && price > 0.0 && code != "tesSUCCESS"
    ensures var out := PlaceTrade(e, tokenSymbol, amount, price, side, id, now, EngineResult(code));
      GetTradeHistory(out.result.value.0, limit) == GetTradeHistory(e, limit)
  {
    var out := PlaceTrade(e, tokenSymbol, amount, price, side, id, now, EngineResult(code));
    var (e', o) := out.result.value;
    assert e'.orderBook == e.orderBook + [o] && !IsFilled(o);
    FilterAppend(e.orderBook, o, IsFilled);
    assert Filter(e'.orderBook, IsFilled) == Filter(e.orderBook, IsFilled);
  }
}
