/** The beta exchange: a token registry keyed by symbol, an order book,
    a naive matcher and read-only views; every order placed is also
    recorded with the fee engine (core/src/trading/beta_exchange.ts). */
module BetaExchange {
  import opened Wrappers
  import opened Seqs
  import opened OrderedMap
  import FeeEngine

  datatype Token = Token(symbol: string, name: string, totalSupply: real, creator: string, createdAt: int)

  datatype Side = Buy | Sell
  datatype OrderStatus = Open | Filled | Cancelled

  datatype TradeOrder = TradeOrder(
    id: string,
    tokenSymbol: string,
    amount: real,
    price: real,
    side: Side,
    status: OrderStatus,
    timestamp: int)

  /** The exchange and the fee engine it reports every order to. */
  datatype Exchange = Exchange(
    tokens: seq<Entry<string, Token>>,
    orderBook: seq<TradeOrder>,
    feeEngine: FeeEngine.Engine)

  const InitialExchange := Exchange([], [], FeeEngine.InitialEngine)

  /** `createToken`: registers the token under its symbol, replacing any
      token already listed with that symbol. The creation fee is looked up
      but never charged. */
  function CreateToken(x: Exchange, name: string, symbol: string, totalSupply: real,
                       creator: string, now: int): (res: (Exchange, Token))
    ensures res.1 == Token(symbol, name, totalSupply, creator, now)
    ensures Get(res.0.tokens, symbol) == Some(res.1)
    ensures forall s :: s != symbol ==> Get(res.0.tokens, s) == Get(x.tokens, s)
    ensures Keys(res.0.tokens) == Keys(x.tokens) + {symbol}
    ensures res.0.orderBook == x.orderBook && res.0.feeEngine == x.feeEngine
  {
    var t := Token(symbol, name, totalSupply, creator, now);
    (x.(tokens := Put(x.tokens, symbol, t)), t)
  }

  function NotListed(symbol: string): string {
    "Token " + symbol + " does not exist"
  }

  /** `placeTradeOrder`: an unknown symbol is rejected and nothing changes;
      otherwise an open order goes to the end of the book and its value
      (amount times price) is recorded with the fee engine. The trader is
      not stored. The clock is read twice, once for the order (`now`) and
      once more by the fee engine for its record (`recordedAt`). */
  function PlaceTradeOrder(x: Exchange, tokenSymbol: string, amount: real, price: real,
                           side: Side, trader: string, orderId: string, txId: string,
                           now: int, recordedAt: int): (r: Result<(Exchange, TradeOrder), string>)
    ensures r.Err? <==> tokenSymbol !in Keys(x.tokens)
    ensures r.Err? ==> r.error == NotListed(tokenSymbol)
    ensures r.Ok? ==>
      var (x', o) := r.value;
      && o == TradeOrder(orderId, tokenSymbol, amount, price, side, Open, now)
      && x'.orderBook == x.orderBook + [o]
      && x'.tokens == x.tokens
      && x'.feeEngine == FeeEngine.RecordTokenTransaction(x.feeEngine, tokenSymbol, amount * price, txId, recordedAt).0
  {
    if Get(x.tokens, tokenSymbol).None? then Err(NotListed(tokenSymbol))
    else
      var o := TradeOrder(orderId, tokenSymbol, amount, price, side, Open, now);
      var (engine, _) := FeeEngine.RecordTokenTransaction(x.feeEngine, tokenSymbol, amount * price, txId, recordedAt);
      Ok((Exchange(x.tokens, x.orderBook + [o], engine), o))
  }

  // ---------------------------------------------------------------------------
  // Matching

  predicate OpenOn(o: TradeOrder, side: Side) {
    o.side == side && o.status == Open
  }

  predicate Crosses(sell: TradeOrder, buy: TradeOrder) {
    sell.tokenSymbol == buy.tokenSymbol && sell.price <= buy.price
  }

  /** The first open sell at or after index `j` that `buy` can take. */
  function FirstSellFrom(book: seq<TradeOrder>, buy: TradeOrder, j: nat): (m: Option<nat>)
    requires j <= |book|
    ensures m.Some? ==> j <= m.value < |book| && OpenOn(book[m.value], Sell) && Crosses(book[m.value], buy)
    ensures m.Some? ==> forall t :: j <= t < m.value ==> !(OpenOn(book[t], Sell) && Crosses(book[t], buy))
    ensures m.None? ==> forall t :: j <= t < |book| ==> !(OpenOn(book[t], Sell) && Crosses(book[t], buy))
    decreases |book| - j
  {
    if j == |book| then None
    else if OpenOn(book[j], Sell) && Crosses(book[j], buy) then Some(j)
    else FirstSellFrom(book, buy, j + 1)
  }

  function FirstSell(book: seq<TradeOrder>, buy: TradeOrder): Option<nat> {
    FirstSellFrom(book, buy, 0)
  }

  /** An open buy is filled when some open sell in the book crosses it. */
  predicate FilledBuy(book: seq<TradeOrder>, i: nat)
    requires i < |book|
  {
    OpenOn(book[i], Buy) && FirstSell(book, book[i]).Some?
  }

  /** An open sell is filled when it is the first crossing sell of one of
      the first `k` orders, taken as a buy. */
  predicate FilledSell(book: seq<TradeOrder>, i: nat, k: nat)
    requires i < |book| && k <= |book|
  {
    exists b :: 0 <= b < k && OpenOn(book[b], Buy) && FirstSell(book, book[b]) == Some(i)
  }

  function Fill(o: TradeOrder): TradeOrder { o.(status := Filled) }

  /** The book after one matching pass, order by order. Both sides are
      chosen from the book as it stood at the start, and the sell search
      does not look at statuses again, so one sell may fill many buys. */
  function Matched(book: seq<TradeOrder>): (r: seq<TradeOrder>)
    ensures |r| == |book|
  {
    seq(|book|, i requires 0 <= i < |book| =>
      if FilledBuy(book, i) || FilledSell(book, i, |book|) then Fill(book[i]) else book[i])
  }

  /** `matchTradeOrders`: walks the open buys in book order, filling each
      together with the first open sell that crosses it. */
  method MatchTradeOrders(book: seq<TradeOrder>) returns (r: seq<TradeOrder>)
    ensures r == Matched(book)
  {
    r := book;
    var k := 0;
    while k < |book|
      invariant 0 <= k <= |book| && |r| == |book|
      invariant forall i :: 0 <= i < |book| ==>
        r[i] == if (i < k && FilledBuy(book, i)) || FilledSell(book, i, k) then Fill(book[i]) else book[i]
    {
      if OpenOn(book[k], Buy) {
        var m := FirstSell(book, book[k]);
        if m.Some? {
          r := r[k := Fill(book[k])][m.value := Fill(book[m.value])];
        }
      }
      forall i | 0 <= i < |book|
        ensures FilledSell(book, i, k + 1) <==>
          FilledSell(book, i, k) || (OpenOn(book[k], Buy) && FirstSell(book, book[k]) == Some(i))
      {
        if FilledSell(book, i, k + 1) && !FilledSell(book, i, k) {
          var b :| 0 <= b < k + 1 && OpenOn(book[b], Buy) && FirstSell(book, book[b]) == Some(i);
          assert b == k;
        }
      }
      k := k + 1;
    }
  }

  /** Matching changes statuses only, and only from open to filled. */
  lemma MatchedChangesStatusOnly(book: seq<TradeOrder>)
    ensures forall i :: 0 <= i < |book| ==>
      Matched(book)[i] == book[i] || (book[i].status == Open && Matched(book)[i] == Fill(book[i]))
  {
    forall i | 0 <= i < |book|
      ensures Matched(book)[i] == book[i] || (book[i].status == Open && Matched(book)[i] == Fill(book[i]))
    {
      if FilledSell(book, i, |book|) {
        var b :| 0 <= b < |book| && OpenOn(book[b], Buy) && FirstSell(book, book[b]) == Some(i);
      }
    }
  }

  /** An open buy is filled exactly when an open sell for the same token
      is priced at or below it. */
  lemma MatchedBuyIff(book: seq<TradeOrder>, i: nat)
    requires i < |book| && OpenOn(book[i], Buy)
    ensures Matched(book)[i].status == Filled <==>
      exists t :: 0 <= t < |book| && OpenOn(book[t], Sell) && Crosses(book[t], book[i])
  {
    forall b | 0 <= b < |book| ensures FirstSell(book, book[b]) != Some(i) {
      var f := FirstSell(book, book[b]);
      if f.Some? {
        assert OpenOn(book[f.value], Sell);
      }
    }
    var m := FirstSell(book, book[i]);
    if m.Some? {
      assert OpenOn(book[m.value], Sell) && Crosses(book[m.value], book[i]);
    }
  }

  /** A second pass straight after the first changes nothing: every open
      buy left had no crossing sell, and the open sells left are among the
      ones it already had. */
  lemma MatchIdempotent(book: seq<TradeOrder>)
    ensures Matched(Matched(book)) == Matched(book)
  {
    var m := Matched(book);
    MatchedChangesStatusOnly(book);
    forall b | 0 <= b < |m| && OpenOn(m[b], Buy) ensures FirstSell(m, m[b]).None? {
      assert m[b] == book[b];
      assert !FilledBuy(book, b);
      assert FirstSell(book, book[b]).None?;
      forall t | 0 <= t < |m| ensures !(OpenOn(m[t], Sell) && Crosses(m[t], m[b])) {
        if OpenOn(m[t], Sell) {
          assert m[t] == book[t];
        }
      }
    }
    forall i | 0 <= i < |m| ensures Matched(m)[i] == m[i] {
      assert !FilledSell(m, i, |m|);
    }
  }

  /** One resting sell fills every buy that crosses it. */
  lemma OneSellFillsTwoBuys()
    ensures var sell := TradeOrder("s", "EON", 10.0, 1.0, Sell, Open, 1);
            var buy1 := TradeOrder("b1", "EON", 5.0, 2.0, Buy, Open, 2);
            var buy2 := TradeOrder("b2", "EON", 5.0, 3.0, Buy, Open, 3);
      Matched([sell, buy1, buy2]) == [Fill(sell), Fill(buy1), Fill(buy2)]
  {
    var sell := TradeOrder("s", "EON", 10.0, 1.0, Sell, Open, 1);
    var buy1 := TradeOrder("b1", "EON", 5.0, 2.0, Buy, Open, 2);
    var buy2 := TradeOrder("b2", "EON", 5.0, 3.0, Buy, Open, 3);
    var book := [sell, buy1, buy2];
    assert FirstSell(book, buy1) == Some(0);
    assert FilledSell(book, 0, 3) by {
      assert OpenOn(book[1], Buy) && FirstSell(book, book[1]) == Some(0);
    }
    assert FilledBuy(book, 1) && FilledBuy(book, 2);
  }

  /** `matchTradeOrders` on the exchange: only the book changes. */
  method MatchExchange(x: Exchange) returns (x': Exchange)
    ensures x'.tokens == x.tokens && x'.feeEngine == x.feeEngine
    ensures x'.orderBook == Matched(x.orderBook)
  {
    var book := MatchTradeOrders(x.orderBook);
    x' := x.(orderBook := book);
  }

  // ---------------------------------------------------------------------------
  // Views

  /** `getTokens`: the tokens in first-listing order. */
  function GetTokens(x: Exchange): (ts: seq<Token>)
    ensures |ts| == |x.tokens|
    ensures forall i :: 0 <= i < |ts| ==> ts[i] == x.tokens[i].value
  {
    Values(x.tokens)
  }

  /** `getTokens` keeps listing order: a token under a new symbol goes to
      the end, and re-listing a symbol replaces its token where it stands. */
  lemma CreateTokenListingOrder(x: Exchange, name: string, symbol: string, totalSupply: real,
                                creator: string, now: int)
    ensures var (x', t) := CreateToken(x, name, symbol, totalSupply, creator, now);
      symbol !in Keys(x.tokens) ==> GetTokens(x') == GetTokens(x) + [t]
    ensures var (x', t) := CreateToken(x, name, symbol, totalSupply, creator, now);
      symbol in Keys(x.tokens) ==>
        exists i :: 0 <= i < |x.tokens| && x.tokens[i].key == symbol && GetTokens(x') == GetTokens(x)[i := t]
  {
    var t := Token(symbol, name, totalSupply, creator, now);
    var tokens' := Put(x.tokens, symbol, t);
    match IndexOf(x.tokens, symbol)
    case None =>
      PutAbsent(x.tokens, symbol, t);
      ValuesAppend(x.tokens, Entry(symbol, t));
      assert Values(tokens') == Values(x.tokens) + [t];
    case Some(i) =>
      PutPresent(x.tokens, symbol, t);
      ValuesUpdate(x.tokens, i, Entry(symbol, t));
      assert Values(tokens') == Values(x.tokens)[i := t];
      assert symbol in Keys(x.tokens) by {
        assert x.tokens[i].key == symbol;
      }
  }

  /** An optional symbol argument; as in JavaScript, the empty string counts as absent. */
  predicate Given(symbol: Option<string>) {
    symbol.Some? && symbol.value != ""
  }

  function IsOpen(o: TradeOrder): bool { o.status == Open }

  function ForSymbol(symbol: Option<string>): TradeOrder -> bool {
    (o: TradeOrder) => !Given(symbol) || o.tokenSymbol == symbol.value
  }

  function OpenForSymbol(symbol: Option<string>): TradeOrder -> bool {
    (o: TradeOrder) => o.status == Open && (!Given(symbol) || o.tokenSymbol == symbol.value)
  }

  /** `getOpenOrders`. */
  function GetOpenOrders(x: Exchange, symbol: Option<string>): (os: seq<TradeOrder>)
    ensures forall o :: o in os <==>
      o in x.orderBook && o.status == Open && (!Given(symbol) || o.tokenSymbol == symbol.value)
  {
    Filter(x.orderBook, OpenForSymbol(symbol))
  }

  function OrderValue(o: TradeOrder): real { o.amount * o.price }

  datatype TradingMetrics = TradingMetrics(totalVolume: real, uniqueTokens: nat, openOrders: nat)

  function Relevant(x: Exchange, symbol: Option<string>): seq<TradeOrder> {
    if Given(symbol) then Filter(x.orderBook, ForSymbol(symbol)) else x.orderBook
  }

  /** `getTradingMetrics`: traded value and open count over the orders for
      the symbol (or all orders), and the number of listed tokens. */
  function GetTradingMetrics(x: Exchange, symbol: Option<string>): (m: TradingMetrics)
    requires UniqueKeys(x.tokens)
    ensures m.uniqueTokens == |Keys(x.tokens)|
    ensures m.openOrders <= |Relevant(x, symbol)|
    ensures m.totalVolume == SumOf(Relevant(x, symbol), OrderValue)
  {
    UniqueKeysCardinality(x.tokens);
    var relevant := Relevant(x, symbol);
    TradingMetrics(SumOf(relevant, OrderValue), |x.tokens|, |Filter(relevant, IsOpen)|)
  }

  /** The open count in the metrics is the number of orders `getOpenOrders` lists. */
  lemma MetricsCountOpenOrders(x: Exchange, symbol: Option<string>)
    requires UniqueKeys(x.tokens)
    ensures GetTradingMetrics(x, symbol).openOrders == |GetOpenOrders(x, symbol)|
  {
    FilterFilter(x.orderBook, ForSymbol(symbol), IsOpen, OpenForSymbol(symbol));
    if !Given(symbol) {
      FilterAll(x.orderBook, ForSymbol(symbol));
    }
  }

  // ---------------------------------------------------------------------------
  // The fee ledger mirrors the order book

  /** Every order has a fee record at the same position, for its token and value. */
  predicate LedgerMirrorsBook(x: Exchange) {
    && |x.feeEngine.ledger| == |x.orderBook|
    && forall i :: 0 <= i < |x.orderBook| ==>
         x.feeEngine.ledger[i].tokenSymbol == x.orderBook[i].tokenSymbol
         && x.feeEngine.ledger[i].amount == OrderValue(x.orderBook[i])
  }

  predicate Valid(x: Exchange) {
    UniqueKeys(x.tokens) && LedgerMirrorsBook(x)
  }

  lemma InitialValid()
    ensures Valid(InitialExchange)
  {
  }

  lemma CreateTokenPreservesValid(x: Exchange, name: string, symbol: string, totalSupply: real,
                                  creator: string, now: int)
    requires Valid(x)
    ensures Valid(CreateToken(x, name, symbol, totalSupply, creator, now).0)
  {
  }

  lemma PlaceTradeOrderPreservesValid(x: Exchange, tokenSymbol: string, amount: real, price: real,
                                      side: Side, trader: string, orderId: string, txId: string, now: int,
                                      recordedAt: int)
    requires Valid(x)
    ensures var r := PlaceTradeOrder(x, tokenSymbol, amount, price, side, trader, orderId, txId, now, recordedAt);
      r.Ok? ==> Valid(r.value.0)
  {
  }

  lemma MatchPreservesValid(x: Exchange)
    requires Valid(x)
    ensures Valid(x.(orderBook := Matched(x.orderBook)))
  {
    var book := x.orderBook;
    var matched := Matched(book);
    forall i | 0 <= i < |book|
      ensures matched[i].tokenSymbol == book[i].tokenSymbol
      ensures OrderValue(matched[i]) == OrderValue(book[i])
    {
      assert matched[i] == book[i] || matched[i] == Fill(book[i]);
    }
  }

  /** In a valid exchange, the whole-book traded value is the total amount
      the fee engine has on record. */
  lemma VolumeMatchesFeeLedger(x: Exchange)
    requires Valid(x)
    ensures GetTradingMetrics(x, None).totalVolume == SumOf(x.feeEngine.ledger, FeeEngine.AmountOf)
  {
    SumOfPointwise(x.orderBook, OrderValue, x.feeEngine.ledger, FeeEngine.AmountOf);
  }
}
