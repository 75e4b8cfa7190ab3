/**
 * crypto_parser/crypto.py: the three P2P fetchers (request encoding and
 * response normalisation), the three spot-price selectors, get_data_p2p,
 * best_price and get_market_data.
 */
module Crypto {
  import opened Types
  import opened Ascii
  import Fanout

  /** best_price's "no usable offer" value. */
  const NO_OFFER: real := 1_000_000_000.0

  datatype Exchange = Binance | Bybit | Garantex

  /** The dict key each fetcher is registered under. */
  function ExchangeKey(e: Exchange): string
  {
    match e
    case Binance => "binance"
    case Bybit => "bybit"
    case Garantex => "garantex"
  }

  /** The fetcher dict of get_data_p2p indexed by exchange.lower(). */
  function ResolveExchange(name: string): (r: Result<Exchange>)
    ensures r.Ok? <==> Lower(name) in {"binance", "bybit", "garantex"}
    ensures r.Ok? ==> ExchangeKey(r.value) == Lower(name)
    ensures r.Err? ==> r.error == UnknownExchange(name)
  {
    var key := Lower(name);
    if key == "binance" then Ok(Binance)
    else if key == "bybit" then Ok(Bybit)
    else if key == "garantex" then Ok(Garantex)
    else Err(UnknownExchange(name))
  }

  /** Names equal up to letter case resolve to the same exchange. */
  lemma ResolveIgnoresCase(a: string, b: string)
    requires Lower(a) == Lower(b)
    ensures ResolveExchange(a).Ok? == ResolveExchange(b).Ok?
    ensures ResolveExchange(a).Ok? ==> ResolveExchange(a) == ResolveExchange(b)
  {
  }

  /** Resolving the registered key of an exchange gives that exchange back. */
  lemma ResolveKey(e: Exchange)
    ensures ResolveExchange(ExchangeKey(e)) == Ok(e)
  {
  }

  // ---------------------------------------------------------------- Binance

  function BinanceAdv(row: BinanceRow): Adv
  {
    Adv(Some(row.nickName), row.price, row.tradableQuantity)
  }

  /** Binance's row map: each row to (nickName, price, tradableQuantity), in order. */
  function NormalizeBinance(rows: seq<BinanceRow>): (advs: seq<Adv>)
    ensures |advs| == |rows|
    ensures forall i :: 0 <= i < |rows| ==> advs[i] == BinanceAdv(rows[i])
  {
    if rows == [] then [] else [BinanceAdv(rows[0])] + NormalizeBinance(rows[1..])
  }

  function BinanceRequest(asset: string, fiat: string, tradeType: string, payType: Option<PayType>, amount: int): BinanceQuery
  {
    BinanceQuery(asset, tradeType, fiat, amount, true, [payType], 1, 20, "all")
  }

  /** fetch_binance_p2p: one POST, then a row-for-row map of the reply. */
  function FetchBinanceP2P(t: Transport, asset: string, fiat: string, tradeType: string,
                           payType: Option<PayType>, amount: int): (r: Result<seq<Adv>>)
    ensures var reply := t.binanceP2P(BinanceRequest(asset, fiat, tradeType, payType, amount));
      && (r.Ok? <==> reply.status == 200 && reply.body.Some?)
      && (reply.status != 200 ==> r == Err(StatusError(reply.status)))
      && (reply.status == 200 && reply.body.None? ==> r == Err(MalformedBody))
      && (r.Ok? ==> |r.value| == |reply.body.value|
                    && forall i :: 0 <= i < |r.value| ==> r.value[i] == BinanceAdv(reply.body.value[i]))
  {
    var rows :- CheckedBody(t.binanceP2P(BinanceRequest(asset, fiat, tradeType, payType, amount)));
    Ok(NormalizeBinance(rows))
  }

  // ------------------------------------------------------------------ Bybit

  /** Bybit's side code: buy is 1 and sell is 0, matched on the lower-cased trade type. */
  function BybitSide(tradeType: string): (r: Result<int>)
    ensures r.Ok? <==> Lower(tradeType) in {"buy", "sell"}
    ensures r == Ok(1) <==> Lower(tradeType) == "buy"
    ensures r == Ok(0) <==> Lower(tradeType) == "sell"
    ensures r.Err? ==> r.error == KeyError(Lower(tradeType))
  {
    var key := Lower(tradeType);
    if key == "buy" then Ok(1) else if key == "sell" then Ok(0) else Err(KeyError(key))
  }

  /** Bybit's payment-id table. */
  function PaymentId(m: PayMethod): int
  {
    match m
    case Alfa => 1
    case Pochta => 59
    case Qiwi => 62
    case Raiffeisen => 64
    case Tinkoff => 75
    case Rosbank => 185
    case Yandex => 274
  }

  /** The payment dict indexed by pay_type: only the seven constants have an id. */
  function BybitPayment(payType: Option<PayType>): (r: Result<int>)
    ensures r.Ok? <==> payType.Some? && payType.value.Known?
    ensures r.Ok? ==> r.value == PaymentId(payType.value.payMethod)
    ensures r.Err? ==> r.error == PayTypeKeyError(payType)
  {
    match payType
    case Some(Known(m)) => Ok(PaymentId(m))
    case _ => Err(PayTypeKeyError(payType))
  }

  /** The inverse of the payment table. */
  function MethodOfPaymentId(id: int): Option<PayMethod>
  {
    if id == 1 then Some(Alfa)
    else if id == 59 then Some(Pochta)
    else if id == 62 then Some(Qiwi)
    else if id == 64 then Some(Raiffeisen)
    else if id == 75 then Some(Tinkoff)
    else if id == 185 then Some(Rosbank)
    else if id == 274 then Some(Yandex)
    else None
  }

  /** The table is one-to-one: each id names back the method it encodes. */
  lemma PaymentIdRoundTrip(m: PayMethod)
    ensures MethodOfPaymentId(PaymentId(m)) == Some(m)
  {
  }

  /** Distinct methods get distinct ids. */
  lemma PaymentIdInjective(m1: PayMethod, m2: PayMethod)
    requires PaymentId(m1) == PaymentId(m2)
    ensures m1 == m2
  {
    PaymentIdRoundTrip(m1);
    PaymentIdRoundTrip(m2);
  }

  function BybitAdv(row: BybitRow): Adv
  {
    Adv(Some(row.nickName), row.price, row.quantity)
  }

  /** Bybit's row map: each item to (nickName, price, quantity), in order. */
  function NormalizeBybit(rows: seq<BybitRow>): (advs: seq<Adv>)
    ensures |advs| == |rows|
    ensures forall i :: 0 <= i < |rows| ==> advs[i] == BybitAdv(rows[i])
  {
    if rows == [] then [] else [BybitAdv(rows[0])] + NormalizeBybit(rows[1..])
  }

  function BybitRequest(asset: string, fiat: string, side: int, payment: int, amount: int): BybitQuery
  {
    BybitQuery(asset, fiat, payment, side, 10, 1, amount)
  }

  /**
   * fetch_bybit_p2p: side and payment are looked up before the POST, so
   * either lookup failing fails the call whatever the network would say.
   */
  function FetchBybitP2P(t: Transport, asset: string, fiat: string, tradeType: string,
                         payType: Option<PayType>, amount: int): (r: Result<seq<Adv>>)
    ensures BybitSide(tradeType).Err? ==> r == Err(KeyError(Lower(tradeType)))
    ensures BybitSide(tradeType).Ok? && BybitPayment(payType).Err? ==> r == Err(PayTypeKeyError(payType))
    ensures BybitSide(tradeType).Ok? && BybitPayment(payType).Ok? ==>
      var reply := t.bybitP2P(BybitRequest(asset, fiat, BybitSide(tradeType).value, BybitPayment(payType).value, amount));
      && (r.Ok? <==> reply.status == 200 && reply.body.Some?)
      && (reply.status != 200 ==> r == Err(StatusError(reply.status)))
      && (reply.status == 200 && reply.body.None? ==> r == Err(MalformedBody))
      && (r.Ok? ==> |r.value| == |reply.body.value|
                    && forall i :: 0 <= i < |r.value| ==> r.value[i] == BybitAdv(reply.body.value[i]))
  {
    var side :- BybitSide(tradeType);
    var payment :- BybitPayment(payType);
    var rows :- CheckedBody(t.bybitP2P(BybitRequest(asset, fiat, side, payment, amount)));
    Ok(NormalizeBybit(rows))
  }

  // --------------------------------------------------------------- Garantex

  /** The Garantex market id: the lower-cased asset followed by the lower-cased fiat. */
  function GarantexMarket(asset: string, fiat: string): (market: string)
    ensures market == Lower(asset + fiat)
    ensures |market| == |asset| + |fiat|
    ensures market[..|asset|] == Lower(asset) && market[|asset|..] == Lower(fiat)
  {
    LowerConcat(asset, fiat);
    Lower(asset) + Lower(fiat)
  }

  datatype BookSide = Asks | Bids

  /** The book side a Garantex trade type reads: asks for buy, bids for sell, matched on the lower-cased trade type. */
  function GarantexBookSide(tradeType: string): (r: Result<BookSide>)
    ensures r.Ok? <==> Lower(tradeType) in {"buy", "sell"}
    ensures r == Ok(Asks) <==> Lower(tradeType) == "buy"
    ensures r == Ok(Bids) <==> Lower(tradeType) == "sell"
    ensures r.Err? ==> r.error == KeyError(Lower(tradeType))
  {
    var key := Lower(tradeType);
    if key == "buy" then Ok(Asks) else if key == "sell" then Ok(Bids) else Err(KeyError(key))
  }

  function Levels(depth: Depth, side: BookSide): seq<Level>
  {
    match side
    case Asks => depth.asks
    case Bids => depth.bids
  }

  function GarantexAdv(level: Level): Adv
  {
    Adv(None, level.price, level.volume)
  }

  /** The filtering comprehension: levels whose amount reaches the threshold, as nick-less advertisements. */
  function FilterByAmount(levels: seq<Level>, threshold: int): (advs: seq<Adv>)
    ensures |advs| <= |levels|
    ensures forall a :: a in advs ==> a.nick == None
    ensures forall a :: a in advs ==>
      exists l :: l in levels && l.amount >= threshold as real && a == GarantexAdv(l)
    ensures forall l :: l in levels && l.amount >= threshold as real ==> GarantexAdv(l) in advs
  {
    if levels == [] then []
    else
      var rest := FilterByAmount(levels[1..], threshold);
      if levels[0].amount >= threshold as real then [GarantexAdv(levels[0])] + rest else rest
  }

  /** The filter keeps order: filtering a concatenation is concatenating the filtered parts. */
  lemma {:induction false} FilterByAmountAppend(a: seq<Level>, b: seq<Level>, threshold: int)
    ensures FilterByAmount(a + b, threshold) == FilterByAmount(a, threshold) + FilterByAmount(b, threshold)
  {
    if a == [] {
      assert a + b == b;
    } else {
      assert (a + b)[0] == a[0];
      assert (a + b)[1..] == a[1..] + b;
      FilterByAmountAppend(a[1..], b, threshold);
    }
  }

  /** A single level is kept exactly when its amount reaches the threshold. */
  lemma FilterByAmountOne(l: Level, threshold: int)
    ensures FilterByAmount([l], threshold) == if l.amount >= threshold as real then [GarantexAdv(l)] else []
  {
  }

  /** With no threshold reached by any level, nothing is kept; with every level reaching it, all are. */
  lemma {:induction false} FilterByAmountExtremes(levels: seq<Level>, threshold: int)
    ensures (forall l :: l in levels ==> l.amount >= threshold as real) ==>
      FilterByAmount(levels, threshold) == seq(|levels|, i requires 0 <= i < |levels| => GarantexAdv(levels[i]))
    ensures (forall l :: l in levels ==> l.amount < threshold as real) ==> FilterByAmount(levels, threshold) == []
  {
    if levels != [] {
      FilterByAmountExtremes(levels[1..], threshold);
      if forall l :: l in levels ==> l.amount >= threshold as real {
        assert forall l :: l in levels[1..] ==> l in levels;
        var all := seq(|levels|, i requires 0 <= i < |levels| => GarantexAdv(levels[i]));
        assert all == [GarantexAdv(levels[0])] + seq(|levels| - 1, i requires 0 <= i < |levels| - 1 => GarantexAdv(levels[1..][i]));
      }
    }
  }

  /**
   * fetch_garantex_p2p: GET the depth of market asset.lower() + fiat.lower();
   * the trade type is looked up only after the reply is checked; the pay
   * type is ignored.
   */
  function FetchGarantexP2P(t: Transport, asset: string, fiat: string, tradeType: string,
                            amount: int): (r: Result<seq<Adv>>)
    ensures var reply := t.garantexDepth(GarantexMarket(asset, fiat));
      && (reply.status != 200 ==> r == Err(StatusError(reply.status)))
      && (reply.status == 200 && reply.body.None? ==> r == Err(MalformedBody))
      && (reply.status == 200 && reply.body.Some? && GarantexBookSide(tradeType).Err? ==>
            r == Err(KeyError(Lower(tradeType))))
      && (r.Ok? <==> reply.status == 200 && reply.body.Some? && GarantexBookSide(tradeType).Ok?)
      && (r.Ok? ==> r.value == FilterByAmount(
            if Lower(tradeType) == "buy" then reply.body.value.asks else reply.body.value.bids, amount))
  {
    var depth :- CheckedBody(t.garantexDepth(GarantexMarket(asset, fiat)));
    var side :- GarantexBookSide(tradeType);
    Ok(FilterByAmount(Levels(depth, side), amount))
  }

  /** The fetcher get_data_p2p calls for one (asset, pay_type) task. */
  function FetchP2P(e: Exchange, t: Transport, asset: string, fiat: string, tradeType: string,
                    payType: Option<PayType>, amount: int): Result<seq<Adv>>
  {
    match e
    case Binance => FetchBinanceP2P(t, asset, fiat, tradeType, payType, amount)
    case Bybit => FetchBybitP2P(t, asset, fiat, tradeType, payType, amount)
    case Garantex => FetchGarantexP2P(t, asset, fiat, tradeType, amount)
  }

  function P2PTask(e: Exchange, t: Transport, fiat: string, tradeType: string, amount: int): P2PKey -> Result<seq<Adv>>
  {
    (k: P2PKey) => FetchP2P(e, t, k.0, fiat, tradeType, k.1, amount)
  }

  // ------------------------------------------------------------ aggregation

  /**
   * get_data_p2p: resolve the fetcher (UnknownExchange before anything is
   * submitted), submit one task per element of product(assets, pay_types),
   * and fill the dict in completion order.
   */
  method GetDataP2P(exchange: string, assets: seq<string>, fiat: string, tradeType: string,
                    payTypes: seq<Option<PayType>>, amount: int, t: Transport, completion: seq<nat>)
    returns (r: Result<P2PData>, submitted: seq<P2PKey>)
    requires Fanout.IsPermutation(completion, |Fanout.Product(assets, payTypes)|)
    ensures ResolveExchange(exchange).Err? ==> r == Err(UnknownExchange(exchange)) && submitted == []
    ensures ResolveExchange(exchange).Ok? ==> submitted == Fanout.Product(assets, payTypes)
    ensures r.Ok? <==> (ResolveExchange(exchange).Ok? &&
      forall k :: k in submitted ==> FetchP2P(ResolveExchange(exchange).value, t, k.0, fiat, tradeType, k.1, amount).Ok?)
    ensures r.Ok? ==> forall k :: k in r.value <==> k.0 in assets && k.1 in payTypes
    ensures r.Ok? ==> forall k :: k in r.value ==>
      FetchP2P(ResolveExchange(exchange).value, t, k.0, fiat, tradeType, k.1, amount) == Ok(r.value[k])
    ensures r.Ok? ==> r.value == ExpectedP2P(ResolveExchange(exchange).value, t, assets, fiat, tradeType, payTypes, amount)
    ensures r.Err? && ResolveExchange(exchange).Ok? ==>
      exists k :: k in submitted && FetchP2P(ResolveExchange(exchange).value, t, k.0, fiat, tradeType, k.1, amount) == Err(r.error)
    ensures r.Err? && ResolveExchange(exchange).Ok? ==>
      Fanout.FirstFailure(submitted, P2PTask(ResolveExchange(exchange).value, t, fiat, tradeType, amount), completion, r.error)
  {
    var resolved := ResolveExchange(exchange);
    if resolved.Err? {
      return Err(resolved.error), [];
    }
    var e := resolved.value;
    submitted := Fanout.Product(assets, payTypes);
    var task := P2PTask(e, t, fiat, tradeType, amount);
    r := Fanout.CollectCompleted(submitted, task, completion);
    if r.Err? {
      Fanout.FirstFailureKey(submitted, task, completion, r.error);
    }
  }

  /**
   * A corollary of GetDataP2P's contract, whose success condition and
   * dict never mention `completion`: two runs that differ only in the
   * order tasks complete agree on success and, when they succeed, on the
   * whole dict.
   */
  method CompletionOrderIrrelevant(exchange: string, assets: seq<string>, fiat: string, tradeType: string,
                                   payTypes: seq<Option<PayType>>, amount: int, t: Transport,
                                   order1: seq<nat>, order2: seq<nat>)
    returns (r1: Result<P2PData>, r2: Result<P2PData>)
    requires Fanout.IsPermutation(order1, |Fanout.Product(assets, payTypes)|)
    requires Fanout.IsPermutation(order2, |Fanout.Product(assets, payTypes)|)
    ensures r1.Ok? == r2.Ok?
    ensures r1.Ok? ==> r1 == r2
  {
    var s1, s2;
    r1, s1 := GetDataP2P(exchange, assets, fiat, tradeType, payTypes, amount, t, order1);
    r2, s2 := GetDataP2P(exchange, assets, fiat, tradeType, payTypes, amount, t, order2);
    if r1.Ok? {
      assert r1.value.Keys == r2.value.Keys;
      forall k | k in r1.value ensures r1.value[k] == r2.value[k] {
        assert Ok(r1.value[k]) == Ok(r2.value[k]);
      }
      assert r1.value == r2.value;
    }
  }

  /** The dict get_data_p2p returns when every task succeeds. */
  function ExpectedP2P(e: Exchange, t: Transport, assets: seq<string>, fiat: string, tradeType: string,
                       payTypes: seq<Option<PayType>>, amount: int): (m: P2PData)
    requires Fanout.AllSucceed(Fanout.Product(assets, payTypes), P2PTask(e, t, fiat, tradeType, amount))
    ensures forall k :: k in m <==> k.0 in assets && k.1 in payTypes
    ensures forall k :: k in m ==> FetchP2P(e, t, k.0, fiat, tradeType, k.1, amount) == Ok(m[k])
  {
    Fanout.Assembled(Fanout.Product(assets, payTypes), P2PTask(e, t, fiat, tradeType, amount))
  }

  /** For repeat-free assets and pay types, the dict has exactly |assets| * |pay_types| keys. */
  lemma ExpectedP2PCard(e: Exchange, t: Transport, assets: seq<string>, fiat: string, tradeType: string,
                        payTypes: seq<Option<PayType>>, amount: int)
    requires Fanout.AllSucceed(Fanout.Product(assets, payTypes), P2PTask(e, t, fiat, tradeType, amount))
    requires Fanout.Distinct(assets) && Fanout.Distinct(payTypes)
    ensures |ExpectedP2P(e, t, assets, fiat, tradeType, payTypes, amount)| == |assets| * |payTypes|
  {
    var m := ExpectedP2P(e, t, assets, fiat, tradeType, payTypes, amount);
    Fanout.ProductCard(assets, payTypes);
    assert m.Keys == Fanout.Elements(Fanout.Product(assets, payTypes));
  }

  // ------------------------------------------------------------- best price

  /** best_price: the first advertisement's price, NO_OFFER for an empty list, KeyError for a missing key. */
  function BestPrice(data: P2PData, asset: string, payType: Option<PayType>): (r: Result<real>)
    ensures r.Err? <==> (asset, payType) !in data
    ensures r.Err? ==> r.error == ResultKeyError(asset, payType)
    ensures r.Ok? ==> r.value == if data[(asset, payType)] == [] then NO_OFFER else data[(asset, payType)][0].price
  {
    if (asset, payType) !in data then Err(ResultKeyError(asset, payType))
    else
      var advs := data[(asset, payType)];
      if advs == [] then Ok(NO_OFFER) else Ok(advs[0].price)
  }

  /** Only the first advertisement matters: whatever follows it, the best price is its price. */
  lemma BestPriceIgnoresTail(data: P2PData, asset: string, payType: Option<PayType>, first: Adv, rest: seq<Adv>)
    ensures BestPrice(data[(asset, payType) := [first] + rest], asset, payType) == Ok(first.price)
  {
  }

  /**
   * A Garantex BUY poll of BTC/RUB whose book has one ask of price
   * 3000000: the aggregated data's best price for (BTC, None) is 3000000.
   */
  lemma GarantexScenario(t: Transport, bids: seq<Level>)
    requires t.garantexDepth("btcrub") == Reply(200, Some(Depth([Level(3000000.0, 0.1, 0.1)], bids)))
    ensures Fanout.AllSucceed(Fanout.Product(["BTC"], [None]), P2PTask(Garantex, t, "RUB", "BUY", 0))
    ensures BestPrice(ExpectedP2P(Garantex, t, ["BTC"], "RUB", "BUY", [None], 0), "BTC", None) == Ok(3000000.0)
  {
    assert GarantexMarket("BTC", "RUB") == "btcrub";
    assert Lower("BUY") == "buy";
    assert GarantexBookSide("BUY") == Ok(Asks);
    assert FilterByAmount([Level(3000000.0, 0.1, 0.1)], 0) == [Adv(None, 3000000.0, 0.1)];
    var advs := FetchGarantexP2P(t, "BTC", "RUB", "BUY", 0);
    assert advs == Ok([Adv(None, 3000000.0, 0.1)]);
    var noPay: seq<Option<PayType>> := [None];
    assert Fanout.Product(["BTC"], noPay) == [("BTC", None)];
  }

  /** The depth example: of the asks (100, amount 2000) and (101, amount 10000), a threshold of 5000 keeps only 101. */
  lemma GarantexThresholdExample()
    ensures FilterByAmount([Level(100.0, 1.0, 2000.0), Level(101.0, 2.0, 10000.0)], 5000) == [Adv(None, 101.0, 2.0)]
  {
  }

  // ------------------------------------------------------------ spot prices

  /** fetch_market_data_binance: the ticker's price for symbol.upper(). */
  function FetchMarketBinance(t: Transport, symbol: string): (r: Result<real>)
    ensures var reply := t.binanceTicker(Upper(symbol));
      && (r.Ok? <==> reply.status == 200 && reply.body.Some?)
      && (r.Ok? ==> r.value == reply.body.value)
      && (reply.status != 200 ==> r == Err(StatusError(reply.status)))
      && (reply.status == 200 && reply.body.None? ==> r == Err(MalformedBody))
  {
    CheckedBody(t.binanceTicker(Upper(symbol)))
  }

  /** The price of the first Sell order of a book; IndexError when it has none. */
  function FirstSellPrice(book: seq<BookOrder>): (r: Result<real>)
    ensures r.Ok? <==> exists i :: 0 <= i < |book| && book[i].side == "Sell"
    ensures r.Ok? ==>
      exists i :: 0 <= i < |book| && book[i].side == "Sell" && r.value == book[i].price && forall j :: 0 <= j < i ==> book[j].side != "Sell"
    ensures r.Err? ==> r.error == IndexError
  {
    if book == [] then Err(IndexError)
    else if book[0].side == "Sell" then Ok(book[0].price)
    else
      var r := FirstSellPrice(book[1..]);
      assert forall i :: 0 < i < |book| ==> book[i] == book[1..][i - 1];
      r
  }

  /** The selection in fetch_market_data_bybit: 0.0 for a missing or empty book, else the first Sell's price. */
  function BybitSpotPrice(book: Option<seq<BookOrder>>): (r: Result<real>)
    ensures (book.None? || book.value == []) ==> r == Ok(0.0)
    ensures book.Some? && book.value != [] ==> r == FirstSellPrice(book.value)
  {
    if book.None? || book.value == [] then Ok(0.0) else FirstSellPrice(book.value)
  }

  /** fetch_market_data_bybit: GET the L2 book of symbol.upper() and select from it. */
  function FetchMarketBybit(t: Transport, symbol: string): (r: Result<real>)
    ensures var reply := t.bybitOrderBook(Upper(symbol));
      && (reply.status != 200 ==> r == Err(StatusError(reply.status)))
      && (reply.status == 200 && reply.body.None? ==> r == Err(MalformedBody))
      && (reply.status == 200 && reply.body.Some? ==> r == BybitSpotPrice(reply.body.value))
  {
    var book :- CheckedBody(t.bybitOrderBook(Upper(symbol)));
    BybitSpotPrice(book)
  }

  /** The selection in fetch_market_data_garantex: the first ask's price; IndexError on an empty ask side. */
  function GarantexSpotPrice(depth: Depth): (r: Result<real>)
    ensures r.Ok? <==> depth.asks != []
    ensures r.Ok? ==> r.value == depth.asks[0].price
    ensures r.Err? ==> r.error == IndexError
  {
    if depth.asks == [] then Err(IndexError) else Ok(depth.asks[0].price)
  }

  /** fetch_market_data_garantex: GET the depth of market symbol.lower() and select from it. */
  function FetchMarketGarantex(t: Transport, symbol: string): (r: Result<real>)
    ensures var reply := t.garantexDepth(Lower(symbol));
      && (reply.status != 200 ==> r == Err(StatusError(reply.status)))
      && (reply.status == 200 && reply.body.None? ==> r == Err(MalformedBody))
      && (reply.status == 200 && reply.body.Some? ==> r == GarantexSpotPrice(reply.body.value))
  {
    var depth :- CheckedBody(t.garantexDepth(Lower(symbol)));
    GarantexSpotPrice(depth)
  }

  /** get_market_data's fetcher lookup: a plain KeyError on exchange.lower(). */
  function ResolveMarketExchange(name: string): (r: Result<Exchange>)
    ensures r.Ok? <==> ResolveExchange(name).Ok?
    ensures r.Ok? ==> r == ResolveExchange(name)
    ensures r.Err? ==> r.error == KeyError(Lower(name))
  {
    match ResolveExchange(name)
    case Ok(e) => Ok(e)
    case Err(_) => Err(KeyError(Lower(name)))
  }

  function FetchMarket(e: Exchange, t: Transport, symbol: string): Result<real>
  {
    match e
    case Binance => FetchMarketBinance(t, symbol)
    case Bybit => FetchMarketBybit(t, symbol)
    case Garantex => FetchMarketGarantex(t, symbol)
  }

  /** One get_market_data task; only called on pairs whose exchange resolved. */
  function MarketTask(t: Transport): MarketKey -> Result<real>
  {
    (k: MarketKey) => match ResolveMarketExchange(k.0)
      case Ok(e) => FetchMarket(e, t, k.1)
      case Err(err) => Err(err)
  }

  /** The position of the first pair, in submission order, whose exchange has no fetcher. */
  function FirstUnknown(pairs: seq<MarketKey>): (r: Option<nat>)
    ensures r.Some? ==> (r.value < |pairs| && ResolveMarketExchange(pairs[r.value].0).Err?
      && forall j :: 0 <= j < r.value ==> ResolveMarketExchange(pairs[j].0).Ok?)
    ensures r.None? <==> forall k :: k in pairs ==> ResolveMarketExchange(k.0).Ok?
  {
    if pairs == [] then None
    else if ResolveMarketExchange(pairs[0].0).Err? then Some(0)
    else match FirstUnknown(pairs[1..])
      case None => None
      case Some(i) => Some(i + 1)
  }

  /**
   * get_market_data: tasks are submitted in product(exchanges, symbols)
   * order, the fetcher lookup raising KeyError at the first unknown
   * exchange (after the pairs before it were submitted); otherwise the
   * dict is filled in completion order.
   */
  method GetMarketData(exchanges: seq<string>, symbols: seq<string>, t: Transport, completion: seq<nat>)
    returns (r: Result<MarketData>, submitted: seq<MarketKey>)
    requires Fanout.IsPermutation(completion, |Fanout.Product(exchanges, symbols)|)
    ensures var pairs := Fanout.Product(exchanges, symbols);
      match FirstUnknown(pairs)
      case Some(i) => r == Err(KeyError(Lower(pairs[i].0))) && submitted == pairs[..i]
      case None => submitted == pairs
    ensures r.Ok? ==> forall k :: k in r.value <==> k.0 in exchanges && k.1 in symbols
    ensures r.Ok? ==> forall k :: k in r.value ==> FetchMarket(ResolveExchange(k.0).value, t, k.1) == Ok(r.value[k])
    ensures r.Ok? <==> forall k :: k in Fanout.Product(exchanges, symbols) ==>
      ResolveExchange(k.0).Ok? && FetchMarket(ResolveExchange(k.0).value, t, k.1).Ok?
    ensures r.Err? && FirstUnknown(Fanout.Product(exchanges, symbols)).None? ==>
      exists k :: k in submitted && ResolveExchange(k.0).Ok? && FetchMarket(ResolveExchange(k.0).value, t, k.1) == Err(r.error)
    ensures r.Err? && FirstUnknown(Fanout.Product(exchanges, symbols)).None? ==>
      Fanout.FirstFailure(submitted, MarketTask(t), completion, r.error)
  {
    var pairs := Fanout.Product(exchanges, symbols);
    var unknown := FirstUnknown(pairs);
    if unknown.Some? {
      var i := unknown.value;
      r, submitted := Err(KeyError(Lower(pairs[i].0))), pairs[..i];
      return;
    }
    submitted := pairs;
    r := Fanout.CollectCompleted(pairs, MarketTask(t), completion);
    if r.Ok? {
      forall k | k in r.value ensures FetchMarket(ResolveExchange(k.0).value, t, k.1) == Ok(r.value[k]) {
        assert MarketTask(t)(k) == Ok(r.value[k]);
      }
    } else {
      Fanout.FirstFailureKey(pairs, MarketTask(t), completion, r.error);
      var k :| k in pairs && MarketTask(t)(k) == Err(r.error);
      assert ResolveMarketExchange(k.0).Ok?;
    }
  }
}
