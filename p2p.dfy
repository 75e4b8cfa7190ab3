/**
 * crypto_parser/p2p.py, the older copy of the P2P logic. Each member is
 * written out as that file writes it (list comprehensions, inline lookup
 * tables) and its contract ties it to its counterpart in Crypto, so the
 * properties proved there hold here too.
 */
module P2P {
  import opened Types
  import opened Ascii
  import Fanout
  import Crypto

  /** fetch_binance: the same POST and the same row-for-row map as fetch_binance_p2p. */
  function FetchBinance(t: Transport, asset: string, fiat: string, tradeType: string,
                        payType: Option<PayType>, amount: int): (r: Result<seq<Adv>>)
    ensures r == Crypto.FetchBinanceP2P(t, asset, fiat, tradeType, payType, amount)
  {
    var reply := t.binanceP2P(BinanceQuery(asset, tradeType, fiat, amount, true, [payType], 1, 20, "all"));
    if reply.status != 200 then Err(StatusError(reply.status))
    else if reply.body.None? then Err(MalformedBody)
    else
      var rows := reply.body.value;
      var prices := seq(|rows|, i requires 0 <= i < |rows| => Adv(Some(rows[i].nickName), rows[i].price, rows[i].tradableQuantity));
      assert prices == Crypto.NormalizeBinance(rows);
      Ok(prices)
  }

  /** fetch_bybit: side, then payment, looked up in its own copies of the two tables before the POST. */
  function FetchBybit(t: Transport, asset: string, fiat: string, tradeType: string,
                      payType: Option<PayType>, amount: int): (r: Result<seq<Adv>>)
    ensures r == Crypto.FetchBybitP2P(t, asset, fiat, tradeType, payType, amount)
  {
    var key := Lower(tradeType);
    if key != "buy" && key != "sell" then Err(KeyError(key))
    else
      var side := if key == "buy" then 1 else 0;
      match payType
      case Some(Known(m)) =>
        var payment := match m
          case Alfa => 1
          case Pochta => 59
          case Qiwi => 62
          case Raiffeisen => 64
          case Tinkoff => 75
          case Rosbank => 185
          case Yandex => 274;
        var reply := t.bybitP2P(BybitQuery(asset, fiat, payment, side, 10, 1, amount));
        if reply.status != 200 then Err(StatusError(reply.status))
        else if reply.body.None? then Err(MalformedBody)
        else
          var rows := reply.body.value;
          var advs := seq(|rows|, i requires 0 <= i < |rows| => Adv(Some(rows[i].nickName), rows[i].price, rows[i].quantity));
          assert advs == Crypto.NormalizeBybit(rows);
          Ok(advs)
      case _ => Err(PayTypeKeyError(payType))
  }

  /** The filtering comprehension of fetch_garantex, levels visited front to back. */
  function KeepByAmount(levels: seq<Level>, threshold: int): (advs: seq<Adv>)
    ensures advs == Crypto.FilterByAmount(levels, threshold)
  {
    if levels == [] then []
    else
      var head := if levels[0].amount >= threshold as real then [Adv(None, levels[0].price, levels[0].volume)] else [];
      head + KeepByAmount(levels[1..], threshold)
  }

  /** fetch_garantex: the depth of asset.lower() + fiat.lower(), asks for buy and bids for sell, filtered by amount. */
  function FetchGarantex(t: Transport, asset: string, fiat: string, tradeType: string,
                         amount: int): (r: Result<seq<Adv>>)
    ensures r == Crypto.FetchGarantexP2P(t, asset, fiat, tradeType, amount)
  {
    var reply := t.garantexDepth(Lower(asset) + Lower(fiat));
    if reply.status != 200 then Err(StatusError(reply.status))
    else if reply.body.None? then Err(MalformedBody)
    else
      var key := Lower(tradeType);
      if key == "buy" then Ok(KeepByAmount(reply.body.value.asks, amount))
      else if key == "sell" then Ok(KeepByAmount(reply.body.value.bids, amount))
      else Err(KeyError(key))
  }

  /** The fetcher get_data submits for one (asset, pay_type) task. */
  function Fetch(e: Crypto.Exchange, t: Transport, asset: string, fiat: string, tradeType: string,
                 payType: Option<PayType>, amount: int): (r: Result<seq<Adv>>)
    ensures r == Crypto.FetchP2P(e, t, asset, fiat, tradeType, payType, amount)
  {
    match e
    case Binance => FetchBinance(t, asset, fiat, tradeType, payType, amount)
    case Bybit => FetchBybit(t, asset, fiat, tradeType, payType, amount)
    case Garantex => FetchGarantex(t, asset, fiat, tradeType, amount)
  }

  function Task(e: Crypto.Exchange, t: Transport, fiat: string, tradeType: string, amount: int): P2PKey -> Result<seq<Adv>>
  {
    (k: P2PKey) => Fetch(e, t, k.0, fiat, tradeType, k.1, amount)
  }

  /**
   * get_data: UnknownExchange before any submission; one task per element
   * of product(assets, pay_types); the dict filled in completion order.
   * It returns what get_data_p2p returns.
   */
  method GetData(exchange: string, assets: seq<string>, fiat: string, tradeType: string,
                 payTypes: seq<Option<PayType>>, amount: int, t: Transport, completion: seq<nat>)
    returns (r: Result<P2PData>, submitted: seq<P2PKey>)
    requires Fanout.IsPermutation(completion, |Fanout.Product(assets, payTypes)|)
    ensures Crypto.ResolveExchange(exchange).Err? ==> r == Err(UnknownExchange(exchange)) && submitted == []
    ensures Crypto.ResolveExchange(exchange).Ok? ==> submitted == Fanout.Product(assets, payTypes)
    ensures r.Ok? <==> (Crypto.ResolveExchange(exchange).Ok? &&
      Fanout.AllSucceed(submitted, Crypto.P2PTask(Crypto.ResolveExchange(exchange).value, t, fiat, tradeType, amount)))
    ensures r.Ok? ==> r.value == Crypto.ExpectedP2P(Crypto.ResolveExchange(exchange).value, t, assets, fiat, tradeType, payTypes, amount)
    ensures r.Err? && Crypto.ResolveExchange(exchange).Ok? ==>
      exists k :: k in submitted && Crypto.FetchP2P(Crypto.ResolveExchange(exchange).value, t, k.0, fiat, tradeType, k.1, amount) == Err(r.error)
    ensures r.Err? && Crypto.ResolveExchange(exchange).Ok? ==>
      Fanout.FirstFailure(submitted, Crypto.P2PTask(Crypto.ResolveExchange(exchange).value, t, fiat, tradeType, amount), completion, r.error)
  {
    var resolved := Crypto.ResolveExchange(exchange);
    if resolved.Err? {
      return Err(UnknownExchange(exchange)), [];
    }
    var e := resolved.value;
    submitted := Fanout.Product(assets, payTypes);
    var task := Task(e, t, fiat, tradeType, amount);
    assert forall k :: task(k) == Crypto.P2PTask(e, t, fiat, tradeType, amount)(k);
    r := Fanout.CollectCompleted(submitted, task, completion);
    if r.Ok? {
      var expected := Crypto.ExpectedP2P(e, t, assets, fiat, tradeType, payTypes, amount);
      assert r.value.Keys == expected.Keys;
      forall k | k in r.value ensures r.value[k] == expected[k] {
        assert Ok(r.value[k]) == Ok(expected[k]);
      }
      assert r.value == expected;
    } else {
      Fanout.FirstFailureSame(submitted, task, Crypto.P2PTask(e, t, fiat, tradeType, amount), completion, r.error);
      Fanout.FirstFailureKey(submitted, Crypto.P2PTask(e, t, fiat, tradeType, amount), completion, r.error);
    }
  }

  /** best_price of p2p.py: the first price, 1_000_000_000 for an empty list, KeyError for a missing key. */
  function BestPrice(data: P2PData, asset: string, payType: Option<PayType>): (r: Result<real>)
    ensures r == Crypto.BestPrice(data, asset, payType)
    ensures (asset, payType) in data && data[(asset, payType)] == [] ==> r == Ok(1_000_000_000.0)
    ensures (asset, payType) in data && data[(asset, payType)] != [] ==> r == Ok(data[(asset, payType)][0].price)
  {
    if (asset, payType) !in data then Err(ResultKeyError(asset, payType))
    else
      var advList := data[(asset, payType)];
      if |advList| > 0 then Ok(advList[0].price) else Ok(1_000_000_000.0)
  }
}
