/**
 * The values that flow through the price-aggregation core: advertisements,
 * the errors the Python code raises, payment types, and the shape of the
 * exchanges' HTTP replies once decoded.
 */
module Types {

  /** P2PAdv(nick, price, quantity); `nick` is None for order-book levels. */
  datatype Adv = Adv(nick: Option<string>, price: real, quantity: real)

  datatype Option<T> = None | Some(value: T)

  /** The exceptions the core can raise, one constructor per cause. */
  datatype Error =
    | UnknownExchange(name: string)                   // no fetcher / no range for the name
    | KeyError(key: string)                           // a dict lookup on a string key missed
    | PayTypeKeyError(payType: Option<PayType>)       // the Bybit payment table has no entry
    | ResultKeyError(asset: string, payType: Option<PayType>)  // best_price on a key the data lacks
    | MarketKeyError(exchange: string, symbol: string)         // data[(e, s)] missed
    | IndexError                                      // [0] of an empty list
    | StatusError(status: int)                        // assert resp.status_code == 200 failed
    | MalformedBody                                   // the body did not decode to the expected shape

  /** A value or the exception that replaced it. */
  datatype Result<T> = Ok(value: T) | Err(error: Error) {
    predicate IsFailure() { Err? }

    function PropagateFailure<U>(): Result<U>
      requires Err?
    {
      Err(error)
    }

    function Extract(): T
      requires Ok?
    {
      value
    }
  }

  /** The seven payment constants of crypto_parser.constant, distinct from one another. */
  datatype PayMethod = Alfa | Pochta | Qiwi | Raiffeisen | Tinkoff | Rosbank | Yandex

  /**
   * A pay type string: one of the seven constants, or any other string
   * (which then equals none of the constants).
   */
  datatype PayType = Known(payMethod: PayMethod) | OtherPay(name: string)

  /** The key of a P2P result: (asset, pay_type), pay_type None for Garantex. */
  type P2PKey = (string, Option<PayType>)

  type P2PData = map<P2PKey, seq<Adv>>

  /** The key of a spot-price result: (exchange, symbol) as the caller spelled them. */
  type MarketKey = (string, string)

  type MarketData = map<MarketKey, real>

  /** An HTTP reply: its status code, and its body if it decoded to the expected shape. */
  datatype Reply<T> = Reply(status: int, body: Option<T>)

  /** One row of Binance's "data": advertiser.nickName, adv.price, adv.tradableQuantity. */
  datatype BinanceRow = BinanceRow(nickName: string, price: real, tradableQuantity: real)

  /** One row of Bybit's result.items: nickName, price, quantity. */
  datatype BybitRow = BybitRow(nickName: string, price: real, quantity: real)

  /** One level of a Garantex depth book. */
  datatype Level = Level(price: real, volume: real, amount: real)

  /** The Garantex /depth reply: both sides of the book. */
  datatype Depth = Depth(asks: seq<Level>, bids: seq<Level>)

  /** One order of Bybit's public L2 order book. */
  datatype BookOrder = BookOrder(side: string, price: real)

  /** The JSON body posted to Binance's advertisement search. */
  datatype BinanceQuery = BinanceQuery(
    asset: string, tradeType: string, fiat: string, transAmount: int,
    merchantCheck: bool, payTypes: seq<Option<PayType>>, page: nat, rows: nat, filterType: string)

  /** The form posted to Bybit's OTC item list. */
  datatype BybitQuery = BybitQuery(
    tokenId: string, currencyId: string, payment: int, side: int, size: nat, page: nat, amount: int)

  /**
   * The network, one total function per endpoint the core calls; a query
   * parameter goes in, a reply comes out. The Garantex depth endpoint
   * serves both the P2P and the spot-price fetchers.
   */
  datatype Transport = Transport(
    binanceP2P: BinanceQuery -> Reply<seq<BinanceRow>>,
    bybitP2P: BybitQuery -> Reply<seq<BybitRow>>,
    garantexDepth: string -> Reply<Depth>,
    binanceTicker: string -> Reply<real>,
    bybitOrderBook: string -> Reply<Option<seq<BookOrder>>>)

  /**
   * The status check every fetcher makes (a status other than 200 fails),
   * followed by decoding the body; the status is checked first.
   */
  function CheckedBody<T>(reply: Reply<T>): (r: Result<T>)
    ensures reply.status != 200 ==> r == Err(StatusError(reply.status))
    ensures r.Ok? <==> reply.status == 200 && reply.body.Some?
    ensures r.Ok? ==> r.value == reply.body.value
    ensures r.Err? ==> r.error in {StatusError(reply.status), MalformedBody}
  {
    if reply.status != 200 then Err(StatusError(reply.status))
    else if reply.body.None? then Err(MalformedBody)
    else Ok(reply.body.value)
  }
}
