/**
 * main.py: the pure parts of update_p2p_data_table_for_exchange and
 * update_market_data_tables. The sheet writer, the clock and the logger are
 * left out; "the batch handed to the writer" and "the error logged" are
 * the outcomes.
 */
module Tables {
  import opened Types
  import opened Ascii
  import Fanout
  import Crypto

  // The asset and symbol constants of crypto_parser.constant, taken to be
  // the tickers they name, in upper case.
  const USDT := "USDT"
  const BTC := "BTC"
  const ETH := "ETH"
  const BTCUSDT := "BTCUSDT"
  const ETHUSDT := "ETHUSDT"
  const ETHBTC := "ETHBTC"
  const USDTETH := "USDTETH"
  const USDTBTC := "USDTBTC"
  const BTCETH := "BTCETH"

  /** The three assets, one grid row each: USDT, then BTC, then ETH. */
  const ASSETS: seq<string> := [USDT, BTC, ETH]

  /** The seven bank pay types, in column order. */
  const BANK_PAY_TYPES: seq<Option<PayType>> := [
    Some(Known(Tinkoff)), Some(Known(Rosbank)), Some(Known(Qiwi)), Some(Known(Yandex)),
    Some(Known(Alfa)), Some(Known(Pochta)), Some(Known(Raiffeisen))]

  /** A cell the sheet receives. */
  datatype Cell = Text(text: string) | Number(number: real)

  /** One update record: a range of the sheet and the rows of cells written there. */
  datatype WriteRecord = WriteRecord(range: string, values: seq<seq<Cell>>)

  /** What one scheduled update ends in: an exception escaping it, an error it logged, or a batch it wrote. */
  datatype Outcome = Raised(error: Error) | Logged(error: Error) | Written(batch: seq<WriteRecord>)

  /** Each of the seven payment constants has a column. */
  lemma BankPayTypesComplete(m: PayMethod)
    ensures Some(Known(m)) in BANK_PAY_TYPES
  {
    match m
    case Tinkoff => assert BANK_PAY_TYPES[0] == Some(Known(m));
    case Rosbank => assert BANK_PAY_TYPES[1] == Some(Known(m));
    case Qiwi => assert BANK_PAY_TYPES[2] == Some(Known(m));
    case Yandex => assert BANK_PAY_TYPES[3] == Some(Known(m));
    case Alfa => assert BANK_PAY_TYPES[4] == Some(Known(m));
    case Pochta => assert BANK_PAY_TYPES[5] == Some(Known(m));
    case Raiffeisen => assert BANK_PAY_TYPES[6] == Some(Known(m));
  }

  /**
   * pay_types: [None] for Garantex (no payment concept), otherwise the seven
   * bank methods, each once, each one Bybit has an id for.
   */
  function PayTypesFor(exchange: string): (r: seq<Option<PayType>>)
    ensures r == [None] <==> Lower(exchange) == "garantex"
    ensures Lower(exchange) != "garantex" ==> r == BANK_PAY_TYPES
    ensures Lower(exchange) != "garantex" ==> |r| == 7 && Fanout.Distinct(r)
    ensures Lower(exchange) != "garantex" ==> forall m :: Some(Known(m)) in r
    ensures Lower(exchange) != "garantex" ==> forall p :: p in r ==> Crypto.BybitPayment(p).Ok?
  {
    if Lower(exchange) != "garantex" then
      assert forall m :: Some(Known(m)) in BANK_PAY_TYPES by {
        forall m ensures Some(Known(m)) in BANK_PAY_TYPES { BankPayTypesComplete(m); }
      }
      BANK_PAY_TYPES
    else [None]
  }

  // ------------------------------------------------------------ A1 ranges

  /** A sheet range such as "C5:I7": the corner columns as letters and the corner rows as numbers. */
  datatype A1Range = A1Range(left: string, top: nat, right: string, bottom: nat)

  predicate AllLetters(s: string)
  {
    forall i :: 0 <= i < |s| ==> 'A' <= s[i] <= 'Z'
  }

  predicate AllDigits(s: string)
  {
    forall i :: 0 <= i < |s| ==> '0' <= s[i] <= '9'
  }

  /** Both corners name a column by one or more capital letters. */
  predicate WellFormed(r: A1Range)
  {
    r.left != [] && AllLetters(r.left) && r.right != [] && AllLetters(r.right)
  }

  /** Column letters as a number: A = 1, Z = 26, AA = 27. */
  function ColumnNumber(letters: string): nat
  {
    if letters == [] then 0
    else
      var last := letters[|letters| - 1];
      ColumnNumber(letters[..|letters| - 1]) * 26 + (if 'A' <= last <= 'Z' then last as int - 'A' as int + 1 else 0)
  }

  /** The value of a string of decimal digits. */
  function DecimalValue(digits: string): nat
  {
    if digits == [] then 0
    else
      var last := digits[|digits| - 1];
      DecimalValue(digits[..|digits| - 1]) * 10 + (if '0' <= last <= '9' then last as int - '0' as int else 0)
  }

  /** The decimal text of n, without leading zeros. */
  function DecimalText(n: nat): (s: string)
    ensures s != [] && AllDigits(s)
    ensures DecimalValue(s) == n
  {
    var digit := ['0' + ((n % 10) as char)];
    if n < 10 then digit
    else
      var s := DecimalText(n / 10) + digit;
      assert s[..|s| - 1] == DecimalText(n / 10);
      s
  }

  /** The text of the range as the sheet receives it: "C5:I7". */
  function Render(r: A1Range): string
  {
    r.left + DecimalText(r.top) + ":" + r.right + DecimalText(r.bottom)
  }

  /** The (rows, columns) a range spans; None when its corners are out of order. */
  function Shape(r: A1Range): Option<(nat, nat)>
  {
    var c0, c1 := ColumnNumber(r.left), ColumnNumber(r.right);
    if c0 <= c1 && r.top <= r.bottom then Some((r.bottom - r.top + 1, c1 - c0 + 1)) else None
  }

  // ------------------------------------------------------------ P2P tables

  /** The buy and sell ranges of one exchange's block of the sheet. */
  const BINANCE_RANGES: map<string, (A1Range, A1Range)> := map[
    "buy" := (A1Range("B", 2, "B", 3), A1Range("C", 5, "I", 7)),
    "sell" := (A1Range("B", 9, "B", 10), A1Range("C", 12, "I", 14))]
  const BYBIT_RANGES: map<string, (A1Range, A1Range)> := map[
    "buy" := (A1Range("K", 2, "K", 3), A1Range("L", 5, "R", 7)),
    "sell" := (A1Range("K", 9, "K", 10), A1Range("L", 12, "R", 14))]
  const GARANTEX_RANGES: map<string, (A1Range, A1Range)> := map[
    "buy" := (A1Range("AU", 2, "AU", 3), A1Range("AV", 5, "AV", 7)),
    "sell" := (A1Range("AU", 9, "AU", 10), A1Range("AV", 12, "AV", 14))]

  /** The two-level range dict: exchange, then trade type, to (updated-at range, table range). */
  const P2P_RANGES: map<string, map<string, (A1Range, A1Range)>> :=
    map["binance" := BINANCE_RANGES, "bybit" := BYBIT_RANGES, "garantex" := GARANTEX_RANGES]

  /** The Binance ranges render as "B2:B3", "C5:I7", "B9:B10" and "C12:I14". */
  lemma BinanceRangeTexts()
    ensures Render(BINANCE_RANGES["buy"].0) == "B2:B3" && Render(BINANCE_RANGES["buy"].1) == "C5:I7"
    ensures Render(BINANCE_RANGES["sell"].0) == "B9:B10" && Render(BINANCE_RANGES["sell"].1) == "C12:I14"
  {
  }

  /** The Bybit ranges render as "K2:K3", "L5:R7", "K9:K10" and "L12:R14". */
  lemma BybitRangeTexts()
    ensures Render(BYBIT_RANGES["buy"].0) == "K2:K3" && Render(BYBIT_RANGES["buy"].1) == "L5:R7"
    ensures Render(BYBIT_RANGES["sell"].0) == "K9:K10" && Render(BYBIT_RANGES["sell"].1) == "L12:R14"
  {
  }

  /** The Garantex ranges render as "AU2:AU3", "AV5:AV7", "AU9:AU10" and "AV12:AV14". */
  lemma GarantexRangeTexts()
    ensures Render(GARANTEX_RANGES["buy"].0) == "AU2:AU3" && Render(GARANTEX_RANGES["buy"].1) == "AV5:AV7"
    ensures Render(GARANTEX_RANGES["sell"].0) == "AU9:AU10" && Render(GARANTEX_RANGES["sell"].1) == "AV12:AV14"
  {
  }

  /** An updated-at range of two rows in one column and a table of 3 asset rows by `columns`. */
  predicate Fits(ranges: (A1Range, A1Range), columns: nat)
  {
    && WellFormed(ranges.0) && Shape(ranges.0) == Some((2, 1))
    && WellFormed(ranges.1) && Shape(ranges.1) == Some((|ASSETS|, columns))
  }

  /** Every entry of the range dict fits its grid: seven pay-type columns, one for Garantex. */
  lemma P2PRangesFit(e: string, tt: string)
    requires e in P2P_RANGES && tt in P2P_RANGES[e]
    ensures Fits(P2P_RANGES[e][tt], if e == "garantex" then 1 else 7)
  {
    if e == "binance" {
      assert P2P_RANGES[e] == BINANCE_RANGES;
      if tt == "buy" {
        assert BINANCE_RANGES[tt] == (A1Range("B", 2, "B", 3), A1Range("C", 5, "I", 7));
      } else {
        assert BINANCE_RANGES[tt] == (A1Range("B", 9, "B", 10), A1Range("C", 12, "I", 14));
      }
    } else if e == "bybit" {
      assert P2P_RANGES[e] == BYBIT_RANGES;
      if tt == "buy" {
        assert BYBIT_RANGES[tt] == (A1Range("K", 2, "K", 3), A1Range("L", 5, "R", 7));
      } else {
        assert BYBIT_RANGES[tt] == (A1Range("K", 9, "K", 10), A1Range("L", 12, "R", 14));
      }
    } else {
      assert P2P_RANGES[e] == GARANTEX_RANGES;
      if tt == "buy" {
        assert GARANTEX_RANGES[tt] == (A1Range("AU", 2, "AU", 3), A1Range("AV", 5, "AV", 7));
      } else {
        assert GARANTEX_RANGES[tt] == (A1Range("AU", 9, "AU", 10), A1Range("AV", 12, "AV", 14));
      }
    }
  }

  /** The dict's keys: three exchanges, each with buy and sell. */
  lemma P2PRangesKeys(e: string, tt: string)
    ensures e in P2P_RANGES && tt in P2P_RANGES[e] <==> e in {"binance", "bybit", "garantex"} && tt in {"buy", "sell"}
  {
    assert P2P_RANGES.Keys == {"binance", "bybit", "garantex"};
    if e in P2P_RANGES {
      assert P2P_RANGES[e].Keys == {"buy", "sell"};
    }
  }

  /**
   * The range lookup keyed by exchange.lower() and trade_type.lower();
   * a miss on either level is UnknownExchange("exchange/trade_type").
   * Every table range spans one row per asset and one column per pay type,
   * and every updated-at range the two rows of "Updated at" and the time.
   */
  function TableRanges(exchange: string, tradeType: string): (r: Result<(A1Range, A1Range)>)
    ensures r.Ok? <==> Lower(exchange) in {"binance", "bybit", "garantex"} && Lower(tradeType) in {"buy", "sell"}
    ensures r.Err? ==> r.error == UnknownExchange(exchange + "/" + tradeType)
    ensures r.Ok? ==> r.value == P2P_RANGES[Lower(exchange)][Lower(tradeType)]
    ensures r.Ok? ==> Fits(r.value, |PayTypesFor(exchange)|)
  {
    var e, tt := Lower(exchange), Lower(tradeType);
    P2PRangesKeys(e, tt);
    if e in P2P_RANGES && tt in P2P_RANGES[e] then
      P2PRangesFit(e, tt);
      Ok(P2P_RANGES[e][tt])
    else Err(UnknownExchange(exchange + "/" + tradeType))
  }

  /** A BYBIT SELL job gets Bybit's sell ranges, L12:R14 for the table. */
  lemma BybitSellRanges()
    ensures TableRanges("BYBIT", "SELL") == Ok(BYBIT_RANGES["sell"])
    ensures Render(TableRanges("BYBIT", "SELL").value.1) == "L12:R14"
  {
    assert Lower("BYBIT") == "bybit" && Lower("SELL") == "sell";
  }

  /** One grid row: best_price for the asset under each pay type, the first missing key raising. */
  function GridRow(data: P2PData, asset: string, payTypes: seq<Option<PayType>>): (r: Result<seq<real>>)
    ensures r.Ok? <==> forall p :: p in payTypes ==> (asset, p) in data
    ensures r.Ok? ==> |r.value| == |payTypes|
    ensures r.Ok? ==> forall j :: 0 <= j < |payTypes| ==> Crypto.BestPrice(data, asset, payTypes[j]) == Ok(r.value[j])
    ensures r.Err? ==> exists p :: p in payTypes && (asset, p) !in data && r.error == ResultKeyError(asset, p)
  {
    if payTypes == [] then Ok([])
    else
      var first :- Crypto.BestPrice(data, asset, payTypes[0]);
      var rest :- GridRow(data, asset, payTypes[1..]);
      assert forall j :: 0 < j < |payTypes| ==> payTypes[j] == payTypes[1..][j - 1];
      Ok([first] + rest)
  }

  /** The price grid: a row per asset, a column per pay type, each cell that pair's best price. */
  function ValuesGrid(data: P2PData, assets: seq<string>, payTypes: seq<Option<PayType>>): (r: Result<seq<seq<real>>>)
    ensures r.Ok? <==> forall k :: k in Fanout.Product(assets, payTypes) ==> k in data
    ensures r.Ok? ==> |r.value| == |assets|
    ensures r.Ok? ==> forall i :: 0 <= i < |assets| ==> |r.value[i]| == |payTypes|
    ensures r.Ok? ==> forall i, j :: 0 <= i < |assets| && 0 <= j < |payTypes| ==>
      Crypto.BestPrice(data, assets[i], payTypes[j]) == Ok(r.value[i][j])
  {
    if assets == [] then Ok([])
    else
      var row :- GridRow(data, assets[0], payTypes);
      var rest :- ValuesGrid(data, assets[1..], payTypes);
      assert forall i :: 0 < i < |assets| ==> assets[i] == assets[1..][i - 1];
      Ok([row] + rest)
  }

  function NumberRows(grid: seq<seq<real>>): (cells: seq<seq<Cell>>)
    ensures |cells| == |grid|
    ensures forall i :: 0 <= i < |grid| ==> |cells[i]| == |grid[i]|
    ensures forall i, j :: 0 <= i < |grid| && 0 <= j < |grid[i]| ==> cells[i][j] == Number(grid[i][j])
  {
    seq(|grid|, i requires 0 <= i < |grid| => seq(|grid[i]|, j requires 0 <= j < |grid[i]| => Number(grid[i][j])))
  }

  /** The (exchange, trade_type) of each P2P job the scheduler registers, spelled as it spells them. */
  const SCHEDULED_JOBS: seq<(string, string)> := [
    ("Binance", "BUY"), ("Binance", "SELL"), ("BYBIT", "BUY"),
    ("BYBIT", "SELL"), ("Garantex", "BUY"), ("Garantex", "SELL")]

  /** Every scheduled job finds its ranges, so none of them raises UnknownExchange. */
  lemma ScheduledJobHasRanges(i: nat)
    requires i < |SCHEDULED_JOBS|
    ensures TableRanges(SCHEDULED_JOBS[i].0, SCHEDULED_JOBS[i].1).Ok?
  {
    assert Lower("Binance") == "binance" && Lower("BYBIT") == "bybit" && Lower("Garantex") == "garantex";
    assert Lower("BUY") == "buy" && Lower("SELL") == "sell";
  }

  /** `cells` is the grid of best prices: a row per asset, a Number per pay type. */
  predicate IsPriceGrid(cells: seq<seq<Cell>>, data: P2PData, assets: seq<string>, payTypes: seq<Option<PayType>>)
  {
    && |cells| == |assets|
    && (forall i :: 0 <= i < |assets| ==> |cells[i]| == |payTypes|)
    && (forall i, j :: 0 <= i < |assets| && 0 <= j < |payTypes| ==>
          cells[i][j].Number? && Crypto.BestPrice(data, assets[i], payTypes[j]) == Ok(cells[i][j].number))
  }

  /** `batch` is the to_write list: the time under "Updated at", then the price grid. */
  predicate IsP2PBatch(batch: seq<WriteRecord>, ranges: (A1Range, A1Range), data: P2PData,
                       payTypes: seq<Option<PayType>>, now: string)
  {
    && |batch| == 2
    && batch[0] == WriteRecord(Render(ranges.0), [[Text("Updated at")], [Text(now)]])
    && batch[1].range == Render(ranges.1)
    && IsPriceGrid(batch[1].values, data, ASSETS, payTypes)
  }

  /** values and to_write, built once get_data_p2p has returned. */
  function P2PBatch(ranges: (A1Range, A1Range), data: P2PData, payTypes: seq<Option<PayType>>, now: string)
    : (r: Result<seq<WriteRecord>>)
    ensures r.Ok? <==> forall k :: k in Fanout.Product(ASSETS, payTypes) ==> k in data
    ensures r.Ok? ==> IsP2PBatch(r.value, ranges, data, payTypes, now)
  {
    var values :- ValuesGrid(data, ASSETS, payTypes);
    Ok([WriteRecord(Render(ranges.0), [[Text("Updated at")], [Text(now)]]),
        WriteRecord(Render(ranges.1), NumberRows(values))])
  }

  /**
   * update_p2p_data_table_for_exchange without the clock and the writer:
   * `now` is current_datetime(), and a Written outcome is the batch given
   * to write_spread_data. Only the range lookup's UnknownExchange escapes;
   * it is raised before anything is fetched. A failed fetch is logged.
   */
  method UpdateP2PTable(exchange: string, tradeType: string, amount: int, now: string,
                        t: Transport, completion: seq<nat>)
    returns (out: Outcome)
    requires Fanout.IsPermutation(completion, |Fanout.Product(ASSETS, PayTypesFor(exchange))|)
    ensures TableRanges(exchange, tradeType).Err? ==> out == Raised(UnknownExchange(exchange + "/" + tradeType))
    ensures out.Raised? ==> TableRanges(exchange, tradeType).Err?
    ensures TableRanges(exchange, tradeType).Ok? ==> Crypto.ResolveExchange(exchange).Ok?
    ensures TableRanges(exchange, tradeType).Ok? ==>
      (out.Written? <==> Fanout.AllSucceed(Fanout.Product(ASSETS, PayTypesFor(exchange)),
        Crypto.P2PTask(Crypto.ResolveExchange(exchange).value, t, "RUB", tradeType, amount)))
    ensures out.Logged? ==> TableRanges(exchange, tradeType).Ok?
    ensures out.Logged? ==> exists k :: (k in Fanout.Product(ASSETS, PayTypesFor(exchange)) &&
      Crypto.FetchP2P(Crypto.ResolveExchange(exchange).value, t, k.0, "RUB", tradeType, k.1, amount) == Err(out.error))
    ensures out.Logged? ==> Fanout.FirstFailure(Fanout.Product(ASSETS, PayTypesFor(exchange)),
      Crypto.P2PTask(Crypto.ResolveExchange(exchange).value, t, "RUB", tradeType, amount), completion, out.error)
    ensures out.Written? ==>
      IsP2PBatch(out.batch, TableRanges(exchange, tradeType).value,
        Crypto.ExpectedP2P(Crypto.ResolveExchange(exchange).value, t, ASSETS, "RUB", tradeType, PayTypesFor(exchange), amount),
        PayTypesFor(exchange), now)
  {
    var payTypes := PayTypesFor(exchange);
    var ranges := TableRanges(exchange, tradeType);
    if ranges.Err? {
      return Raised(ranges.error);
    }
    var data, _ := Crypto.GetDataP2P(exchange, ASSETS, "RUB", tradeType, payTypes, amount, t, completion);
    if data.Err? {
      return Logged(data.error);
    }
    var batch := P2PBatch(ranges.value, data.value, payTypes, now);
    assert batch.Ok?;
    out := Written(batch.value);
  }

  // ----------------------------------------------------------- market data

  /** The three exchanges of the spot-price tables, named in lower case. */
  const EXCHANGES: seq<string> := ["binance", "bybit", "garantex"]

  /** The six spot symbols, in the order the records are written for each exchange. */
  const SYMBOLS: seq<string> := [BTCUSDT, ETHUSDT, ETHBTC, USDTETH, USDTBTC, BTCETH]

  /** One exchange's block of spot-price cells, keyed by symbol. */
  const BINANCE_CELLS: map<string, string> := map[
    ETHUSDT := "C16", BTCUSDT := "C17", ETHBTC := "E16", USDTETH := "E17", USDTBTC := "G16", BTCETH := "G17"]
  const BYBIT_CELLS: map<string, string> := map[
    ETHUSDT := "L16", BTCUSDT := "L17", ETHBTC := "N16", USDTETH := "N17", USDTBTC := "P16", BTCETH := "P17"]
  const GARANTEX_CELLS: map<string, string> := map[
    ETHUSDT := "AV16", BTCUSDT := "AV17", ETHBTC := "AX16", USDTETH := "AX17", USDTBTC := "AZ16", BTCETH := "AZ17"]

  /** The market ranges dict: exchange, then symbol, to a cell. */
  const MARKET_RANGES: map<string, map<string, string>> :=
    map["binance" := BINANCE_CELLS, "bybit" := BYBIT_CELLS, "garantex" := GARANTEX_CELLS]

  /** The fixed exchange names are already lower case. */
  lemma ExchangeNamesLower(e: string)
    requires e in EXCHANGES
    ensures Lower(e) == e
  {
  }

  /** The fixed exchange names resolve, and each has a block of cells. */
  lemma ExchangeNamesResolve(e: string)
    requires e in EXCHANGES
    ensures Crypto.ResolveExchange(e).Ok? && e in MARKET_RANGES
  {
    ExchangeNamesLower(e);
  }

  /** The fixed symbols are already upper case. */
  lemma SymbolNamesUpper(s: string)
    requires s in SYMBOLS
    ensures Upper(s) == s
  {
  }

  predicate MarketRangesHave(e: string, s: string)
  {
    Lower(e) in MARKET_RANGES && Upper(s) in MARKET_RANGES[Lower(e)]
  }

  /** Every (exchange, symbol) of the fixed lists has a range cell. */
  lemma MarketRangesCover(e: string, s: string)
    requires e in EXCHANGES && s in SYMBOLS
    ensures MarketRangesHave(e, s)
  {
    ExchangeNamesLower(e);
    ExchangeNamesResolve(e);
    SymbolNamesUpper(s);
    assert s in BINANCE_CELLS && s in BYBIT_CELLS && s in GARANTEX_CELLS;
  }

  /**
   * The record for one (exchange, symbol): the cell found under the
   * lower-cased exchange and the upper-cased symbol, holding the pair's
   * price as a one-cell grid. The cell is looked up before the price.
   */
  function MarketRecord(e: string, s: string, data: MarketData): (r: Result<WriteRecord>)
    ensures r.Ok? <==> Lower(e) in MARKET_RANGES && Upper(s) in MARKET_RANGES[Lower(e)] && (e, s) in data
    ensures r.Ok? ==> r.value == WriteRecord(MARKET_RANGES[Lower(e)][Upper(s)], [[Number(data[(e, s)])]])
    ensures Lower(e) !in MARKET_RANGES ==> r == Err(KeyError(Lower(e)))
    ensures Lower(e) in MARKET_RANGES && Upper(s) !in MARKET_RANGES[Lower(e)] ==> r == Err(KeyError(Upper(s)))
    ensures MarketRangesHave(e, s) && (e, s) !in data ==> r == Err(MarketKeyError(e, s))
  {
    if Lower(e) !in MARKET_RANGES then Err(KeyError(Lower(e)))
    else if Upper(s) !in MARKET_RANGES[Lower(e)] then Err(KeyError(Upper(s)))
    else if (e, s) !in data then Err(MarketKeyError(e, s))
    else Ok(WriteRecord(MARKET_RANGES[Lower(e)][Upper(s)], [[Number(data[(e, s)])]]))
  }

  /** to_write: one record per pair, in product(exchanges, symbols) order; the first failing record raises. */
  function MarketRecords(pairs: seq<MarketKey>, data: MarketData): (r: Result<seq<WriteRecord>>)
    ensures r.Ok? <==> forall k :: k in pairs ==> MarketRecord(k.0, k.1, data).Ok?
    ensures r.Ok? ==> |r.value| == |pairs|
    ensures r.Ok? ==> forall i :: 0 <= i < |pairs| ==> MarketRecord(pairs[i].0, pairs[i].1, data) == Ok(r.value[i])
  {
    if pairs == [] then Ok([])
    else
      var first :- MarketRecord(pairs[0].0, pairs[0].1, data);
      var rest :- MarketRecords(pairs[1..], data);
      assert forall i :: 0 < i < |pairs| ==> pairs[i] == pairs[1..][i - 1];
      Ok([first] + rest)
  }

  /**
   * For data keyed by the whole product (what get_market_data returns),
   * to_write never raises and has 3 * 6 = 18 records in product order.
   */
  lemma MarketRecordsComplete(data: MarketData)
    requires forall k :: k in Fanout.Product(EXCHANGES, SYMBOLS) ==> k in data
    ensures MarketRecords(Fanout.Product(EXCHANGES, SYMBOLS), data).Ok?
    ensures |MarketRecords(Fanout.Product(EXCHANGES, SYMBOLS), data).value| == 18
  {
    var pairs := Fanout.Product(EXCHANGES, SYMBOLS);
    forall k | k in pairs ensures MarketRecord(k.0, k.1, data).Ok? {
      MarketRangesCover(k.0, k.1);
    }
    Fanout.ProductLength(EXCHANGES, SYMBOLS);
  }

  /** `rec` is the cell of (e, s) holding the spot price e's exchange quotes for s. */
  predicate IsMarketCell(rec: WriteRecord, e: string, s: string, t: Transport)
  {
    && MarketRangesHave(e, s) && Crypto.ResolveExchange(e).Ok?
    && Crypto.FetchMarket(Crypto.ResolveExchange(e).value, t, s).Ok?
    && rec == WriteRecord(MARKET_RANGES[Lower(e)][Upper(s)],
                          [[Number(Crypto.FetchMarket(Crypto.ResolveExchange(e).value, t, s).value)]])
  }

  /** `batch` holds, for each pair in order, its cell and the spot price the pair's exchange quotes. */
  predicate IsMarketBatch(batch: seq<WriteRecord>, pairs: seq<MarketKey>, t: Transport)
  {
    && |batch| == |pairs|
    && forall i :: 0 <= i < |pairs| ==> IsMarketCell(batch[i], pairs[i].0, pairs[i].1, t)
  }

  /**
   * When every pair has a cell, resolves, and its dict entry is what its
   * exchange quotes, to_write is that batch.
   */
  lemma {:induction false} MarketRecordsBatch(pairs: seq<MarketKey>, data: MarketData, t: Transport)
    requires forall k :: k in pairs ==>
      MarketRangesHave(k.0, k.1) && Crypto.ResolveExchange(k.0).Ok? && k in data
      && Crypto.FetchMarket(Crypto.ResolveExchange(k.0).value, t, k.1) == Ok(data[k])
    ensures MarketRecords(pairs, data).Ok?
    ensures IsMarketBatch(MarketRecords(pairs, data).value, pairs, t)
  {
    if pairs != [] {
      MarketRecordsBatch(pairs[1..], data, t);
      assert pairs[0] in pairs;
    }
  }

  /**
   * update_market_data_tables without the writer: nothing escapes it; a
   * Written outcome is the 18-record batch built from get_market_data's dict.
   */
  method UpdateMarketTables(t: Transport, completion: seq<nat>) returns (out: Outcome)
    requires Fanout.IsPermutation(completion, |Fanout.Product(EXCHANGES, SYMBOLS)|)
    ensures !out.Raised?
    ensures out.Written? <==> forall k :: k in Fanout.Product(EXCHANGES, SYMBOLS) ==>
      Crypto.ResolveExchange(k.0).Ok? && Crypto.FetchMarket(Crypto.ResolveExchange(k.0).value, t, k.1).Ok?
    ensures out.Written? ==> |out.batch| == 18 && IsMarketBatch(out.batch, Fanout.Product(EXCHANGES, SYMBOLS), t)
    ensures out.Logged? ==> exists k :: (k in Fanout.Product(EXCHANGES, SYMBOLS) && Crypto.ResolveExchange(k.0).Ok?
      && Crypto.FetchMarket(Crypto.ResolveExchange(k.0).value, t, k.1) == Err(out.error))
    ensures out.Logged? ==> Fanout.FirstFailure(Fanout.Product(EXCHANGES, SYMBOLS), Crypto.MarketTask(t), completion, out.error)
  {
    var pairs := Fanout.Product(EXCHANGES, SYMBOLS);
    Fanout.ProductLength(EXCHANGES, SYMBOLS);
    forall k | k in pairs ensures Crypto.ResolveMarketExchange(k.0).Ok? {
      ExchangeNamesResolve(k.0);
    }
    var data, _ := Crypto.GetMarketData(EXCHANGES, SYMBOLS, t, completion);
    if data.Err? {
      return Logged(data.error);
    }
    forall k | k in pairs ensures MarketRangesHave(k.0, k.1) {
      MarketRangesCover(k.0, k.1);
    }
    MarketRecordsBatch(pairs, data.value, t);
    var batch := MarketRecords(pairs, data.value).value;
    out := Written(batch);
  }

  /**
   * The layout of a batch in product order, such as the one
   * UpdateMarketTables writes: xs is the outer loop, so record i * |ys| + j
   * is the cell of (xs[i], ys[j]) holding the price its exchange quotes.
   */
  lemma MarketBatchPosition(batch: seq<WriteRecord>, xs: seq<string>, ys: seq<string>, t: Transport, i: nat, j: nat, p: nat)
    requires IsMarketBatch(batch, Fanout.Product(xs, ys), t)
    requires i < |xs| && j < |ys| && p == i * |ys| + j
    ensures p < |batch| && IsMarketCell(batch[p], xs[i], ys[j], t)
  {
    Fanout.ProductIndex(xs, ys, i, j, p);
  }
}
