# crypto_parser price-aggregation core, in Dafny

crypto_parser polls three exchanges (Binance, Bybit, Garantex) and writes prices into a spreadsheet. It polls peer-to-peer (P2P) advertisements per asset and payment method, plus spot prices per symbol. This project models the logic between the HTTP replies and the sheet writer, and proves properties of it:

- the request encodings: the Bybit side and payment tables, the Garantex market id and book side;
- the reply normalisers: the Binance and Bybit row maps, the Garantex amount filter;
- the spot-price selectors;
- the fan-out over `product(assets, pay_types)` in `get_data_p2p`, whose dict is filled in completion order;
- `best_price`;
- `get_market_data`;
- the table assembly of `main.py`: the pay-type choice, the two-level range lookup, the price grid, and the 18 market-data records.

Modules:

- `Ascii` (`ascii.dfy`): `str.lower` and `str.upper` on ASCII letters.
- `Types` (`types.dfy`): advertisements, the exceptions the code raises (one `Error` constructor per cause), pay types, decoded reply shapes, and `Transport`.
  - `Transport` is the network: one total function per endpoint, from the query to a status code plus the body, if the body decoded.
- `Fanout` (`fanout.dfy`): `itertools.product`, and the `as_completed` loop as a method over any permutation of the task indices.
  - The order in which futures complete is a parameter, `completion`, constrained only to be a permutation.
- `Crypto` (`crypto.dfy`): `crypto_parser/crypto.py`.
- `P2P` (`p2p.dfy`): `crypto_parser/p2p.py`, the older copy of the P2P logic.
  - Its members are written the way that file writes them: comprehensions where Dafny has them, and inline tables. The amount filter is a recursion, since Dafny has no filtering sequence comprehension.
  - Each is proved equal to its `Crypto` counterpart, so every property proved there carries over.
- `Tables` (`tables.dfy`): the pure parts of `main.py`.
  - A sheet range is an `A1Range` value, with its corner columns and rows.
  - `Render` gives its text, which the writer receives.
  - The grid shapes are checked on the range values.

Modelling choices:

- Outcomes:
  - **Exceptions** are `Err(...)` values.
  - **A reply whose status code is not 200** fails the status check as `StatusError(status)`.
  - **A reply body without the expected fields** is `MalformedBody`.
  - **A dict lookup that misses** is `KeyError(key)` for string keys. For the payment table it is `PayTypeKeyError`, for `best_price`'s data `ResultKeyError`, and for the market data `MarketKeyError`.
  - **`[0]` of an empty list** is `IndexError`.
- Values:
  - **Prices, quantities and amounts** are `real`.
  - **The seven payment constants** form the datatype `PayMethod`. Any other pay-type string is `OtherPay(name)`, and Garantex's missing pay type is `None`.
- Inputs that the model takes as parameters:
  - **The update functions of `main.py`** take the current time (`now`) and the completion order as parameters.
  - **Their results** are `Raised(e)` when an exception escapes, `Logged(e)` when the catch-all handler logs it, and `Written(batch)` for the list handed to `write_spread_data`.

## Model

| member | source | states |
|---|---|---|
| Types.CheckedBody | crypto_parser/crypto.py:59-61 | the status is checked before the body: a non-200 status is a StatusError whatever the body; success exactly when the status is 200 and the body decoded, with that body |
| Fanout.Product | crypto_parser/crypto.py:224 | a pair is in `product(xs, ys)` exactly when its first part is in xs and its second in ys |
| Fanout.ProductIndex | crypto_parser/crypto.py:224 | xs is the outer loop: (xs[i], ys[j]) sits at position i * \|ys\| + j of the product |
| Fanout.ProductLength | crypto_parser/crypto.py:224 | the product has \|xs\| * \|ys\| entries |
| Fanout.ProductDistinct | crypto_parser/crypto.py:224 | the product of repeat-free sequences is repeat-free, so no dict key is written twice |
| Fanout.ProductCard | crypto_parser/crypto.py:224 | for repeat-free inputs the product holds exactly \|xs\| * \|ys\| distinct pairs |
| Fanout.PermutationFacts | crypto_parser/crypto.py:226 | an `as_completed` order visits each task index exactly once: length n, every entry below n, every index present |
| Fanout.Assembled | crypto_parser/crypto.py:226-227 | the dict of a run where no task fails: its keys are exactly the task keys, each mapped to its task's value |
| Fanout.CollectCompleted | crypto_parser/crypto.py:226-227 | the completion loop on any permutation succeeds exactly when every task succeeds, then returns the dict of all results; otherwise it raises the error of the first failing task in completion order, after every task completed before it succeeded |
| Crypto.ResolveExchange | crypto_parser/crypto.py:204-211 | the fetcher lookup succeeds exactly when `exchange.lower()` is binance, bybit or garantex and gives the exchange registered under that key; otherwise UnknownExchange(exchange) |
| Crypto.ResolveIgnoresCase | crypto_parser/crypto.py:205-209 | names equal up to letter case resolve alike |
| Crypto.ResolveKey | crypto_parser/crypto.py:205-209 | each exchange's registered key resolves back to that exchange |
| Crypto.NormalizeBinance | crypto_parser/crypto.py:63-70 | the Binance rows map one-to-one and in order to (nickName, price, tradableQuantity) |
| Crypto.FetchBinanceP2P | crypto_parser/crypto.py:45-71 | the POST carries asset, trade type, fiat, amount, merchantCheck, the single pay type, page 1 and 20 rows; the call succeeds exactly on a 200 reply that decoded, with the normalised rows in order; a non-200 reply is a StatusError and a 200 reply that did not decode is MalformedBody |
| Crypto.BybitSide | crypto_parser/crypto.py:82 | buy gives 1 and sell gives 0, case-insensitively, in both directions; any other trade type is KeyError of its lower-case form |
| Crypto.BybitPayment | crypto_parser/crypto.py:83-91 | a pay type has an id exactly when it is one of the seven constants, and the id is its entry in the table (ALFA 1, POCHTA 59, QIWI 62, RAIFFEISEN 64, TINKOFF 75, ROSBANK 185, YANDEX 274); otherwise a KeyError on the pay type |
| Crypto.PaymentIdRoundTrip | crypto_parser/crypto.py:83-91 | the inverse table gives back the method each id encodes |
| Crypto.PaymentIdInjective | crypto_parser/crypto.py:83-91 | distinct methods get distinct ids |
| Crypto.NormalizeBybit | crypto_parser/crypto.py:118-125 | the Bybit items map one-to-one and in order to (nickName, price, quantity) |
| Crypto.FetchBybitP2P | crypto_parser/crypto.py:82-125 | a bad side fails with its KeyError, then a bad pay type with its KeyError, both whatever the network would answer; with both encoded, the call succeeds exactly on a decoded 200 reply to the query for that side and id, giving the normalised items |
| Crypto.GarantexMarket | crypto_parser/crypto.py:136 | the market id is the lower case of asset + fiat: its first \|asset\| characters are `asset.lower()` and the rest `fiat.lower()` |
| Crypto.GarantexBookSide | crypto_parser/crypto.py:145 | buy selects asks and sell selects bids, case-insensitively, in both directions; anything else is a KeyError |
| Crypto.FilterByAmount | crypto_parser/crypto.py:147-151 | no longer than the book; every kept entry has no nick and comes from a level whose amount reaches the threshold; every such level is kept |
| Crypto.FilterByAmountAppend | crypto_parser/crypto.py:147-151 | the filter keeps order: filtering a concatenation concatenates the filtered parts |
| Crypto.FilterByAmountOne | crypto_parser/crypto.py:147-151 | one level is kept, as (None, price, volume), exactly when its amount is at least the threshold |
| Crypto.FilterByAmountExtremes | crypto_parser/crypto.py:147-151 | if every level reaches the threshold, every level is kept in order; if none does, nothing is kept |
| Crypto.FetchGarantexP2P | crypto_parser/crypto.py:136-151 | the depth of `asset.lower() + fiat.lower()` is fetched first: a non-200 status and a body that is not JSON fail before the trade type is looked up; an unknown trade type then fails with a KeyError; otherwise the filtered asks for buy and the filtered bids for sell |
| Crypto.GetDataP2P | crypto_parser/crypto.py:204-228 | an unknown exchange raises UnknownExchange before anything is submitted; otherwise exactly the pairs of `product(assets, pay_types)` are submitted; the call succeeds exactly when every pair's fetch succeeds, with the keys exactly the product and each key mapped to its fetch result; a failure raises the error of the first failing task in completion order, every task completed before it having succeeded, and returns no partial dict |
| Crypto.CompletionOrderIrrelevant | crypto_parser/crypto.py:213-228 | two runs that differ only in completion order agree on success and, when they succeed, on the whole dict |
| Crypto.ExpectedP2P | crypto_parser/crypto.py:213-228 | the dict of a successful run: keyed exactly by the assets × pay types, each entry the pair's fetch result |
| Crypto.ExpectedP2PCard | crypto_parser/crypto.py:213-228 | for repeat-free assets and pay types the dict has \|assets\| * \|pay_types\| entries |
| Crypto.BestPrice | crypto_parser/crypto.py:231-233 | a missing key fails with a lookup error, and only then; an empty list gives 1_000_000_000; otherwise the first advertisement's price |
| Crypto.BestPriceIgnoresTail | crypto_parser/crypto.py:231-233 | whatever follows the first advertisement, the best price is the first one's price |
| Crypto.GarantexScenario | crypto_parser/crypto.py:128-151 | a BUY poll of BTC/RUB on Garantex, whose book holds one ask at 3000000, yields a best price of 3000000 for (BTC, None) |
| Crypto.GarantexThresholdExample | crypto_parser/crypto.py:147-151 | of two asks with amounts 2000 and 10000, a threshold of 5000 keeps only the second |
| Crypto.FetchMarketBinance | crypto_parser/crypto.py:154-161 | the ticker of `symbol.upper()` is fetched; success exactly on a decoded 200 reply, giving its price; a non-200 reply is a StatusError and an undecodable one MalformedBody |
| Crypto.FirstSellPrice | crypto_parser/crypto.py:177-178 | succeeds exactly when some order's side is "Sell", and then gives the price of the first such order; otherwise IndexError |
| Crypto.BybitSpotPrice | crypto_parser/crypto.py:172-178 | a missing or empty book gives 0.0; otherwise the first Sell order's price, or IndexError when there is none |
| Crypto.FetchMarketBybit | crypto_parser/crypto.py:164-178 | the L2 book of `symbol.upper()` is fetched; a non-200 reply is a StatusError, a 200 reply that did not decode MalformedBody; a decoded reply gives the selection above |
| Crypto.GarantexSpotPrice | crypto_parser/crypto.py:190-192 | succeeds exactly when the ask side is non-empty, with the first ask's price; otherwise IndexError |
| Crypto.FetchMarketGarantex | crypto_parser/crypto.py:181-192 | the depth of `symbol.lower()` is fetched; a non-200 reply is a StatusError, a 200 reply that did not decode MalformedBody; a decoded reply gives the first ask's price or IndexError |
| Crypto.ResolveMarketExchange | crypto_parser/crypto.py:237-245 | the market fetcher lookup resolves the same names as get_data_p2p's, but a miss is a plain KeyError on `exchange.lower()`, not UnknownExchange |
| Crypto.FirstUnknown | crypto_parser/crypto.py:244-247 | the position of the first pair, in submission order, whose exchange has no fetcher; every earlier pair resolves; None exactly when all resolve |
| Crypto.GetMarketData | crypto_parser/crypto.py:236-250 | at the first unknown exchange in product order it raises KeyError, after submitting only the pairs before it; otherwise every pair is submitted; success exactly when every pair resolves and fetches, with the keys exactly exchanges × symbols and each mapped to its fetched price; when every exchange resolves, a failure is the error of the first failing fetch in completion order |
| P2P.FetchBinance | crypto_parser/p2p.py:36-72 | the older Binance fetcher returns exactly what fetch_binance_p2p returns, for every transport and input |
| P2P.FetchBybit | crypto_parser/p2p.py:75-128 | the older Bybit fetcher, with its own copies of the side and payment tables, returns exactly what fetch_bybit_p2p returns, errors included |
| P2P.KeepByAmount | crypto_parser/p2p.py:152-156 | the older amount filter is the same filter as crypto.py's, so it keeps the same levels in the same order |
| P2P.FetchGarantex | crypto_parser/p2p.py:131-156 | the older Garantex fetcher returns exactly what fetch_garantex_p2p returns, ordering of errors included |
| P2P.Fetch | crypto_parser/p2p.py:168-175 | the fetcher get_data selects for each exchange behaves as get_data_p2p's |
| P2P.GetData | crypto_parser/p2p.py:159-192 | UnknownExchange before any submission; exactly the product is submitted; success exactly when every pair's fetch succeeds, giving the same dict as get_data_p2p; a failure is the error of the first failing task in completion order |
| P2P.BestPrice | crypto_parser/p2p.py:195-197 | the older best_price equals crypto.py's: first price, 1_000_000_000 for an empty list, a lookup error for a missing key |
| Tables.BankPayTypesComplete | main.py:36 | each of the seven payment constants has a column |
| Tables.PayTypesFor | main.py:35-39 | pay_types is [None] exactly when `exchange.lower()` is garantex; otherwise the seven constants in the order TINKOFF, ROSBANK, QIWI, YANDEX, ALFA, POCHTA, RAIFFEISEN, each once, each with a Bybit payment id |
| Tables.BinanceRangeTexts | main.py:44 | the Binance ranges render as B2:B3, C5:I7, B9:B10 and C12:I14 |
| Tables.BybitRangeTexts | main.py:45 | the Bybit ranges render as K2:K3, L5:R7, K9:K10 and L12:R14 |
| Tables.GarantexRangeTexts | main.py:46-49 | the Garantex ranges render as AU2:AU3, AV5:AV7, AU9:AU10 and AV12:AV14 |
| Tables.P2PRangesFit | main.py:43-50 | every entry's updated-at range is two rows of one column, and its table range is three asset rows by seven columns (one for Garantex) |
| Tables.P2PRangesKeys | main.py:43-50 | the dict has exactly the three exchanges, each with exactly buy and sell |
| Tables.TableRanges | main.py:42-52 | the lookup succeeds exactly when `exchange.lower()` and `trade_type.lower()` are both keys, and returns the entry under exactly those two keys; a miss on either level is UnknownExchange("exchange/trade_type"); a found table range spans \|assets\| rows by \|pay_types\| columns |
| Tables.BybitSellRanges | main.py:45 | a job spelled "BYBIT", "SELL" gets Bybit's sell entry, whose table range is L12:R14 |
| Tables.ScheduledJobHasRanges | main.py:128-133 | each of the six P2P jobs the scheduler registers ("Binance", "BYBIT" and "Garantex", each with BUY and SELL) finds its ranges |
| Tables.GridRow | main.py:59 | one row has a cell per pay type, each the best price for (asset, pay type); it fails exactly when a key is missing, with that key's lookup error |
| Tables.ValuesGrid | main.py:59 | the grid exists exactly when every (asset, pay type) key is present; it then has a row per asset and a column per pay type, with cell [i][j] the best price for (assets[i], pay_types[j]) |
| Tables.P2PBatch | main.py:59-70 | to_write is the pair "Updated at" / current time at the updated-at range, then the price grid at the table range; it exists exactly when every grid key is in the data |
| Tables.UpdateP2PTable | main.py:30-75 | an unknown exchange or trade type escapes as UnknownExchange before anything is fetched, and nothing else escapes; with the ranges found, the batch is written exactly when every fetch succeeds; a logged error is the first fetch failure in completion order; the written batch is the time record followed by the best-price grid of the fetched data, at the ranges stored under (`exchange.lower()`, `trade_type.lower()`) |
| Tables.ExchangeNamesResolve | main.py:106 | each of the fixed exchange names resolves and has a block of cells |
| Tables.MarketRangesCover | main.py:79-107 | every fixed (exchange, symbol) pair has a cell under `[e.lower()][s.upper()]` |
| Tables.MarketRecord | main.py:113 | a record exists exactly when the range lookup and the data lookup both hit, and it is the cell holding the single value `data[(e, s)]`; the misses are tried in order: a KeyError on the lower-cased exchange, then a KeyError on the upper-cased symbol, then a lookup error on the missing data key |
| Tables.MarketRecords | main.py:112-116 | to_write exists exactly when every pair's record does, and holds one record per pair in product order, exchanges outermost |
| Tables.MarketRecordsComplete | main.py:106-116 | on data keyed by the whole product, to_write has 3 × 6 = 18 records |
| Tables.MarketRecordsBatch | main.py:110-116 | when every pair has a cell and the data holds its fetched price, to_write holds, for each pair in order, its cell with that price |
| Tables.UpdateMarketTables | main.py:78-122 | nothing escapes; the batch is written exactly when every (exchange, symbol) fetch succeeds; it is the 18 records in product order, each the pair's cell holding the price its exchange quotes (so record i * 6 + j belongs to exchange i and symbol j, by MarketBatchPosition); a logged error is the first failing fetch in completion order |
| Tables.MarketBatchPosition | main.py:112-116 | in a batch laid out in product order, exchanges are the outer loop: record i * \|symbols\| + j is the cell of (exchanges[i], symbols[j]) holding the price that exchange quotes |

## Left out

- HTTP: sessions, connection pools, retries, headers, URLs and JSON decoding are not modelled. Each endpoint is a total function from the query to a reply, and a body that lacks the expected fields is `MalformedBody`.
- Concurrency: the thread pool and `as_completed` are not modelled. A run is a sequential loop over a completion order that may be any permutation of the tasks. Every task's fetch is a fixed function of its inputs, so a retried or repeated request is assumed to get the same reply.
- Floating point: `float(...)` parsing and IEEE rounding are not modelled. Prices, quantities and amounts are exact reals, and the Garantex filter compares the amount with the integer threshold as a real.
- Unicode: `str.lower` and `str.upper` fold only the ASCII letters.
- `crypto_parser/constant.py` is not part of this model. The payment constants are taken as seven distinct values, and the asset and symbol constants as their tickers in upper case ("USDT", "BTCUSDT", ...).
- `crypto_parser/gsheets.py` is not modelled: the sheet writer is external I/O. It is assumed to accept every batch, and an exception from it would be logged like any other.
- `crypto_parser/utils.py` is not modelled: the clock is the `now` parameter.
- Logging and scheduling are left out: the logger set-up, the log messages and the scheduler loop. Of the scheduler, only the (exchange, trade_type) arguments of its jobs are kept, as `SCHEDULED_JOBS`.
- Exception messages are not modelled: each error carries its cause, not the formatted text.
- Crypto.BestPrice: returns the empty-list value 1_000_000_000 as a real, while the source returns it as an int and prices as floats. The sheet receives the same number either way.
- Crypto.FetchGarantexP2P: the depth is decoded whole before the trade type is looked up. A JSON reply that lacks the selected side, or a level that lacks its amount, is therefore `MalformedBody` here. The source raises a `KeyError` for it, after the trade-type lookup, and it never reads the side it did not select.
- Code order: `p2p.py` collects results inside the `with ThreadPoolExecutor()` block, and `crypto.py` collects them after the block has waited for all tasks. Both give the same dict here.
