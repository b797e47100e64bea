# ByBitTradeBot decision helpers, in Dafny

This project models the decision and order-shaping core of a Telegram-driven
trading bot for the Bybit spot market:

- the trade-signal rule over RSI and MACD (`IndicatorCalculator.generate_trade_signal`);
- the kline shape check and the choice of six or seven column names (`get_historical_data`);
- order sizing from balance, signal strength and ATR (`calculate_trade_size`);
- stop-loss and take-profit placement (`calculate_sl_tp`);
- the on/off switch of the auto-trading loop (`start_auto_trade`, `stop_auto_trade`);
- the balance parse of the trading loop, and the report line it reads;
- the order parameters `BybitAPI.create_order` sends, and the side flip of `close_position`;
- the liquid-pair filter `get_trading_pairs`;
- the coin lookups `get_usdt_balance` and `get_asset_balance`;
- the total of `get_wallet_balance`.

Modules follow the source files. `BybitClient` models bybit_client.py,
`Indicators` models indicators.py and `AutoTrade` models autotrade.py.
`Outcomes` holds the shared `Option` and `Call` types and the symbolic
`Rounded`. `PyText` holds the Python string operations the code relies on
(`in`, `split`, `replace`).

Modelling conventions:

- Python floats are Dafny `real`.
- `round(x, n)` is the value `Round(x, n)`: properties are stated of the exact value before rounding.
- Every exchange call is an argument holding what the call returns. `Fetched(response)` or `FetchFailed` is used where the client catches the exception. For `get_kline`, a `None` reply stands for a failed call.
- What `float(text)` makes of a field the exchange sends is part of the data (`Amount(text, number)`). A `None` number means `float()` raises.
- An exception that no code on the path catches is `Raises`. An exception the source catches gives whatever the source returns in that case.
- `str(x)` of a float is kept symbolic as `Str(x)`.
- The `,.2f` formatting of the total is a function parameter `fmt`.

The code's own signal strings are kept verbatim. `SignalsNeverBuy` proves
that none of the five strings `generate_trade_signal` returns equals the
string `"🟢 Покупка"` that the trading loop compares with at autotrade.py:78.
None of them is `"BUY"` either, the value `calculate_sl_tp` tests. So fed
with this classifier's output, the loop would always sell and always place
stops on the short side. The loop takes its signal from
`calculate_signal_strength`, which is not part of this model. For that
reason this is stated as a proved fact, not as a finding.

The signal rule is the two-condition RSI/MACD test with five fixed strings.
The trade size is a strength table times a clipped ATR multiplier, with no
minimum-notional clamp. The code has no trailing stop, no reentry and no
position store, so none is modelled.

## Model

| member | source | states |
|---|---|---|
| `Indicators.GenerateTradeSignal` | indicators.py:96-105 | The result is one of five fixed strings. It is a buy string iff rsi < 30 and macd > signal, and the strong buy iff rsi < 20 within that. It is a sell string iff rsi > 70 and macd < signal, and the strong sell iff rsi > 80 within that. It is neutral iff neither test holds, so buy and sell never both apply. |
| `Indicators.NeutralBand` | indicators.py:98-103 | 30 ≤ rsi ≤ 70, or macd equal to its signal line, always gives the neutral string. |
| `Indicators.BuyStrengthensAsRsiFalls` | indicators.py:100-101 | With MACD fixed, lowering RSI keeps a buy a buy and keeps a strong buy strong. |
| `Indicators.GetHistoricalData` | indicators.py:11-39 | A frame is returned iff the reply exists and has "result" and a non-empty "list". Otherwise the result is None, including the IndexError an empty list causes. The frame holds the rows unchanged. Its columns are the six base names, with "turnover" appended iff the first row has seven fields. |
| `AutoTrade.RiskPercent` | autotrade.py:16 | The table `{1: 2, 2: 5, 3: 10}` with default 0: at most 10, equal to 2 at strength 1, and positive iff the strength is 1, 2 or 3. |
| `AutoTrade.Clip` | autotrade.py:17-19 | `np.clip`: the result lies in [lo, hi]. It equals x inside the range and the nearer bound outside it. |
| `AutoTrade.AtrMultiplier` | autotrade.py:17-19 | The ATR multiplier always lies in [0.5, 2]. It is atr/10 when atr is in [5, 20]. |
| `AutoTrade.CalculateTradeSize` | autotrade.py:14-24 | The size is rounded to 4 places. It is 0 for any strength outside {1, 2, 3}. |
| `AutoTrade.TradeSizeBounds` | autotrade.py:16-22 | For balance ≥ 0, the exact size lies between balance·p(s)/200 and balance·p(s)/50, where p = {1:2, 2:5, 3:10}. These are the multiplier's floor and ceiling. |
| `AutoTrade.TradeSizeMonotone` | autotrade.py:16-22 | For a fixed balance ≥ 0 and ATR, the exact size does not decrease as strength goes from 1 to 3. |
| `AutoTrade.CalculateSlTp` | autotrade.py:27-35 | Both levels are rounded to 2 places. For "BUY" and atr ≥ 0, sl ≤ price ≤ tp. For any other signal, tp ≤ price ≤ sl. The take-profit is always twice as far from the price as the stop. |
| `AutoTrade.AtrFactor` | autotrade.py:29 | The table `{1: 0.5, 2: 1, 3: 1.5}` with default 0.5: always in [0.5, 1.5], equal to 0.5 iff the strength is not 2 or 3, and 1.5 iff it is 3. |
| `AutoTrade.SlTpDefaultStrength` | autotrade.py:29-30 | A strength outside {1, 2, 3} gives the same levels as strength 1. |
| `AutoTrade.BalanceText` | autotrade.py:48-50 | The parse succeeds iff the report contains the marker. Otherwise `[1]` raises. A successful result holds no comma and no space. |
| `AutoTrade.ReportBalanceRoundTrip` | autotrade.py:48-50 | A report built by `get_wallet_balance` may have coin lines, but they must not spell out the marker. For such a report and a total formatted as digits, commas, dot and sign, the parse returns that total with commas removed. |
| `AutoTrade.OrderSide` | autotrade.py:78 | The side is "Buy" iff the signal is exactly "🟢 Покупка", and "Sell" otherwise. |
| `AutoTrade.SignalsNeverBuy` | autotrade.py:78 | No string the signal rule produces maps to "Buy", and none equals "BUY". |
| `AutoTrade.Task.constructor` | autotrade.py:93 | A new task handle is not cancelled. |
| `AutoTrade.Task.Cancel` | autotrade.py:104 | Cancelling marks the handle cancelled. |
| `AutoTrade.AutoTrader.constructor` | autotrade.py:10-11 | At import, trading is inactive and there is no task. |
| `AutoTrade.AutoTrader.Start` | autotrade.py:87-94 | When already active, it returns the "уже запущена" message and changes nothing. Otherwise it sets active, stores a fresh task and returns "запущена". It keeps the invariant that active holds iff an uncancelled task exists. |
| `AutoTrade.AutoTrader.Stop` | autotrade.py:97-105 | When inactive, it returns "уже остановлена" and leaves the task untouched. Otherwise it clears active, cancels the stored task and keeps the handle. It keeps the same invariant. |
| `AutoTrade.StartTwiceStopTwice` | autotrade.py:87-105 | From the import state, start, start, stop, stop give the started, already-started, stopped and already-stopped messages. |
| `BybitClient.LastClose` | bybit_client.py:27-34 | The result is "no price" exactly when there is no kline, no "result" key, or an empty list. It raises exactly when the "list" key is missing, the last row has fewer than five fields or field 4 is not a number. When field 4 of the last row reads as a number, that number is the price. |
| `BybitClient.CreateOrder` | bybit_client.py:16-51 | Every sent order carries category "spot", the symbol and the side. Without a price the order is a market order with exactly five keys. A non-"Buy" side sends `qty = str(size)`. A market buy is sent iff the last close is a non-zero number, with qty = round(size / close, 8); no kline or an empty list gives None, and other kline faults raise. With a price the order is a GTC limit order with price and qty. `orderLinkId` is sent iff the order is a limit order and one was supplied. A sent order returns the exchange response unchanged, or None when `place_order` raises. |
| `BybitClient.OppositeSide` | bybit_client.py:70 | The result is always "Buy" or "Sell". It is "Sell" iff the side is "Buy". |
| `BybitClient.OppositeSideInvolution` | bybit_client.py:65-71 | On "Buy" and "Sell", flipping twice gives the side back and flipping once changes it. |
| `BybitClient.ClosePosition` | bybit_client.py:65-71 | The close is a market order with no price, on the opposite side, for the same symbol. Closing a Buy always sells `str(size)`. Closing anything else buys, and the order is sent iff the last close is a non-zero number, with qty = round(size / close, 8). With nothing sent the result is None when the kline gives no price, and an exception otherwise. A sent order returns the exchange response, or None when `place_order` raises. |
| `BybitClient.FirstCoin` | bybit_client.py:60-63 | The result is the index of the first coin with the name, or the list length if there is none. |
| `BybitClient.ScanCoins` | bybit_client.py:175-178 | The early-return loop gives the first match's `float(walletBalance)`. The result is 0.0 when no coin matches, and Raises when the match's text is not a number. |
| `BybitClient.CoinBalance` | bybit_client.py:60-63 | With no coin of that name the balance is 0.0. A raise comes from a coin of that name whose balance text is not a number. A non-zero balance is the balance of a coin of that name. |
| `BybitClient.CoinBalanceFirstMatch` | bybit_client.py:60-63 | The first coin with the name decides the balance, whatever the later coins hold. |
| `BybitClient.CoinBalanceAbsent` | bybit_client.py:63 | With no coin of that name, the balance is 0.0. |
| `BybitClient.GetUsdtBalance` | bybit_client.py:53-63 | A failed fetch gives 0.0. An empty account list raises. Otherwise the result is the first "USDT" coin's balance, or 0.0 if there is none, and it raises on unreadable text. |
| `BybitClient.GetAssetBalance` | bybit_client.py:168-181 | Every failure gives 0.0: the fetch, an empty list, or unreadable text. Otherwise the result is the first matching coin's balance, or 0.0. |
| `BybitClient.UsdTotal` | bybit_client.py:99 | The sum exists iff every `usdValue` is a number. It is non-negative when every value is. |
| `BybitClient.CoinLine` | bybit_client.py:104 | A coin's line is its name, ": ", its balance text and " USDT" with a line break: it starts with the name, ends with the line break and is 8 characters longer than name and text together. |
| `BybitClient.CoinLines` | bybit_client.py:103-104 | One line per coin, so at least 8 characters per coin. |
| `BybitClient.CoinLinesAppend` | bybit_client.py:103-104 | The lines of `a + b` are the lines of `a` followed by those of `b`, so the coins appear in list order. |
| `BybitClient.BalanceReport` | bybit_client.py:102-106 | The report opens with the header and closes with the total label, the formatted total and " USDT". |
| `BybitClient.GetWalletBalance` | bybit_client.py:86-109 | A failed fetch gives None. An empty list or an unreadable `usdValue` raises. Otherwise the result is the total, or, with `as_report`, the header, one line per coin in order, the rule and the formatted total line. |
| `BybitClient.GetTradingPairs` | bybit_client.py:124-143 | A failed fetch gives []. An unreadable turnover raises. Otherwise the result is the list of liquid symbols in input order. |
| `BybitClient.IsTradablePair` | bybit_client.py:139 | The substring test. A symbol passing it is at least as long as "USDT". |
| `BybitClient.IsLiquid` | bybit_client.py:138-140 | A liquid ticker is tradable and its turnover reads as a number. A turnover below `min_volume` rules it out. |
| `BybitClient.LiquidPairs` | bybit_client.py:134-141 | The filter never lists more symbols than there are tickers. |
| `BybitClient.LiquidPairsWitness` | bybit_client.py:135-141 | Every listed symbol is carried by a liquid ticker. |
| `BybitClient.LiquidPairsKeeps` | bybit_client.py:135-141 | Every liquid ticker's symbol is listed. |
| `BybitClient.LiquidPairsMembers` | bybit_client.py:134-141 | A symbol is in the output iff some ticker carrying it contains "USDT", contains no stablecoin name and has turnover ≥ `min_volume`. |
| `BybitClient.LiquidPairsAppend` | bybit_client.py:135-141 | The filter distributes over concatenation, so the output keeps input order. |
| `BybitClient.LiquidPairsTradable` | bybit_client.py:139 | Every listed symbol contains "USDT" and none of USDC, BUSD, DAI, TUSD, FDUSD or EURS. |
| `PyText.Find` | bybit_client.py:139 | The first occurrence found has no occurrence before it. None means there is no occurrence at all. |
| `PyText.Contains` | bybit_client.py:139 | Python's `sub in s` holds iff `sub` occurs at some index. |
| `PyText.SplitJoin` | autotrade.py:49 | Joining the result of `s.split(sep)` with `sep` gives `s` back. |
| `PyText.SplitPiecesFree` | autotrade.py:49 | No piece of `s.split(sep)` contains `sep`. |
| `PyText.RemoveChar` | autotrade.py:49 | `replace(",", "")` leaves no comma. Every other character is kept as many times as it occurs (the multiset with the comma count set to 0). It is the identity on text without commas. |
| `PyText.RemoveCharAppend` | autotrade.py:49 | Removal works piecewise: removing from `a + b` is removing from `a`, then from `b`. So the kept characters stay in their order. |
| `PyText.Split` | autotrade.py:49 | `s.split(sep)` has at least one piece. Without an occurrence the only piece is `s`. With one, there are at least two pieces and the first is the text before the leftmost occurrence. |

## Left out

- All pybit calls (`place_order`, `get_wallet_balance`, `get_kline`, `get_tickers`, `get_instruments`, `get_order_list`) are network I/O. Their replies are inputs.
- `get_open_orders`, `get_available_pairs` and `get_spot_pairs` are pass-through wrappers around those calls.
- `calculate_indicators` is RSI, MACD, SMA, Bollinger and ATR math done by pandas and `ta`, plus report formatting. It is not modelled.
- The async `auto_trade` loop is sleep-driven I/O. It calls `calculate_signal_strength`, `filter_fake_signals` and `calculate_atr`, which the indicators module does not define. It passes an `order_type` keyword that `create_order` does not accept. It parses a string, but `get_wallet_balance()` without `as_report` returns a number. Only its pure pieces are modelled: `BalanceText` and `OrderSide`.
- tg_bot.py is Telegram menus and handlers. It imports `auto_trade_active` by value, so its copy never follows the switch.
- pair_manager.py and order_storage.py only read and write JSON files.
- Floating-point rounding, `str()` of floats, the `,.2f` format and `float()` parsing are not modelled. They are symbolic values or given data.
- The numeric guarantees are stated with NaN and infinities excluded, because reals have neither.
- Python's `hash(1.0) == hash(1)` lookups are not modelled. Strengths are integers.
- `BalanceText`: the `float()` at autotrade.py:48 is not applied. The model returns the text it would convert.
- `GetHistoricalData`: building the pandas DataFrame and the `astype(float)` of close, high and low are not modelled. Pandas raises when the column count differs from the rows' width or when a value is not numeric. The source then returns None, but the model returns the frame.
- `AutoTrader.Start`: `asyncio.create_task` raising outside a running event loop is not modelled. In that case the source has already set the flag.
- `GetUsdtBalance`, `GetWalletBalance`, `GetTradingPairs`: missing keys in the wallet and ticker replies (`KeyError`) are not modelled. The replies are assumed to have the documented shape, apart from the empty account list and unreadable numbers.
- Logging and `print` calls (bybit_client.py:47, 50, 57, 95, 121, 132, 142, 180; indicators.py:20, 38) are output only and are left out. The default `min_volume=100000` (bybit_client.py:124) is not built in: `minVolume` is a plain argument.
