/** The request and response shaping of the Bybit spot client (class
    `BybitAPI` in bybit_client.py). Every exchange call is replaced by the
    data it would return, given as an argument: `Fetched(response)` when the
    call returns, `FetchFailed` when it raises. */
module BybitClient {
  import opened Outcomes
  import opened PyText

  /** A numeric field as the exchange sends it: its text, and what `float()`
      makes of that text (None: `float()` raises ValueError). */
  datatype Amount = Amount(text: string, number: Option<real>)

  /** One candle of a kline list: its fields in order. */
  type Row = seq<Amount>

  /** `response["result"]` of a kline reply; `list` is None when the key
      "list" is absent. */
  datatype KlineResult = KlineResult(list: Option<seq<Row>>)

  /** A kline reply; `result` is None when the key "result" is absent (also
      the case of the empty, falsy reply). A call that failed is a None
      `Option<KlineResponse>`, as `get_kline` returns None then. */
  datatype KlineResponse = KlineResponse(result: Option<KlineResult>)

  /** One entry of `response["result"]["list"][i]["coin"]`. */
  datatype Coin = Coin(coin: string, walletBalance: Amount, usdValue: Amount)

  /** A wallet reply: the coin list of each account in `result.list`. */
  datatype WalletResponse = WalletResponse(list: seq<seq<Coin>>)

  /** One entry of a spot tickers reply. */
  datatype Ticker = Ticker(symbol: string, turnover24h: Amount)

  /** The outcome of a session call whose exception the client catches. */
  datatype Fetch<T> = Fetched(response: T) | FetchFailed

  /** A value of the order parameters: a string as given, `str(x)` of a
      float, or `str(round(x, n))`. */
  datatype Value = Text(s: string) | Str(x: real) | StrRounded(r: Rounded)

  /** The keyword arguments handed to `session.place_order`. */
  type Params = map<string, Value>

  /** What `session.place_order` does with the parameters: it answers with a
      response, or it raises. */
  datatype PlaceOutcome<R> = Responds(response: R) | Throws

  const MarketKeys: set<string> := {"category", "symbol", "side", "orderType", "qty"}

  /** The keys of a limit order's parameters. */
  function LimitKeys(orderLinkId: Option<string>): set<string>
  {
    MarketKeys + {"price", "timeInForce"} + (if orderLinkId.Some? then {"orderLinkId"} else {})
  }

  /** The last close of a kline reply as the market-buy branch of
      `create_order` reads it: Returns(None) when there is no reply, no
      "result" key or an empty list (the order is abandoned), Raises when
      the "list" key is missing, the last row has no fifth field or that
      field is not a number. */
  function LastClose(kline: Option<KlineResponse>): (c: Call<Option<real>>)
    ensures c == Returns(None) <==>
      kline.None? || kline.value.result.None? ||
      kline.value.result.value.list == Some([])
    ensures (c.Returns? && c.value.Some?) ==>
      kline.Some? && kline.value.result.Some? && kline.value.result.value.list.Some? &&
      var rows := kline.value.result.value.list.value;
      |rows| > 0 && |rows[|rows| - 1]| > 4 && rows[|rows| - 1][4].number == c.value
    // a last row whose fifth field reads as a number gives that number
    ensures kline.Some? && kline.value.result.Some? && kline.value.result.value.list.Some? ==>
      var rows := kline.value.result.value.list.value;
      |rows| > 0 && |rows[|rows| - 1]| > 4 && rows[|rows| - 1][4].number.Some? ==>
      c == Returns(rows[|rows| - 1][4].number)
    // it raises exactly on a missing "list", a short last row or an unreadable close
    ensures c.Raises? <==>
      kline.Some? && kline.value.result.Some? &&
      (kline.value.result.value.list.None? ||
       var rows := kline.value.result.value.list.value;
       |rows| > 0 && (|rows[|rows| - 1]| < 5 || rows[|rows| - 1][4].number.None?))
  {
    match kline
    case None => Returns(None)
    case Some(k) =>
      match k.result
      case None => Returns(None)
      case Some(res) =>
        match res.list
        case None => Raises
        case Some(rows) =>
          if |rows| == 0 then Returns(None)
          else
            var last := rows[|rows| - 1];
            if |last| < 5 then Raises
            else
              match last[4].number
              case None => Raises
              case Some(p) => Returns(Some(p))
  }

  /** `create_order`: builds the order parameters key by key and submits
      them. `kline` is what `get_kline(symbol, limit=1)` would return (it is
      consulted only for a market buy) and `exchange` what `place_order`
      does. `sent` is the parameters handed to `place_order`, None when it is
      not reached; `r` is what `create_order` returns or that it raises. */
  method CreateOrder<R>(symbol: string, side: string, orderSize: real, price: Option<real>,
                        orderLinkId: Option<string>, kline: Option<KlineResponse>,
                        exchange: PlaceOutcome<R>)
    returns (sent: Option<Params>, r: Call<Option<R>>)
    // every submitted order names the spot category, the symbol and the side
    ensures sent.Some? ==>
      MarketKeys <= sent.value.Keys &&
      sent.value["category"] == Text("spot") && sent.value["symbol"] == Text(symbol) &&
      sent.value["side"] == Text(side)
    // no price: a market order with exactly the five market keys
    ensures price.None? && sent.Some? ==>
      sent.value.Keys == MarketKeys && sent.value["orderType"] == Text("Market")
    // market sell (any side but "Buy"): the size is the quantity, no price lookup
    ensures price.None? && side != "Buy" ==>
      sent.Some? && sent.value["qty"] == Str(orderSize)
    // market buy: submitted exactly when the last close is a non-zero number,
    // and the quantity is the size divided by it, rounded to 8 places
    ensures price.None? && side == "Buy" ==>
      (sent.Some? <==> LastClose(kline).Returns? && LastClose(kline).value.Some? &&
                       LastClose(kline).value.value != 0.0)
    ensures price.None? && side == "Buy" && sent.Some? ==>
      sent.value["qty"] == StrRounded(Round(orderSize / LastClose(kline).value.value, 8))
    // with a price: a good-till-cancelled limit order
    ensures price.Some? ==>
      sent.Some? && sent.value.Keys == LimitKeys(orderLinkId) &&
      sent.value["orderType"] == Text("Limit") && sent.value["price"] == Str(price.value) &&
      sent.value["qty"] == Str(orderSize) && sent.value["timeInForce"] == Text("GTC")
    // the link id is sent only on a limit order, and only when one is given
    ensures sent.Some? ==>
      ("orderLinkId" in sent.value <==> price.Some? && orderLinkId.Some?)
    ensures sent.Some? && "orderLinkId" in sent.value ==>
      sent.value["orderLinkId"] == Text(orderLinkId.value)
    // not submitted: None when the kline gives no price, an exception otherwise
    ensures sent.None? ==>
      price.None? && side == "Buy" &&
      r == (if LastClose(kline) == Returns(None) then Returns(None) else Raises)
    // submitted: the exchange response unchanged, or None if place_order raised
    ensures sent.Some? ==>
      r == (if exchange.Responds? then Returns(Some(exchange.response)) else Returns(None))
  {
    var params: Params := map["category" := Text("spot"), "symbol" := Text(symbol), "side" := Text(side)];
    if price.None? {
      params := params["orderType" := Text("Market")];
      if side == "Buy" {
        var close := LastClose(kline);
        if close.Raises? {
          return None, Raises;
        }
        if close.value.None? {
          return None, Returns(None);
        }
        var currentPrice := close.value.value;
        if currentPrice == 0.0 {
          // order_size / current_price raises ZeroDivisionError
          return None, Raises;
        }
        params := params["qty" := StrRounded(Round(orderSize / currentPrice, 8))];
      } else {
        params := params["qty" := Str(orderSize)];
      }
    } else {
      params := params["orderType" := Text("Limit")];
      params := params["price" := Str(price.value)];
      params := params["qty" := Str(orderSize)];
      params := params["timeInForce" := Text("GTC")];
      if orderLinkId.Some? {
        params := params["orderLinkId" := Text(orderLinkId.value)];
      }
    }
    sent := Some(params);
    match exchange {
      case Responds(response) => r := Returns(Some(response));
      case Throws => r := Returns(None);
    }
  }

  /** The side that closes a position opened on `side`. */
  function OppositeSide(side: string): (o: string)
    ensures o == "Buy" || o == "Sell"
    ensures o == "Sell" <==> side == "Buy"
  {
    if side == "Buy" then "Sell" else "Buy"
  }

  /** On the two real sides, the flip is its own inverse and changes the side. */
  lemma OppositeSideInvolution(side: string)
    requires side == "Buy" || side == "Sell"
    ensures OppositeSide(OppositeSide(side)) == side
    ensures OppositeSide(side) != side
  {
  }

  /** `close_position`: a market order on the opposite side, same symbol and
      same size. */
  method ClosePosition<R>(symbol: string, currentSide: string, orderSize: real,
                          kline: Option<KlineResponse>, exchange: PlaceOutcome<R>)
    returns (sent: Option<Params>, r: Call<Option<R>>)
    ensures sent.Some? ==>
      sent.value.Keys == MarketKeys && "price" !in sent.value &&
      sent.value["orderType"] == Text("Market") && sent.value["symbol"] == Text(symbol) &&
      sent.value["side"] == Text(OppositeSide(currentSide))
    // closing a long sells the size itself
    ensures currentSide == "Buy" ==> sent.Some? && sent.value["qty"] == Str(orderSize)
    // closing anything else buys, priced through the last close
    ensures currentSide != "Buy" ==>
      (sent.Some? <==> LastClose(kline).Returns? && LastClose(kline).value.Some? &&
                       LastClose(kline).value.value != 0.0)
    ensures currentSide != "Buy" && sent.Some? ==>
      sent.value["qty"] == StrRounded(Round(orderSize / LastClose(kline).value.value, 8))
    // nothing sent: None when the kline gives no price, an exception otherwise
    ensures sent.None? ==>
      r == (if LastClose(kline) == Returns(None) then Returns(None) else Raises)
    ensures sent.Some? ==>
      r == (if exchange.Responds? then Returns(Some(exchange.response)) else Returns(None))
  {
    var oppositeSide := OppositeSide(currentSide);
    sent, r := CreateOrder(symbol, oppositeSide, orderSize, None, None, kline, exchange);
  }

  /** Index of the first coin named `name`, or |coins| when no coin is. */
  function FirstCoin(coins: seq<Coin>, name: string): (k: nat)
    ensures k <= |coins|
    ensures k < |coins| ==> coins[k].coin == name
    ensures forall j :: 0 <= j < k ==> coins[j].coin != name
  {
    if coins == [] then 0
    else if coins[0].coin == name then 0
    else 1 + FirstCoin(coins[1..], name)
  }

  /** The wallet balance of the first coin named `name` in one account's coin
      list: 0.0 when there is none, Raises when its text is not a number. */
  function CoinBalance(coins: seq<Coin>, name: string): (r: Call<real>)
    // no coin of that name: 0.0
    ensures (forall i :: 0 <= i < |coins| ==> coins[i].coin != name) ==> r == Returns(0.0)
    // a raise comes from a coin of that name whose balance is unreadable
    ensures r.Raises? ==>
      exists i :: 0 <= i < |coins| && coins[i].coin == name && coins[i].walletBalance.number.None?
    // a non-zero balance is the balance of a coin of that name
    ensures r.Returns? && r.value != 0.0 ==>
      exists i :: 0 <= i < |coins| && coins[i].coin == name && coins[i].walletBalance.number == Some(r.value)
  {
    var k := FirstCoin(coins, name);
    if k == |coins| then Returns(0.0)
    else match coins[k].walletBalance.number
      case None => Raises
      case Some(v) => Returns(v)
  }

  /** The loop scanning `coins` for `name`, with early return. */
  method ScanCoins(coins: seq<Coin>, name: string) returns (r: Call<real>)
    ensures r == CoinBalance(coins, name)
  {
    var i := 0;
    while i < |coins|
      invariant 0 <= i <= |coins|
      invariant forall j :: 0 <= j < i ==> coins[j].coin != name
    {
      if coins[i].coin == name {
        match coins[i].walletBalance.number {
          case None => return Raises;
          case Some(v) => return Returns(v);
        }
      }
      i := i + 1;
    }
    return Returns(0.0);
  }

  /** `get_usdt_balance`: only the fetch is guarded, so an empty account list
      or an unreadable balance raises. */
  method GetUsdtBalance(fetch: Fetch<WalletResponse>) returns (r: Call<real>)
    ensures fetch.FetchFailed? ==> r == Returns(0.0)
    ensures fetch.Fetched? && fetch.response.list == [] ==> r == Raises
    ensures fetch.Fetched? && fetch.response.list != [] ==>
      r == CoinBalance(fetch.response.list[0], "USDT")
  {
    match fetch {
      case FetchFailed => return Returns(0.0);
      case Fetched(response) =>
        if response.list == [] {
          return Raises;
        }
        r := ScanCoins(response.list[0], "USDT");
    }
  }

  /** `get_asset_balance`: the whole body is guarded, so every failure gives
      0.0. */
  method GetAssetBalance(fetch: Fetch<WalletResponse>, asset: string) returns (r: real)
    ensures fetch.FetchFailed? || fetch.response.list == [] ==> r == 0.0
    ensures fetch.Fetched? && fetch.response.list != [] ==>
      r == (match CoinBalance(fetch.response.list[0], asset)
            case Returns(v) => v
            case Raises => 0.0)
  {
    match fetch {
      case FetchFailed => return 0.0;
      case Fetched(response) =>
        if response.list == [] {
          return 0.0;
        }
        var found := ScanCoins(response.list[0], asset);
        r := if found.Returns? then found.value else 0.0;
    }
  }

  /** The first coin carrying the name decides the balance, whatever the
      coins after it hold. */
  lemma CoinBalanceFirstMatch(coins: seq<Coin>, name: string, k: nat)
    requires k < |coins| && coins[k].coin == name
    requires forall j :: 0 <= j < k ==> coins[j].coin != name
    ensures CoinBalance(coins, name) ==
      (if coins[k].walletBalance.number.Some? then Returns(coins[k].walletBalance.number.value) else Raises)
  {
  }

  /** No coin carries the name: the balance is 0.0. */
  lemma CoinBalanceAbsent(coins: seq<Coin>, name: string)
    requires forall j :: 0 <= j < |coins| ==> coins[j].coin != name
    ensures CoinBalance(coins, name) == Returns(0.0)
  {
  }

  /** `sum(float(coin["usdValue"]) for coin in coins)`: None when some
      `usdValue` is not a number (the sum raises). */
  function UsdTotal(coins: seq<Coin>): (t: Option<real>)
    ensures t.Some? <==> forall i :: 0 <= i < |coins| ==> coins[i].usdValue.number.Some?
    ensures t.Some? && (forall i :: 0 <= i < |coins| ==> coins[i].usdValue.number.value >= 0.0) ==>
      t.value >= 0.0
    decreases |coins|
  {
    if coins == [] then Some(0.0)
    else
      var last := coins[|coins| - 1];
      match UsdTotal(coins[..|coins| - 1])
      case None => None
      case Some(s) =>
        match last.usdValue.number
        case None => None
        case Some(v) => Some(s + v)
  }

  const ReportHeader: string := "💰 *Баланс Bybit*\n"
  const ReportRule: string := "━━━━━━━━━━━━━━━━━━━━━\n"
  const TotalLabel: string := "💳 *Общий баланс:* "

  /** The report line of one coin. */
  function CoinLine(c: Coin): (line: string)
    // the coin name, then its balance text after ": ", then " USDT" and a line break
    ensures |line| == |c.coin| + |c.walletBalance.text| + 8
    ensures line[..|c.coin|] == c.coin && line[|line| - 1] == '\n'
  {
    c.coin + ": " + c.walletBalance.text + " USDT\n"
  }

  /** The report lines of a coin list, in order. */
  function CoinLines(coins: seq<Coin>): (lines: string)
    // one line of at least eight characters per coin
    ensures |lines| >= 8 * |coins|
  {
    if coins == [] then "" else CoinLines(coins[..|coins| - 1]) + CoinLine(coins[|coins| - 1])
  }

  /** The whole text report, `totalText` being the formatted total. */
  function BalanceReport(coins: seq<Coin>, totalText: string): (report: string)
    // the header opens the report and the total line closes it
    ensures |report| >= |ReportHeader| && report[..|ReportHeader|] == ReportHeader
    ensures |report| >= |TotalLabel + totalText + " USDT"| &&
      report[|report| - |TotalLabel + totalText + " USDT"|..] == TotalLabel + totalText + " USDT"
  {
    ReportHeader + CoinLines(coins) + ReportRule + TotalLabel + totalText + " USDT"
  }

  /** The lines of a concatenation are the lines of each part, so the report
      lists the coins in order. */
  lemma {:induction false} CoinLinesAppend(a: seq<Coin>, b: seq<Coin>)
    ensures CoinLines(a + b) == CoinLines(a) + CoinLines(b)
    decreases |b|
  {
    if b == [] {
      assert a + b == a;
    } else {
      var b', ab := b[..|b| - 1], a + b;
      assert ab[..|ab| - 1] == a + b';
      assert ab[|ab| - 1] == b[|b| - 1];
      assert CoinLines(ab) == CoinLines(a + b') + CoinLine(b[|b| - 1]);
      CoinLinesAppend(a, b');
      assert CoinLines(b) == CoinLines(b') + CoinLine(b[|b| - 1]);
    }
  }

  /** What `get_wallet_balance` returns: None, the numeric total, or a report. */
  datatype WalletReply = NoBalance | Total(value: real) | Report(text: string)

  /** `get_wallet_balance`: `fmt` is the `,.2f` formatting of the total,
      which the model takes as given. Only the fetch is guarded. */
  method GetWalletBalance(fetch: Fetch<WalletResponse>, asReport: bool, fmt: real -> string)
    returns (r: Call<WalletReply>)
    ensures fetch.FetchFailed? ==> r == Returns(NoBalance)
    ensures fetch.Fetched? && (fetch.response.list == [] || UsdTotal(fetch.response.list[0]).None?) ==>
      r == Raises
    ensures fetch.Fetched? && fetch.response.list != [] && UsdTotal(fetch.response.list[0]).Some? ==>
      var coins := fetch.response.list[0];
      var total := UsdTotal(coins).value;
      r == Returns(if asReport then Report(BalanceReport(coins, fmt(total))) else Total(total))
  {
    if fetch.FetchFailed? {
      return Returns(NoBalance);
    }
    var response := fetch.response;
    if response.list == [] {
      return Raises;
    }
    var coins := response.list[0];
    var total := UsdTotal(coins);
    if total.None? {
      return Raises;
    }
    if !asReport {
      return Returns(Total(total.value));
    }
    var report := ReportHeader;
    var i := 0;
    while i < |coins|
      invariant 0 <= i <= |coins|
      invariant report == ReportHeader + CoinLines(coins[..i])
    {
      assert coins[..i + 1][..i] == coins[..i];
      report := report + CoinLine(coins[i]);
      i := i + 1;
    }
    assert coins[..i] == coins;
    report := report + ReportRule;
    report := report + TotalLabel + fmt(total.value) + " USDT";
    return Returns(Report(report));
  }

  const Stablecoins: set<string> := {"USDC", "BUSD", "DAI", "TUSD", "FDUSD", "EURS"}

  /** A symbol quoted in USDT that mentions no stablecoin. */
  predicate IsTradablePair(symbol: string)
    // a tradable symbol is at least as long as "USDT"
    ensures IsTradablePair(symbol) ==> |symbol| >= 4
  {
    Contains(symbol, "USDT") && !exists stable :: stable in Stablecoins && Contains(symbol, stable)
  }

  /** A ticker that passes both filters of `get_trading_pairs`. */
  predicate IsLiquid(t: Ticker, minVolume: real)
    // a liquid ticker is tradable and its turnover reads as a number
    ensures IsLiquid(t, minVolume) ==> IsTradablePair(t.symbol) && t.turnover24h.number.Some?
    // a turnover below the threshold rules the ticker out
    ensures t.turnover24h.number.Some? && t.turnover24h.number.value < minVolume ==> !IsLiquid(t, minVolume)
  {
    IsTradablePair(t.symbol) && t.turnover24h.number.Some? && t.turnover24h.number.value >= minVolume
  }

  /** The symbols of the liquid tickers, in input order. */
  function LiquidPairs(tickers: seq<Ticker>, minVolume: real): (pairs: seq<string>)
    // never more pairs than tickers
    ensures |pairs| <= |tickers|
  {
    if tickers == [] then []
    else
      var last := tickers[|tickers| - 1];
      LiquidPairs(tickers[..|tickers| - 1], minVolume) + (if IsLiquid(last, minVolume) then [last.symbol] else [])
  }

  /** Every turnover of the reply reads as a number. */
  predicate TurnoversRead(tickers: seq<Ticker>)
  {
    forall i :: 0 <= i < |tickers| ==> tickers[i].turnover24h.number.Some?
  }

  lemma LiquidPairsStep(tickers: seq<Ticker>, i: nat, minVolume: real)
    requires i < |tickers|
    ensures LiquidPairs(tickers[..i + 1], minVolume) ==
      LiquidPairs(tickers[..i], minVolume) + (if IsLiquid(tickers[i], minVolume) then [tickers[i].symbol] else [])
  {
    assert tickers[..i + 1][..i] == tickers[..i];
  }

  /** `get_trading_pairs`: the loop converts every turnover first, so one
      unreadable turnover raises; a failed fetch gives []. */
  method GetTradingPairs(fetch: Fetch<seq<Ticker>>, minVolume: real) returns (r: Call<seq<string>>)
    ensures fetch.FetchFailed? ==> r == Returns([])
    ensures fetch.Fetched? ==>
      r == (if TurnoversRead(fetch.response) then Returns(LiquidPairs(fetch.response, minVolume)) else Raises)
  {
    if fetch.FetchFailed? {
      return Returns([]);
    }
    var tickers := fetch.response;
    var pairs: seq<string> := [];
    var i := 0;
    while i < |tickers|
      invariant 0 <= i <= |tickers|
      invariant forall j :: 0 <= j < i ==> tickers[j].turnover24h.number.Some?
      invariant pairs == LiquidPairs(tickers[..i], minVolume)
    {
      var ticker := tickers[i];
      if ticker.turnover24h.number.None? {
        assert !TurnoversRead(tickers);
        return Raises;
      }
      var volume := ticker.turnover24h.number.value;
      LiquidPairsStep(tickers, i, minVolume);
      if IsTradablePair(ticker.symbol) {
        if volume >= minVolume {
          pairs := pairs + [ticker.symbol];
        }
      }
      i := i + 1;
    }
    assert tickers[..i] == tickers;
    return Returns(pairs);
  }

  /** A symbol is listed exactly when some liquid ticker carries it. */
  lemma {:induction false} LiquidPairsMembers(tickers: seq<Ticker>, minVolume: real, s: string)
    ensures s in LiquidPairs(tickers, minVolume) <==>
      exists i :: 0 <= i < |tickers| && tickers[i].symbol == s && IsLiquid(tickers[i], minVolume)
  {
    if s in LiquidPairs(tickers, minVolume) {
      var i := LiquidPairsWitness(tickers, minVolume, s);
    }
    if exists i :: 0 <= i < |tickers| && tickers[i].symbol == s && IsLiquid(tickers[i], minVolume) {
      var i :| 0 <= i < |tickers| && tickers[i].symbol == s && IsLiquid(tickers[i], minVolume);
      LiquidPairsKeeps(tickers, minVolume, i);
    }
  }

  /** A listed symbol comes from a liquid ticker carrying it. */
  lemma {:induction false} LiquidPairsWitness(tickers: seq<Ticker>, minVolume: real, s: string) returns (i: nat)
    requires s in LiquidPairs(tickers, minVolume)
    ensures i < |tickers| && tickers[i].symbol == s && IsLiquid(tickers[i], minVolume)
    decreases |tickers|
  {
    var n := |tickers| - 1;
    var init := tickers[..n];
    if s in LiquidPairs(init, minVolume) {
      i := LiquidPairsWitness(init, minVolume, s);
      assert tickers[i] == init[i];
    } else {
      i := n;
    }
  }

  /** A liquid ticker's symbol is listed. */
  lemma {:induction false} LiquidPairsKeeps(tickers: seq<Ticker>, minVolume: real, i: nat)
    requires i < |tickers| && IsLiquid(tickers[i], minVolume)
    ensures tickers[i].symbol in LiquidPairs(tickers, minVolume)
    decreases |tickers|
  {
    var n := |tickers| - 1;
    var init := tickers[..n];
    if i < n {
      assert init[i] == tickers[i];
      LiquidPairsKeeps(init, minVolume, i);
    }
  }

  /** Filtering distributes over concatenation, so the output keeps the
      input order. */
  lemma {:induction false} LiquidPairsAppend(a: seq<Ticker>, b: seq<Ticker>, minVolume: real)
    ensures LiquidPairs(a + b, minVolume) == LiquidPairs(a, minVolume) + LiquidPairs(b, minVolume)
    decreases |b|
  {
    if b == [] {
      assert a + b == a;
    } else {
      var n := |b| - 1;
      assert (a + b)[..|a + b| - 1] == a + b[..n];
      LiquidPairsAppend(a, b[..n], minVolume);
    }
  }

  /** Each listed symbol contains "USDT" and no stablecoin name. */
  lemma LiquidPairsTradable(tickers: seq<Ticker>, minVolume: real, s: string)
    requires s in LiquidPairs(tickers, minVolume)
    ensures Contains(s, "USDT")
    ensures forall stable :: stable in Stablecoins ==> !Contains(s, stable)
  {
  }
}
