/** The pure pieces of the auto-trading module (autotrade.py): order sizing,
    stop-loss and take-profit levels, the balance parse of the trading loop,
    its side mapping, and the start/stop switch. */
module AutoTrade {
  import opened Outcomes
  import opened PyText
  import opened BybitClient
  import opened Indicators

  /** `risk_percent.get(strength, 0)`: percent of the balance per strength. */
  function RiskPercent(strength: int): (p: real)
    // at most 10 percent, 2 at the weakest signal, and nothing for an unknown strength
    ensures 0.0 <= p <= 10.0
    ensures p > 0.0 <==> 1 <= strength <= 3
    ensures strength == 1 ==> p == 2.0
  {
    if strength == 1 then 2.0 else if strength == 2 then 5.0 else if strength == 3 then 10.0 else 0.0
  }

  /** `np.clip(x, lo, hi)`. */
  function Clip(x: real, lo: real, hi: real): (r: real)
    requires lo <= hi
    ensures lo <= r <= hi
    ensures lo <= x <= hi ==> r == x
    ensures x < lo ==> r == lo
    ensures x > hi ==> r == hi
  {
    if x < lo then lo else if x > hi then hi else x
  }

  /** The volatility multiplier: ATR / 10, kept within [0.5, 2]. */
  function AtrMultiplier(atr: real): (m: real)
    ensures 0.5 <= m <= 2.0
    ensures 5.0 <= atr <= 20.0 ==> m == atr / 10.0
  {
    Clip(atr / 10.0, 0.5, 2.0)
  }

  /** `calculate_trade_size`: the order size, before its rounding to four
      places. */
  function CalculateTradeSize(balance: real, strength: int, atr: real): (size: Rounded)
    ensures size.places == 4
    ensures strength !in {1, 2, 3} ==> size.exact == 0.0
  {
    var percent := RiskPercent(strength) * AtrMultiplier(atr);
    Round(balance * percent / 100.0, 4)
  }

  /** For a non-negative balance the size lies between the bounds the
      multiplier's floor 0.5 and ceiling 2 give. */
  lemma TradeSizeBounds(balance: real, strength: int, atr: real)
    requires balance >= 0.0
    ensures balance * RiskPercent(strength) / 200.0 <= CalculateTradeSize(balance, strength, atr).exact
    ensures CalculateTradeSize(balance, strength, atr).exact <= balance * RiskPercent(strength) / 50.0
  {
    var p, m := RiskPercent(strength), AtrMultiplier(atr);
    var e := CalculateTradeSize(balance, strength, atr).exact;
    var bp := balance * p;
    assert e == bp * m / 100.0 by {
      assert balance * (p * m) == bp * m;
    }
    assert bp >= 0.0;
    ProductBounds(bp, m, e);
  }

  /** A non-negative amount scaled by a multiplier in [0.5, 2], in percent. */
  lemma ProductBounds(x: real, m: real, y: real)
    requires x >= 0.0 && 0.5 <= m <= 2.0 && y == x * m / 100.0
    ensures x / 200.0 <= y <= x / 50.0
  {
  }

  /** A stronger signal never gives a smaller order, for a fixed
      non-negative balance and ATR. */
  lemma TradeSizeMonotone(balance: real, atr: real, s1: int, s2: int)
    requires balance >= 0.0 && 1 <= s1 <= s2 <= 3
    ensures CalculateTradeSize(balance, s1, atr).exact <= CalculateTradeSize(balance, s2, atr).exact
  {
  }

  /** `atr_factor.get(strength, 0.5)`. */
  function AtrFactor(strength: int): (f: real)
    // between half and one and a half ATR; an unknown strength counts as strength 1
    ensures 0.5 <= f <= 1.5
    ensures f == 0.5 <==> !(2 <= strength <= 3)
    ensures f == 1.5 <==> strength == 3
  {
    if strength == 1 then 0.5 else if strength == 2 then 1.0 else if strength == 3 then 1.5 else 0.5
  }

  function Abs(x: real): real { if x < 0.0 then -x else x }

  /** The stop-loss and take-profit pair, each rounded to two places. */
  datatype Levels = Levels(sl: Rounded, tp: Rounded)

  /** `calculate_sl_tp`: a "BUY" stops below the price and takes profit
      above it, any other signal the mirror image; the target is twice as
      far from the price as the stop. */
  function CalculateSlTp(lastPrice: real, signal: string, strength: int, atr: real): (levels: Levels)
    ensures levels.sl.places == 2 && levels.tp.places == 2
    ensures signal == "BUY" && atr >= 0.0 ==> levels.sl.exact <= lastPrice <= levels.tp.exact
    ensures signal != "BUY" && atr >= 0.0 ==> levels.tp.exact <= lastPrice <= levels.sl.exact
    ensures Abs(levels.tp.exact - lastPrice) == 2.0 * Abs(levels.sl.exact - lastPrice)
  {
    var factor := AtrFactor(strength) * atr;
    var sl := if signal == "BUY" then lastPrice - factor else lastPrice + factor;
    var tp := if signal == "BUY" then lastPrice + factor * 2.0 else lastPrice - factor * 2.0;
    Levels(Round(sl, 2), Round(tp, 2))
  }

  /** An unknown strength is treated like strength 1. */
  lemma SlTpDefaultStrength(lastPrice: real, signal: string, strength: int, atr: real)
    requires strength !in {1, 2, 3}
    ensures CalculateSlTp(lastPrice, signal, strength, atr) == CalculateSlTp(lastPrice, signal, 1, atr)
  {
  }

  /** The marker the trading loop splits the balance report on. */
  const TotalMarker: string := "*Общий баланс:* "

  /** The balance text of the trading loop:
      `balance.split(marker)[1].split(" ")[0].replace(",", "")`, before its
      `float()` conversion. A report without the marker raises IndexError. */
  function BalanceText(balance: string): (t: Call<string>)
    ensures t.Returns? <==> Contains(balance, TotalMarker)
    ensures t.Returns? ==> ',' !in t.value && ' ' !in t.value
  {
    var parts := Split(balance, TotalMarker);
    if |parts| < 2 then Raises
    else
      var head := Split(parts[1], " ")[0];
      SplitPiecesFree(parts[1], " ", 0);
      NoSpaceChar(head);
      Returns(RemoveChar(head, ','))
  }

  lemma NoSpaceChar(s: string)
    requires !Contains(s, " ")
    ensures ' ' !in s
  {
    if ' ' in s {
      var i :| 0 <= i < |s| && s[i] == ' ';
      assert OccursAt(s, " ", i);
    }
  }

  /** Text as `,.2f` formats a number: digits, commas, a dot, a sign. */
  predicate IsNumeral(t: string)
  {
    forall i :: 0 <= i < |t| ==> t[i] in "0123456789,.-"
  }

  /** Before the total label, the report holds no occurrence of the marker
      when its header and coin lines hold none: the rule and the card emoji
      cannot take part in one. */
  lemma MarkerOnlyAtTotal(a: string, rest: string)
    requires !Contains(a, TotalMarker)
    ensures forall j :: 0 <= j < |a + ReportRule + "💳 "| ==>
      !OccursAt(a + ReportRule + "💳 " + TotalMarker + rest, TotalMarker, j)
  {
    var tailOfPre := ReportRule + "💳 ";
    var pre := a + ReportRule + "💳 ";
    var report := a + ReportRule + "💳 " + TotalMarker + rest;
    assert pre == a + tailOfPre;
    assert report == pre + TotalMarker + rest;
    forall j | 0 <= j < |pre| ensures !OccursAt(report, TotalMarker, j) {
      var n := |TotalMarker|;
      if j + n <= |a| {
        assert report[j..j + n] == a[j..j + n];
        assert !OccursAt(a, TotalMarker, j);
        assert report[j..j + n] != TotalMarker;
      } else if j + n <= |report| {
        // the first character of the window that lies past `a`
        var q := if j < |a| then |a| else j;
        assert report[q] == tailOfPre[q - |a|];
        assert report[j..j + n][q - j] == report[q];
        if q == j {
          assert '*' !in tailOfPre;
          assert TotalMarker[0] == '*';
        } else {
          assert tailOfPre[0] == '━';
          assert '━' !in TotalMarker;
        }
        assert report[j..j + n] != TotalMarker;
      }
    }
  }

  /** The report is its header and coin lines, the rule and the card
      emoji, the marker, and the total with its unit. */
  lemma ReportShape(coins: seq<Coin>, totalText: string)
    ensures BalanceReport(coins, totalText) ==
      ReportHeader + CoinLines(coins) + ReportRule + "💳 " + TotalMarker + (totalText + " USDT")
  {
  }

  /** Split on the marker, a text with one occurrence of it gives the two
      sides around it. */
  lemma SplitAtOnlyMarker(pre: string, tail: string)
    requires forall j :: 0 <= j < |pre| ==> !OccursAt(pre + TotalMarker + tail, TotalMarker, j)
    requires '*' !in tail
    ensures Split(pre + TotalMarker + tail, TotalMarker) == [pre, tail]
  {
    var report := pre + TotalMarker + tail;
    assert report[|pre|..|pre| + |TotalMarker|] == TotalMarker;
    FindFirstOccurrence(report, TotalMarker, |pre|);
    assert report[..|pre|] == pre;
    assert report[|pre| + |TotalMarker|..] == tail;
    FindAbsent(tail, TotalMarker);
  }

  /** A formatted total followed by its unit: the piece before the first
      space is the total, and no '*' occurs. */
  lemma NumeralThenUnit(totalText: string)
    requires IsNumeral(totalText)
    ensures '*' !in totalText + " USDT"
    ensures Split(totalText + " USDT", " ")[0] == totalText
  {
    var tail := totalText + " USDT";
    forall i | 0 <= i < |tail| ensures tail[i] != '*' {
      if i < |totalText| {
        assert tail[i] == totalText[i];
      }
    }
    assert tail[|totalText|..|totalText| + 1] == " ";
    forall j | 0 <= j < |totalText| ensures !OccursAt(tail, " ", j) {
      assert tail[j..j + 1][0] == totalText[j];
    }
    FindFirstOccurrence(tail, " ", |totalText|);
    assert tail[..|totalText|] == totalText;
  }

  /** The trading loop reads back the total that the text report of
      `get_wallet_balance` carries: for a formatted total and coin lines
      that do not spell out the marker, the parse gives the total's text
      with its thousands separators removed. */
  lemma ReportBalanceRoundTrip(coins: seq<Coin>, totalText: string)
    requires IsNumeral(totalText)
    requires !Contains(ReportHeader + CoinLines(coins), TotalMarker)
    ensures BalanceText(BalanceReport(coins, totalText)) == Returns(RemoveChar(totalText, ','))
  {
    var a := ReportHeader + CoinLines(coins);
    var tail := totalText + " USDT";
    ReportShape(coins, totalText);
    MarkerOnlyAtTotal(a, tail);
    NumeralThenUnit(totalText);
    SplitAtOnlyMarker(a + ReportRule + "💳 ", tail);
  }

  /** Line 78 of the trading loop: the order side for a signal. */
  function OrderSide(signal: string): (side: string)
    ensures side == "Buy" <==> signal == "🟢 Покупка"
    ensures side == "Buy" || side == "Sell"
  {
    if signal == "🟢 Покупка" then "Buy" else "Sell"
  }

  /** None of the strings the signal rule produces is the one line 78
      compares with, so fed with them the loop would always sell, and
      `calculate_sl_tp` never sees "BUY" among them either. */
  lemma SignalsNeverBuy(rsi: real, macd: real, macdSignal: real)
    ensures OrderSide(GenerateTradeSignal(rsi, macd, macdSignal)) == "Sell"
    ensures GenerateTradeSignal(rsi, macd, macdSignal) != "BUY"
  {
  }

  const StartedMsg: string := "⚙️ Автоторговля запущена!"
  const AlreadyStartedMsg: string := "⚙️ Автоторговля уже запущена!"
  const StoppedMsg: string := "⏹ Автоторговля остановлена!"
  const AlreadyStoppedMsg: string := "⏹ Автоторговля уже остановлена!"

  /** The handle `asyncio.create_task` returns for the trading loop; only
      whether it was cancelled is modelled. */
  class Task {
    var cancelled: bool

    constructor ()
      ensures !cancelled
    {
      cancelled := false;
    }

    method Cancel()
      modifies this
      ensures cancelled
    {
      cancelled := true;
    }
  }

  /** The module globals `auto_trade_active` and `auto_trade_task`. */
  class AutoTrader {
    var active: bool
    var task: Option<Task>

    ghost function TaskFrame(): set<object>
      reads this
    {
      if task.Some? then {task.value} else {}
    }

    /** Trading is active exactly when a task exists that was not cancelled. */
    ghost predicate Valid()
      reads this, TaskFrame()
    {
      active <==> (task.Some? && !task.value.cancelled)
    }

    /** The state at import: inactive, no task. */
    constructor ()
      ensures Valid() && !active && task.None?
    {
      active := false;
      task := None;
    }

    /** `start_auto_trade`: idempotent; a first start creates a new task. */
    method Start() returns (msg: string)
      requires Valid()
      modifies this
      ensures Valid() && active
      ensures old(active) ==> msg == AlreadyStartedMsg && task == old(task)
      ensures !old(active) ==> msg == StartedMsg && task.Some? && fresh(task.value)
    {
      if active {
        return AlreadyStartedMsg;
      }
      active := true;
      var t := new Task();
      task := Some(t);
      return StartedMsg;
    }

    /** `stop_auto_trade`: idempotent; a first stop cancels the task, which
        stays recorded. */
    method Stop() returns (msg: string)
      requires Valid()
      modifies this, TaskFrame()
      ensures Valid() && !active && task == old(task)
      ensures !old(active) ==> msg == AlreadyStoppedMsg && (task.Some? ==> unchanged(task.value))
      ensures old(active) ==> msg == StoppedMsg && task.Some? && task.value.cancelled
    {
      if !active {
        return AlreadyStoppedMsg;
      }
      active := false;
      if task.Some? {
        task.value.Cancel();
      }
      return StoppedMsg;
    }
  }

  /** From import: start, start again, stop, stop again. */
  method StartTwiceStopTwice() returns (m1: string, m2: string, m3: string, m4: string)
    ensures m1 == StartedMsg && m2 == AlreadyStartedMsg
    ensures m3 == StoppedMsg && m4 == AlreadyStoppedMsg
  {
    var trader := new AutoTrader();
    m1 := trader.Start();
    m2 := trader.Start();
    m3 := trader.Stop();
    m4 := trader.Stop();
  }
}
