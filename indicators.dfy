/** The decision helpers of `IndicatorCalculator` (indicators.py): the
    trade-signal rule and the shape check of `get_historical_data`. */
module Indicators {
  import opened Outcomes
  import opened BybitClient

  const NeutralSignal: string := "⚪ Нейтральный (Сила: 0)"
  const StrongBuy: string := "🟢 Покупка (Сильный)"
  const WeakBuy: string := "🟢 Покупка (Слабый)"
  const StrongSell: string := "🔴 Продажа (Сильный)"
  const WeakSell: string := "🔴 Продажа (Слабый)"

  /** The five strings the signal rule can produce. */
  const Signals: set<string> := {NeutralSignal, StrongBuy, WeakBuy, StrongSell, WeakSell}

  predicate IsBuySignal(s: string) { s == StrongBuy || s == WeakBuy }
  predicate IsSellSignal(s: string) { s == StrongSell || s == WeakSell }

  /** `generate_trade_signal`: oversold RSI with MACD above its signal line
      buys, overbought RSI with MACD below it sells, anything else is
      neutral; the extreme RSI bands make the signal strong. */
  function GenerateTradeSignal(rsi: real, macd: real, macdSignal: real): (s: string)
    ensures s in Signals
    ensures IsBuySignal(s) <==> rsi < 30.0 && macd > macdSignal
    ensures s == StrongBuy <==> rsi < 20.0 && macd > macdSignal
    ensures IsSellSignal(s) <==> rsi > 70.0 && macd < macdSignal
    ensures s == StrongSell <==> rsi > 80.0 && macd < macdSignal
    ensures s == NeutralSignal <==>
      !(rsi < 30.0 && macd > macdSignal) && !(rsi > 70.0 && macd < macdSignal)
  {
    if rsi < 30.0 && macd > macdSignal then
      (if rsi < 20.0 then StrongBuy else WeakBuy)
    else if rsi > 70.0 && macd < macdSignal then
      (if rsi > 80.0 then StrongSell else WeakSell)
    else
      NeutralSignal
  }

  /** A mid-band RSI, or MACD on its signal line, is always neutral. */
  lemma NeutralBand(rsi: real, macd: real, macdSignal: real)
    requires (30.0 <= rsi <= 70.0) || macd == macdSignal
    ensures GenerateTradeSignal(rsi, macd, macdSignal) == NeutralSignal
  {
  }

  /** Lowering RSI while MACD stays above its line never weakens a buy. */
  lemma BuyStrengthensAsRsiFalls(rsi1: real, rsi2: real, macd: real, macdSignal: real)
    requires rsi2 <= rsi1
    requires IsBuySignal(GenerateTradeSignal(rsi1, macd, macdSignal))
    ensures IsBuySignal(GenerateTradeSignal(rsi2, macd, macdSignal))
    ensures GenerateTradeSignal(rsi1, macd, macdSignal) == StrongBuy ==>
      GenerateTradeSignal(rsi2, macd, macdSignal) == StrongBuy
  {
  }

  const BaseColumns: seq<string> := ["timestamp", "open", "high", "low", "close", "volume"]

  /** The rows of a kline reply under their column names. */
  datatype Frame = Frame(columns: seq<string>, rows: seq<Row>)

  /** `get_historical_data`, on the reply `get_kline(symbol)` gives: None
      unless the reply has a non-empty "result"/"list" (an empty list makes
      `raw_data[0]` raise IndexError, which is caught); otherwise the rows
      under the six base column names, with "turnover" appended when the
      first row has seven fields. */
  method GetHistoricalData(response: Option<KlineResponse>) returns (df: Option<Frame>)
    ensures df.Some? <==>
      response.Some? && response.value.result.Some? &&
      response.value.result.value.list.Some? && response.value.result.value.list.value != []
    ensures df.Some? ==>
      var rawData := response.value.result.value.list.value;
      df.value.rows == rawData &&
      |df.value.columns| == (if |rawData[0]| == 7 then 7 else 6) &&
      df.value.columns[..6] == BaseColumns &&
      (|rawData[0]| == 7 ==> df.value.columns[6] == "turnover")
  {
    if response.None? || response.value.result.None? || response.value.result.value.list.None? {
      return None;
    }
    var rawData := response.value.result.value.list.value;
    if rawData == [] {
      return None;
    }
    var columns := BaseColumns;
    if |rawData[0]| == 7 {
      columns := columns + ["turnover"];
    }
    df := Some(Frame(columns, rawData));
  }
}
