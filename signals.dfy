/** The signal classifier: the market-trend label of the index, the
    BUY/SELL/HOLD rule over the instrument's latest indicator values, and the
    price alert. Every decision is a pure function of latest values. */
module Signals {
  import opened Wrappers
  import opened Indicators

  /** The dashboard's market-trend labels. DataError is only produced by the
      jai.py labeller, whose exception handler catches an empty index. */
  datatype Trend = NotEnoughData | Bullish | Bearish | DataError

  datatype Signal = Buy | Sell | Hold

  /** The latest instrument values, each a Python float that may be NaN. */
  datatype Row = Row(
    close: Option<real>,
    ma20: Option<real>,
    rsi: Option<real>,
    macd: Option<real>,
    macdSignal: Option<real>)

  /** Python's `a > b` on floats: False whenever either side is NaN. */
  predicate Gt(a: Option<real>, b: Option<real>)
  {
    a.Some? && b.Some? && a.value > b.value
  }

  /** Python's `a < b` on floats: False whenever either side is NaN. */
  predicate Lt(a: Option<real>, b: Option<real>)
  {
    Gt(b, a)
  }

  /** The BUY test of the if/elif chain. */
  predicate BuyTest(row: Row, trend: Trend)
  {
    Gt(row.close, row.ma20) && Lt(row.rsi, Some(70.0)) && Gt(row.macd, row.macdSignal) && trend == Bullish
  }

  /** The SELL test of the if/elif chain. */
  predicate SellTest(row: Row)
  {
    Lt(row.close, row.ma20) && Gt(row.rsi, Some(30.0))
  }

  /** First match wins: BUY, then SELL, otherwise HOLD. */
  function Decide(row: Row, trend: Trend): Signal
  {
    if BuyTest(row, trend) then Buy
    else if SellTest(row) then Sell
    else Hold
  }

  /** The latest row of the instrument's indicator frame. */
  function LatestRow(close: Series): Row
    requires |close| > 0
  {
    Row(Some(Last(close)), Last(Ma(close, 20)), Last(Rsi(close)),
        Some(Last(Macd(close))), Some(Last(MacdSignal(close))))
  }

  // ---------------------------------------------------------------- market trend

  /** The if/elif chain on the index's latest close and MA50. */
  function LabelTrend(indexClose: real, indexMa50: Option<real>): Trend
  {
    if indexMa50.None? then NotEnoughData
    else if indexClose > indexMa50.value then Bullish
    else Bearish
  }

  /** The trend label of an index series stated directly on its closes:
      an error for no data, too little data below 50 bars, otherwise Bullish
      exactly when the latest close is strictly above the mean of the last
      50 closes (a tie is Bearish). */
  function IndexTrend(index: Series): Trend
  {
    if |index| == 0 then DataError
    else if |index| < 50 then NotEnoughData
    else if Last(index) > Mean(index[|index| - 50..]) then Bullish
    else Bearish
  }

  /** Labelling the latest close and MA50 of a non-empty index gives the
      closed-form trend. */
  lemma LabelTrendOfIndex(index: Series)
    requires |index| > 0
    ensures LabelTrend(Last(index), Last(Ma(index, 50))) == IndexTrend(index)
    ensures LabelTrend(Last(index), Last(Ma(index, 50))) != DataError
  {
    var n := |index|;
    MaWindow(index, 50, n - 1);
    if n >= 50 {
      assert index[n - 50 .. n] == index[n - 50..];
    }
  }

  // ---------------------------------------------------------------- properties of the rule

  /** BUY needs the Bullish label; every other label gives the same signal
      as Bearish, so no non-Bullish label can produce BUY. */
  lemma BuyRequiresBullish(row: Row, trend: Trend)
    ensures Decide(row, trend) == Buy ==> trend == Bullish
    ensures trend != Bullish ==> Decide(row, trend) == Decide(row, Bearish) != Buy
  {
  }

  /** BUY exactly when the close is above MA20, the RSI below 70 and the
      MACD above its signal line, all defined, under the Bullish label; SELL
      exactly when BUY fails and the close is below MA20 with the RSI above
      30, both defined; HOLD otherwise. */
  lemma SignalMeaning(row: Row, trend: Trend)
    ensures Decide(row, trend) == Buy <==>
      row.close.Some? && row.ma20.Some? && row.close.value > row.ma20.value &&
      row.rsi.Some? && row.rsi.value < 70.0 &&
      row.macd.Some? && row.macdSignal.Some? && row.macd.value > row.macdSignal.value &&
      trend == Bullish
    ensures Decide(row, trend) == Sell <==>
      Decide(row, trend) != Buy &&
      row.close.Some? && row.ma20.Some? && row.close.value < row.ma20.value &&
      row.rsi.Some? && row.rsi.value > 30.0
    ensures Decide(row, trend) == Hold <==> !BuyTest(row, trend) && !SellTest(row)
  {
  }

  /** The BUY and SELL tests never hold together, so precedence only
      matters for HOLD: SELL is returned exactly when its test holds. */
  lemma BuySellExclusive(row: Row, trend: Trend)
    ensures !(BuyTest(row, trend) && SellTest(row))
    ensures Decide(row, trend) == Sell <==> SellTest(row)
  {
  }

  /** An undefined MA20 or RSI, or a close equal to MA20, gives HOLD. */
  lemma UndefinedOrTieHolds(row: Row, trend: Trend)
    requires row.ma20.None? || row.rsi.None? || row.close == row.ma20
    ensures Decide(row, trend) == Hold
  {
  }

  /** Two worked cases: a bullish market with price above MA20, moderate
      RSI and MACD above its signal buys; price below MA20 with RSI above 30
      sells. */
  lemma WorkedExamples()
    ensures Decide(Row(Some(105.0), Some(100.0), Some(50.0), Some(1.2), Some(1.0)), Bullish) == Buy
    ensures forall trend: Trend, macd: Option<real>, sig: Option<real> ::
      Decide(Row(Some(90.0), Some(100.0), Some(35.0), macd, sig), trend) == Sell
  {
  }

  /** A series shorter than 20 bars has no MA20 at its last bar: HOLD. */
  lemma ShortSeriesHolds(close: Series, trend: Trend)
    requires 0 < |close| < 20
    ensures Last(Ma(close, 20)) == None
    ensures Decide(LatestRow(close), trend) == Hold
  {
    MaWindow(close, 20, |close| - 1);
  }

  /** A constant close series never trades: MACD equals its signal line
      (both zero) and MA20, where defined, equals the close. */
  lemma ConstantSeriesHolds(close: Series, c: real, trend: Trend)
    requires |close| > 0
    requires forall j :: 0 <= j < |close| ==> close[j] == c
    ensures Last(Macd(close)) == Last(MacdSignal(close)) == 0.0
    ensures Decide(LatestRow(close), trend) == Hold
  {
    var n := |close|;
    ConstantSeriesMacd(close, c, n - 1);
    MaWindow(close, 20, n - 1);
    if n >= 20 {
      var w := close[n - 20 .. n];
      SumConstant(w, c);
      assert Last(Ma(close, 20)) == Some(c);
    }
  }

  // ---------------------------------------------------------------- price alert

  /** The alert price: the user's input, or the latest close by default. */
  function AlertPrice(input: Option<real>, close: real): real
  {
    input.GetOr(close)
  }

  /** The alert fires when the latest close reaches the alert price. */
  predicate AlertTriggered(close: real, alertPrice: real)
  {
    close >= alertPrice
  }

  /** Left at its default, the alert always fires; otherwise it fires
      exactly when the close is at or above the chosen price. */
  lemma AlertBehaviour(close: real, input: Option<real>)
    ensures AlertTriggered(close, AlertPrice(None, close))
    ensures input.Some? ==> (AlertTriggered(close, AlertPrice(input, close)) <==> close >= input.value)
  {
  }
}
