/** jai.py: one evaluation of the dashboard, from the two downloaded close
    series to the displayed signal, trend and alert. */
module Jai {
  import opened Wrappers
  import opened Indicators
  import opened Signals
  import opened Dashboard

  /** The index frame gets its MA50 column, assigned once. */
  method AddIndexAverage(nifty: Frame)
    requires nifty.Valid()
    modifies nifty
    ensures nifty.Valid()
    ensures nifty.columns == old(nifty.columns)[MA50 := Ma(nifty.close, 50)]
  {
    nifty.Assign(MA50, Ma(nifty.close, 50));
  }

  /** The trend label starts at "not enough data" and is overwritten inside
      a guarded block: reading the last row of an empty index raises, and the
      handler labels that a data error. A NaN MA50 keeps the default. */
  method MarketTrend(nifty: Frame) returns (trend: Trend)
    requires nifty.Valid()
    requires MA50 in nifty.columns && nifty.columns[MA50] == Ma(nifty.close, 50)
    ensures trend == IndexTrend(nifty.close)
    ensures trend == DataError <==> |nifty.close| == 0
    ensures trend == NotEnoughData <==> 0 < |nifty.close| < 50
  {
    trend := NotEnoughData;
    var n := |nifty.close|;
    if n == 0 {
      // iloc[-1] raises IndexError; the except clause relabels
      trend := DataError;
    } else {
      var indexClose := nifty.close[n - 1];
      var indexMa50 := nifty.columns[MA50][n - 1];
      if indexMa50.Some? {
        if indexClose > indexMa50.value {
          trend := Bullish;
        } else {
          trend := Bearish;
        }
      }
      LabelTrendOfIndex(nifty.close);
    }
  }

  /** One run of the script. An empty instrument series stops it before any
      indicator is computed; otherwise it shows the signal decided on the
      instrument's latest row under the index trend, and the alert state for
      the given alert price (the latest close when left at its default). */
  method Run(stockClose: Series, indexClose: Series, alertInput: Option<real>) returns (outcome: Outcome)
    ensures outcome == Stopped <==> |stockClose| == 0
    ensures outcome != Crashed
    ensures |stockClose| > 0 ==> outcome == Shown(Evaluate(stockClose, IndexTrend(indexClose), alertInput))
  {
    var data := new Frame(stockClose);
    var nifty := new Frame(indexClose);
    if |data.close| == 0 {
      return Stopped;
    }
    AddIndicators(data);
    AddIndexAverage(nifty);
    var trend := MarketTrend(nifty);
    var row := ReadLatestRow(data);
    var signal := Decide(row, trend);
    var close := row.close.value;
    var alertPrice := AlertPrice(alertInput, close);
    outcome := Shown(Report(signal, trend, close, row.rsi, AlertTriggered(close, alertPrice)));
  }
}
