/** stock.py: the same evaluation as jai.py, with the index MA50 assigned
    twice and no guard around reading the index's last row. */
module Stock {
  import opened Wrappers
  import opened Indicators
  import opened Signals
  import opened Dashboard

  /** The index frame gets its MA50 column, assigned twice in a row; the
      second assignment writes the same column again, so the frame ends as
      after one assignment. */
  method AddIndexAverage(nifty: Frame)
    requires nifty.Valid()
    modifies nifty
    ensures nifty.Valid()
    ensures nifty.columns == old(nifty.columns)[MA50 := Ma(nifty.close, 50)]
  {
    nifty.Assign(MA50, Ma(nifty.close, 50));
    nifty.Assign(MA50, Ma(nifty.close, 50));
  }

  /** One run of the script. An empty instrument series stops it; an empty
      index series then ends it with an uncaught IndexError when its last
      row is read; otherwise it shows the same report as jai.py. */
  method Run(stockClose: Series, indexClose: Series, alertInput: Option<real>) returns (outcome: Outcome)
    ensures outcome == Stopped <==> |stockClose| == 0
    ensures outcome == Crashed <==> |stockClose| > 0 && |indexClose| == 0
    ensures |stockClose| > 0 && |indexClose| > 0 ==>
      outcome == Shown(Evaluate(stockClose, IndexTrend(indexClose), alertInput))
  {
    var data := new Frame(stockClose);
    var nifty := new Frame(indexClose);
    if |data.close| == 0 {
      return Stopped;
    }
    AddIndicators(data);
    AddIndexAverage(nifty);
    var m := |nifty.close|;
    if m == 0 {
      // iloc[-1] on the empty index raises; nothing catches it
      return Crashed;
    }
    var trend := LabelTrend(nifty.close[m - 1], nifty.columns[MA50][m - 1]);
    LabelTrendOfIndex(nifty.close);
    var row := ReadLatestRow(data);
    var signal := Decide(row, trend);
    var close := row.close.value;
    var alertPrice := AlertPrice(alertInput, close);
    outcome := Shown(Report(signal, trend, close, row.rsi, AlertTriggered(close, alertPrice)));
  }
}
