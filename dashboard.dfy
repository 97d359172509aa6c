/** The parts both dashboard scripts share: the price DataFrame whose
    indicator columns are written in place, the indicator block that writes
    them, and what one evaluation shows. */
module Dashboard {
  import opened Wrappers
  import opened Indicators
  import opened Signals

  /** The indicator columns the scripts add to a DataFrame. */
  datatype ColumnName = MA20 | MA50 | RSI | MACD | MACDSignal

  /** A downloaded price DataFrame: its Close column, fixed once
      downloaded, and the indicator columns assigned into it. Every column
      is aligned with Close. */
  class Frame {
    const close: Series
    var columns: map<ColumnName, Column>

    ghost predicate Valid()
      reads this
    {
      forall name :: name in columns ==> |columns[name]| == |close|
    }

    constructor (close: Series)
      ensures this.close == close && columns == map[]
      ensures Valid()
    {
      this.close := close;
      columns := map[];
    }

    /** `frame[name] = values`: add the column, or replace it if present. */
    method Assign(name: ColumnName, values: Column)
      requires Valid() && |values| == |close|
      modifies this
      ensures Valid()
      ensures columns == old(columns)[name := values]
    {
      columns := columns[name := values];
    }
  }

  /** The indicator block of both scripts: MA20 and MA50, then RSI from the
      clipped diffs, then MACD from two EMAs and its signal line, each
      assigned as a column of the instrument's frame. */
  method AddIndicators(data: Frame)
    requires data.Valid()
    modifies data
    ensures data.Valid()
    ensures data.columns == old(data.columns)
      [MA20 := Ma(data.close, 20)]
      [MA50 := Ma(data.close, 50)]
      [RSI := Rsi(data.close)]
      [MACD := Lift(Macd(data.close))]
      [MACDSignal := Lift(MacdSignal(data.close))]
  {
    var close := data.close;
    data.Assign(MA20, Ma(close, 20));
    data.Assign(MA50, Ma(close, 50));

    var delta := Diff(close);
    var gain := ClipBelowZero(delta);
    var loss := Negate(ClipAboveZero(delta));
    var avgGain := RollingMean(gain, 14);
    var avgLoss := RollingMean(loss, 14);
    GainLossNonNegative(close);
    RollingNonNegative(gain, 14);
    RollingNonNegative(loss, 14);
    data.Assign(RSI, RsiFrom(avgGain, avgLoss));

    var ema12 := EmaLoop(close, 12);
    var ema26 := EmaLoop(close, 26);
    var macd := Difference(ema12, ema26);
    data.Assign(MACD, Lift(macd));
    var signal := EmaLoop(macd, 9);
    data.Assign(MACDSignal, Lift(signal));
  }

  /** What one evaluation displays: the signal, the trend label, the last
      price, the last RSI and whether the price alert fired. */
  datatype Report = Report(signal: Signal, trend: Trend, lastPrice: real, rsi: Option<real>, alert: bool)

  /** How one run of a script ends: stopped because the instrument has no
      data, ended by an uncaught exception, or showing a report. */
  datatype Outcome = Stopped | Crashed | Shown(report: Report)

  /** The report for a non-empty instrument series under a given trend. */
  function Evaluate(close: Series, trend: Trend, alertInput: Option<real>): Report
    requires |close| > 0
  {
    Report(Decide(LatestRow(close), trend), trend, Last(close), Last(Rsi(close)),
           AlertTriggered(Last(close), AlertPrice(alertInput, Last(close))))
  }

  /** Reads the latest instrument row out of a frame whose indicator
      columns were written by AddIndicators. */
  method ReadLatestRow(data: Frame) returns (row: Row)
    requires |data.close| > 0
    requires MA20 in data.columns && data.columns[MA20] == Ma(data.close, 20)
    requires RSI in data.columns && data.columns[RSI] == Rsi(data.close)
    requires MACD in data.columns && data.columns[MACD] == Lift(Macd(data.close))
    requires MACDSignal in data.columns && data.columns[MACDSignal] == Lift(MacdSignal(data.close))
    ensures row == LatestRow(data.close)
    ensures row.close == Some(Last(data.close)) && row.macd.Some? && row.macdSignal.Some?
  {
    var n := |data.close|;
    row := Row(Some(data.close[n - 1]), data.columns[MA20][n - 1], data.columns[RSI][n - 1],
               data.columns[MACD][n - 1], data.columns[MACDSignal][n - 1]);
  }
}
