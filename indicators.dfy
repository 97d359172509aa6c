/** The indicator engine shared by both dashboard scripts: moving averages,
    the 14-bar RSI and the MACD with its signal line, each a whole-series
    operation over the closing prices. A position whose pandas value is NaN
    is None. Arithmetic is exact (real), not IEEE double. */
module Indicators {
  import opened Wrappers

  /** A price column with no missing values, and a float column that may hold NaN. */
  type Series = seq<real>
  type Column = seq<Option<real>>

  function Last<T>(s: seq<T>): T
    requires |s| > 0
  {
    s[|s| - 1]
  }

  // ---------------------------------------------------------------- sums and means

  function Sum(s: seq<real>): real
  {
    if |s| == 0 then 0.0 else s[0] + Sum(s[1..])
  }

  function Mean(s: seq<real>): real
    requires |s| > 0
  {
    Sum(s) / (|s| as real)
  }

  lemma {:induction false} SumBounds(s: seq<real>, lo: real, hi: real)
    requires forall j :: 0 <= j < |s| ==> lo <= s[j] <= hi
    ensures (|s| as real) * lo <= Sum(s) <= (|s| as real) * hi
  {
    if |s| > 0 {
      SumBounds(s[1..], lo, hi);
      assert (|s| as real) * lo == (|s[1..]| as real) * lo + lo;
      assert (|s| as real) * hi == (|s[1..]| as real) * hi + hi;
    }
  }

  /** A mean lies between any lower and upper bound of its window. */
  lemma MeanBounds(s: seq<real>, lo: real, hi: real)
    requires |s| > 0
    requires forall j :: 0 <= j < |s| ==> lo <= s[j] <= hi
    ensures lo <= Mean(s) <= hi
  {
    var n := |s| as real;
    SumBounds(s, lo, hi);
    assert Mean(s) * n == Sum(s);
  }

  /** A sum of non-negative values is zero exactly when every value is zero. */
  lemma {:induction false} SumZeroIff(s: seq<real>)
    requires forall j :: 0 <= j < |s| ==> s[j] >= 0.0
    ensures Sum(s) >= 0.0
    ensures Sum(s) == 0.0 <==> forall j :: 0 <= j < |s| ==> s[j] == 0.0
  {
    if |s| > 0 {
      SumZeroIff(s[1..]);
      if Sum(s) == 0.0 {
        forall j | 0 <= j < |s| ensures s[j] == 0.0 {
          if j > 0 { assert s[j] == s[1..][j - 1]; }
        }
      } else {
        assert Sum(s[1..]) != 0.0 || s[0] != 0.0;
        if Sum(s[1..]) != 0.0 {
          var j :| 0 <= j < |s[1..]| && s[1..][j] != 0.0;
          assert s[j + 1] != 0.0;
        }
      }
    }
  }

  lemma {:induction false} SumConstant(s: seq<real>, c: real)
    requires forall j :: 0 <= j < |s| ==> s[j] == c
    ensures Sum(s) == (|s| as real) * c
  {
    if |s| > 0 {
      SumConstant(s[1..], c);
      assert (|s| as real) * c == (|s[1..]| as real) * c + c;
    }
  }

  // ---------------------------------------------------------------- rolling(k).mean()

  /** The float column of a price series: no NaN anywhere. */
  function Lift(xs: Series): (col: Column)
    ensures |col| == |xs|
    ensures forall i :: 0 <= i < |xs| ==> col[i] == Some(xs[i])
  {
    seq(|xs|, i requires 0 <= i < |xs| => Some(xs[i]))
  }

  predicate Defined(w: Column)
  {
    forall j :: 0 <= j < |w| ==> w[j].Some?
  }

  function Values(w: Column): (v: Series)
    requires Defined(w)
    ensures |v| == |w| && forall j :: 0 <= j < |w| ==> w[j] == Some(v[j])
  {
    seq(|w|, j requires 0 <= j < |w| => w[j].value)
  }

  /** The value at position i of rolling(k).mean() with pandas' default
      min_periods = k: the mean of the k trailing values ending at i, NaN
      when fewer than k positions exist or any of them is NaN. */
  function WindowMean(xs: Column, k: nat, i: nat): Option<real>
    requires k >= 1 && i < |xs|
  {
    if i + 1 < k then None
    else
      var w := xs[i + 1 - k .. i + 1];
      if Defined(w) then Some(Mean(Values(w))) else None
  }

  function RollingMean(xs: Column, k: nat): (r: Column)
    requires k >= 1
    ensures |r| == |xs|
  {
    seq(|xs|, i requires 0 <= i < |xs| => WindowMean(xs, k, i))
  }

  /** Simple moving average of the closes over k bars (MA20, MA50). */
  function Ma(close: Series, k: nat): (r: Column)
    requires k >= 1
    ensures |r| == |close|
  {
    RollingMean(Lift(close), k)
  }

  /** MA(k) is undefined before index k-1 and is the mean of the trailing
      k closes from there on. */
  lemma MaWindow(close: Series, k: nat, i: nat)
    requires k >= 1 && i < |close|
    ensures i + 1 < k ==> Ma(close, k)[i] == None
    ensures i + 1 >= k ==> Ma(close, k)[i] == Some(Mean(close[i + 1 - k .. i + 1]))
  {
    if i + 1 >= k {
      var w := Lift(close)[i + 1 - k .. i + 1];
      assert Defined(w);
      assert Values(w) == close[i + 1 - k .. i + 1];
    }
  }

  /** A moving average lies between the lowest and highest close of its window. */
  lemma MaWithinWindowRange(close: Series, k: nat, i: nat, lo: real, hi: real)
    requires k >= 1 && k <= i + 1 && i < |close|
    requires forall j :: i + 1 - k <= j <= i ==> lo <= close[j] <= hi
    ensures Ma(close, k)[i].Some?
    ensures lo <= Ma(close, k)[i].value <= hi
  {
    MaWindow(close, k, i);
    var w := close[i + 1 - k .. i + 1];
    forall j | 0 <= j < |w| ensures lo <= w[j] <= hi {
      assert w[j] == close[i + 1 - k + j];
    }
    MeanBounds(w, lo, hi);
  }

  predicate NonNegative(col: Column)
  {
    forall i :: 0 <= i < |col| && col[i].Some? ==> col[i].value >= 0.0
  }

  lemma RollingNonNegative(xs: Column, k: nat)
    requires k >= 1 && NonNegative(xs)
    ensures NonNegative(RollingMean(xs, k))
  {
    forall i | 0 <= i < |xs| && RollingMean(xs, k)[i].Some?
      ensures RollingMean(xs, k)[i].value >= 0.0
    {
      var w := xs[i + 1 - k .. i + 1];
      var v := Values(w);
      forall j | 0 <= j < |v| ensures v[j] >= 0.0 {
        assert w[j] == xs[i + 1 - k + j];
      }
      SumZeroIff(v);
    }
  }

  // ---------------------------------------------------------------- diff, clip, RSI

  /** The price move into bar j. */
  function Change(close: Series, j: nat): real
    requires 1 <= j < |close|
  {
    close[j] - close[j - 1]
  }

  /** Series.diff(): NaN at the first position. */
  function Diff(close: Series): (d: Column)
    ensures |d| == |close|
  {
    seq(|close|, i requires 0 <= i < |close| => if i == 0 then None else Some(Change(close, i)))
  }

  /** clip(lower=0): negative values become 0, NaN stays NaN. */
  function ClipBelowZero(col: Column): (r: Column)
    ensures |r| == |col|
  {
    seq(|col|, i requires 0 <= i < |col| =>
      match col[i]
      case None => None
      case Some(d) => Some(if d < 0.0 then 0.0 else d))
  }

  /** clip(upper=0): positive values become 0, NaN stays NaN. */
  function ClipAboveZero(col: Column): (r: Column)
    ensures |r| == |col|
  {
    seq(|col|, i requires 0 <= i < |col| =>
      match col[i]
      case None => None
      case Some(d) => Some(if d > 0.0 then 0.0 else d))
  }

  /** Unary minus on a float column. */
  function Negate(col: Column): (r: Column)
    ensures |r| == |col|
  {
    seq(|col|, i requires 0 <= i < |col| =>
      match col[i]
      case None => None
      case Some(d) => Some(-d))
  }

  function Gain(close: Series): Column
  {
    ClipBelowZero(Diff(close))
  }

  function Loss(close: Series): Column
  {
    Negate(ClipAboveZero(Diff(close)))
  }

  /** gain and loss are undefined at the first bar; afterwards both are
      non-negative, at most one is non-zero, and gain - loss is the move. */
  lemma GainLossSplit(close: Series, i: nat)
    requires i < |close|
    ensures |Gain(close)| == |Loss(close)| == |close|
    ensures i == 0 ==> Gain(close)[i] == None && Loss(close)[i] == None
    ensures i >= 1 ==> Gain(close)[i].Some? && Loss(close)[i].Some?
    ensures i >= 1 ==> Gain(close)[i].value >= 0.0 && Loss(close)[i].value >= 0.0
    ensures i >= 1 ==> Gain(close)[i].value - Loss(close)[i].value == Change(close, i)
    ensures i >= 1 ==> Gain(close)[i].value == 0.0 || Loss(close)[i].value == 0.0
  {
  }

  lemma GainLossNonNegative(close: Series)
    ensures NonNegative(Gain(close)) && NonNegative(Loss(close))
  {
    forall i | 0 <= i < |close| ensures
      (Gain(close)[i].Some? ==> Gain(close)[i].value >= 0.0) &&
      (Loss(close)[i].Some? ==> Loss(close)[i].value >= 0.0)
    {
      GainLossSplit(close, i);
    }
  }

  function AvgGain(close: Series): (r: Column)
    ensures |r| == |close|
  {
    RollingMean(Gain(close), 14)
  }

  function AvgLoss(close: Series): (r: Column)
    ensures |r| == |close|
  {
    RollingMean(Loss(close), 14)
  }

  /** 100 - 100 / (1 + avg_gain / avg_loss), with IEEE semantics for a zero
      loss: g / 0 is +inf for g > 0, giving exactly 100, and 0 / 0 is NaN.
      The result is the closed form 100 * g / (g + l), inside [0, 100]. */
  function RsiPoint(avgGain: Option<real>, avgLoss: Option<real>): (r: Option<real>)
    requires avgGain.Some? ==> avgGain.value >= 0.0
    requires avgLoss.Some? ==> avgLoss.value >= 0.0
    ensures r.Some? <==> avgGain.Some? && avgLoss.Some? && avgGain.value + avgLoss.value > 0.0
    ensures r.Some? ==> 0.0 <= r.value <= 100.0
    ensures r.Some? ==> r.value * (avgGain.value + avgLoss.value) == 100.0 * avgGain.value
  {
    match (avgGain, avgLoss)
    case (Some(g), Some(l)) =>
      if l == 0.0 then
        if g == 0.0 then None else Some(100.0)
      else
        RsiClosedForm(g, l);
        Some(100.0 - 100.0 / (1.0 + g / l))
    case _ => None
  }

  lemma RsiClosedForm(g: real, l: real)
    requires g >= 0.0 && l > 0.0
    ensures 1.0 + g / l > 0.0
    ensures 0.0 <= 100.0 - 100.0 / (1.0 + g / l) <= 100.0
    ensures (100.0 - 100.0 / (1.0 + g / l)) * (g + l) == 100.0 * g
  {
    var rs := g / l;
    assert rs * l == g;
    assert rs >= 0.0;
    var q := 100.0 / (1.0 + rs);
    assert q * (1.0 + rs) == 100.0;
    assert q <= 100.0;
    assert q > 0.0;
    calc {
      (100.0 - q) * (g + l);
      { assert g + l == l * (1.0 + rs); }
      (100.0 - q) * (l * (1.0 + rs));
      100.0 * l * (1.0 + rs) - l * (q * (1.0 + rs));
      100.0 * l * (1.0 + rs) - l * 100.0;
      100.0 * (l * rs);
      100.0 * g;
    }
  }

  /** The RSI column computed from the two averaged columns. */
  function RsiFrom(avgGain: Column, avgLoss: Column): (r: Column)
    requires |avgGain| == |avgLoss|
    requires NonNegative(avgGain) && NonNegative(avgLoss)
    ensures |r| == |avgGain|
  {
    seq(|avgGain|, i requires 0 <= i < |avgGain| => RsiPoint(avgGain[i], avgLoss[i]))
  }

  /** RSI(14) with simple 14-bar averages of gains and losses (Cutler's RSI). */
  function Rsi(close: Series): (r: Column)
    ensures |r| == |close|
  {
    GainLossNonNegative(close);
    RollingNonNegative(Gain(close), 14);
    RollingNonNegative(Loss(close), 14);
    RsiFrom(AvgGain(close), AvgLoss(close))
  }

  /** The averaged gain and loss of a complete RSI window (i >= 14): both
      defined and non-negative, the gain zero iff no move in the window is
      up, the loss zero iff no move in it is down. */
  lemma {:induction false} RsiWindowAverages(close: Series, i: nat)
    requires 14 <= i < |close|
    ensures AvgGain(close)[i].Some? && AvgLoss(close)[i].Some?
    ensures AvgGain(close)[i].value >= 0.0 && AvgLoss(close)[i].value >= 0.0
    ensures AvgGain(close)[i].value == 0.0 <==> forall j :: i - 13 <= j <= i ==> Change(close, j) <= 0.0
    ensures AvgLoss(close)[i].value == 0.0 <==> forall j :: i - 13 <= j <= i ==> Change(close, j) >= 0.0
  {
    var wg := Gain(close)[i - 13 .. i + 1];
    var wl := Loss(close)[i - 13 .. i + 1];
    forall t | 0 <= t < 14
      ensures wg[t] == Gain(close)[i - 13 + t] && wl[t] == Loss(close)[i - 13 + t]
      ensures wg[t].Some? && wl[t].Some?
      ensures wg[t].value >= 0.0 && wl[t].value >= 0.0
      ensures wg[t].value == 0.0 <==> Change(close, i - 13 + t) <= 0.0
      ensures wl[t].value == 0.0 <==> Change(close, i - 13 + t) >= 0.0
    {
      GainLossSplit(close, i - 13 + t);
    }
    var vg := Values(wg);
    var vl := Values(wl);
    assert AvgGain(close)[i] == Some(Mean(vg));
    assert AvgLoss(close)[i] == Some(Mean(vl));
    SumZeroIff(vg);
    SumZeroIff(vl);
    assert Mean(vg) * 14.0 == Sum(vg);
    assert Mean(vl) * 14.0 == Sum(vl);
    if forall j :: i - 13 <= j <= i ==> Change(close, j) <= 0.0 {
      forall t | 0 <= t < 14 ensures vg[t] == 0.0 {
        assert Change(close, i - 13 + t) <= 0.0;
      }
    }
    if forall j :: i - 13 <= j <= i ==> Change(close, j) >= 0.0 {
      forall t | 0 <= t < 14 ensures vl[t] == 0.0 {
        assert Change(close, i - 13 + t) >= 0.0;
      }
    }
    if Sum(vg) == 0.0 {
      forall j | i - 13 <= j <= i ensures Change(close, j) <= 0.0 {
        assert vg[j - (i - 13)] == 0.0;
      }
    }
    if Sum(vl) == 0.0 {
      forall j | i - 13 <= j <= i ensures Change(close, j) >= 0.0 {
        assert vl[j - (i - 13)] == 0.0;
      }
    }
  }

  /** RSI is undefined through index 13 (the first diff is NaN, so no
      14-bar window of gains is complete before index 14). */
  lemma RsiUndefinedEarly(close: Series, i: nat)
    requires i < |close| && i <= 13
    ensures Rsi(close)[i] == None
  {
    if i == 13 {
      assert Gain(close)[0 .. 14][0] == None;
      assert AvgGain(close)[i] == None;
    }
  }

  /** From index 14 on, RSI is in [0, 100] and is undefined exactly on a
      flat window (every one of the 14 moves is zero, so 0 / 0); it is
      exactly 100 when no move is down and at least one is up. */
  lemma RsiDefinedLater(close: Series, i: nat)
    requires 14 <= i < |close|
    ensures Rsi(close)[i].None? <==> forall j :: i - 13 <= j <= i ==> Change(close, j) == 0.0
    ensures Rsi(close)[i].Some? ==> 0.0 <= Rsi(close)[i].value <= 100.0
    ensures Rsi(close)[i] == Some(100.0) <==>
      (forall j :: i - 13 <= j <= i ==> Change(close, j) >= 0.0) &&
      (exists j :: i - 13 <= j <= i && Change(close, j) > 0.0)
  {
    RsiWindowAverages(close, i);
    var g := AvgGain(close)[i].value;
    var l := AvgLoss(close)[i].value;
    assert Rsi(close)[i] == RsiPoint(Some(g), Some(l));
    if forall j :: i - 13 <= j <= i ==> Change(close, j) == 0.0 {
      assert g == 0.0 && l == 0.0;
    }
    if Rsi(close)[i] == Some(100.0) {
      assert 100.0 * (g + l) == 100.0 * g;
      assert l == 0.0;
      assert g != 0.0;
      assert !(forall j :: i - 13 <= j <= i ==> Change(close, j) <= 0.0);
    }
    if (forall j :: i - 13 <= j <= i ==> Change(close, j) >= 0.0) &&
       (exists j :: i - 13 <= j <= i && Change(close, j) > 0.0) {
      assert l == 0.0;
      assert g != 0.0;
    }
  }

  // ---------------------------------------------------------------- ewm(span, adjust=False).mean()

  /** The smoothing factor 2 / (span + 1); pandas refuses a span below 1. */
  function Alpha(span: nat): (a: real)
    requires span >= 1
    ensures 0.0 < a <= 1.0
  {
    2.0 / (span as real + 1.0)
  }

  /** e[0] = x[0], e[i] = alpha * x[i] + (1 - alpha) * e[i - 1]. */
  function EmaAt(xs: Series, alpha: real, i: nat): real
    requires i < |xs|
  {
    if i == 0 then xs[0] else alpha * xs[i] + (1.0 - alpha) * EmaAt(xs, alpha, i - 1)
  }

  function Ema(xs: Series, alpha: real): (e: Series)
    ensures |e| == |xs|
  {
    seq(|xs|, i requires 0 <= i < |xs| => EmaAt(xs, alpha, i))
  }

  /** The exponential moving average computed front to back, as ewm does:
      one running value, updated once per bar. */
  method EmaLoop(xs: Series, span: nat) returns (e: Series)
    requires span >= 1
    ensures |e| == |xs|
    ensures e == Ema(xs, Alpha(span))
  {
    var alpha := Alpha(span);
    e := [];
    var i := 0;
    while i < |xs|
      invariant 0 <= i <= |xs|
      invariant |e| == i
      invariant forall j :: 0 <= j < i ==> e[j] == EmaAt(xs, alpha, j)
    {
      var next := if i == 0 then xs[0] else alpha * xs[i] + (1.0 - alpha) * e[i - 1];
      e := e + [next];
      i := i + 1;
    }
  }

  /** The EMA is seeded by the first value and follows the recursion at
      every later index; it is defined everywhere. */
  lemma EmaRecurrence(xs: Series, span: nat, i: nat)
    requires span >= 1 && i < |xs|
    ensures |Ema(xs, Alpha(span))| == |xs|
    ensures i == 0 ==> Ema(xs, Alpha(span))[i] == xs[0]
    ensures i > 0 ==> (Ema(xs, Alpha(span))[i] ==
      2.0 / (span as real + 1.0) * xs[i] + (1.0 - 2.0 / (span as real + 1.0)) * Ema(xs, Alpha(span))[i - 1])
  {
  }

  /** No look-ahead: the EMA at i does not depend on values after i. */
  lemma {:induction false} EmaNoLookAhead(xs: Series, alpha: real, n: nat, i: nat)
    requires i < n <= |xs|
    ensures EmaAt(xs[..n], alpha, i) == EmaAt(xs, alpha, i)
  {
    if i > 0 {
      EmaNoLookAhead(xs, alpha, n, i - 1);
    }
  }

  /** The EMA of a constant series is that constant. */
  lemma {:induction false} EmaConstant(xs: Series, alpha: real, c: real, i: nat)
    requires i < |xs|
    requires forall j :: 0 <= j < |xs| ==> xs[j] == c
    ensures EmaAt(xs, alpha, i) == c
  {
    if i > 0 {
      EmaConstant(xs, alpha, c, i - 1);
    }
  }

  /** With 0 <= alpha <= 1 the EMA stays within any bounds of its inputs. */
  lemma {:induction false} EmaBounds(xs: Series, alpha: real, lo: real, hi: real, i: nat)
    requires 0.0 <= alpha <= 1.0 && i < |xs|
    requires forall j :: 0 <= j < |xs| ==> lo <= xs[j] <= hi
    ensures lo <= EmaAt(xs, alpha, i) <= hi
  {
    if i > 0 {
      EmaBounds(xs, alpha, lo, hi, i - 1);
      var x, prev := xs[i], EmaAt(xs, alpha, i - 1);
      ProductNonNegative(alpha, x - lo);
      ProductNonNegative(1.0 - alpha, prev - lo);
      ProductNonNegative(alpha, hi - x);
      ProductNonNegative(1.0 - alpha, hi - prev);
      assert EmaAt(xs, alpha, i) - lo == alpha * (x - lo) + (1.0 - alpha) * (prev - lo);
      assert hi - EmaAt(xs, alpha, i) == alpha * (hi - x) + (1.0 - alpha) * (hi - prev);
    }
  }

  lemma ProductNonNegative(a: real, b: real)
    requires a >= 0.0 && b >= 0.0
    ensures a * b >= 0.0
  {
  }

  // ---------------------------------------------------------------- MACD

  /** Element-wise difference of two aligned series. */
  function Difference(a: Series, b: Series): (d: Series)
    requires |a| == |b|
    ensures |d| == |a|
  {
    seq(|a|, i requires 0 <= i < |a| => a[i] - b[i])
  }

  /** MACD = EMA12 - EMA26 of the closes. */
  function Macd(close: Series): (m: Series)
    ensures |m| == |close|
  {
    Difference(Ema(close, Alpha(12)), Ema(close, Alpha(26)))
  }

  /** The MACD signal line: EMA9 of the MACD. */
  function MacdSignal(close: Series): (s: Series)
    ensures |s| == |close|
  {
    Ema(Macd(close), Alpha(9))
  }

  /** MACD and its signal line at i are given by the three recursions with
      alpha = 2/13, 2/27 and 2/10. */
  lemma MacdAt(close: Series, i: nat)
    requires i < |close|
    ensures Macd(close)[i] == EmaAt(close, 2.0 / 13.0, i) - EmaAt(close, 2.0 / 27.0, i)
    ensures MacdSignal(close)[i] == EmaAt(Macd(close), 2.0 / 10.0, i)
  {
  }

  /** For a constant series the MACD and its signal line are zero everywhere. */
  lemma ConstantSeriesMacd(close: Series, c: real, i: nat)
    requires i < |close|
    requires forall j :: 0 <= j < |close| ==> close[j] == c
    ensures Macd(close)[i] == 0.0 && MacdSignal(close)[i] == 0.0
  {
    var m := Macd(close);
    forall j | 0 <= j < |close| ensures m[j] == 0.0 {
      EmaConstant(close, Alpha(12), c, j);
      EmaConstant(close, Alpha(26), c, j);
    }
    EmaConstant(m, Alpha(9), 0.0, i);
  }

  // ---------------------------------------------------------------- no look-ahead

  lemma RollingNoLookAhead(xs: Column, k: nat, n: nat, i: nat)
    requires k >= 1 && i < n <= |xs|
    ensures RollingMean(xs[..n], k)[i] == RollingMean(xs, k)[i]
  {
    if i + 1 >= k {
      assert xs[..n][i + 1 - k .. i + 1] == xs[i + 1 - k .. i + 1];
    }
  }

  lemma MaNoLookAhead(close: Series, k: nat, n: nat, i: nat)
    requires k >= 1 && i < n <= |close|
    ensures Ma(close[..n], k)[i] == Ma(close, k)[i]
  {
    assert Lift(close[..n]) == Lift(close)[..n];
    RollingNoLookAhead(Lift(close), k, n, i);
  }

  lemma RsiNoLookAhead(close: Series, n: nat, i: nat)
    requires i < n <= |close|
    ensures Rsi(close[..n])[i] == Rsi(close)[i]
  {
    var p := close[..n];
    assert Diff(p) == Diff(close)[..n];
    assert Gain(p) == Gain(close)[..n];
    assert Loss(p) == Loss(close)[..n];
    RollingNoLookAhead(Gain(close), 14, n, i);
    RollingNoLookAhead(Loss(close), 14, n, i);
  }

  lemma MacdNoLookAhead(close: Series, n: nat, i: nat)
    requires i < n <= |close|
    ensures Macd(close[..n])[i] == Macd(close)[i]
    ensures MacdSignal(close[..n])[i] == MacdSignal(close)[i]
  {
    var p := close[..n];
    forall j | 0 <= j < n ensures Macd(p)[j] == Macd(close)[j] {
      EmaNoLookAhead(close, Alpha(12), n, j);
      EmaNoLookAhead(close, Alpha(26), n, j);
    }
    assert Macd(p) == Macd(close)[..n];
    EmaNoLookAhead(Macd(close), Alpha(9), n, i);
  }

  /** Every indicator at position i depends only on the closes up to i:
      computing on a prefix gives the same values at the prefix's positions. */
  lemma NoLookAhead(close: Series, n: nat, i: nat)
    requires i < n <= |close|
    ensures Ma(close[..n], 20)[i] == Ma(close, 20)[i]
    ensures Ma(close[..n], 50)[i] == Ma(close, 50)[i]
    ensures Rsi(close[..n])[i] == Rsi(close)[i]
    ensures Macd(close[..n])[i] == Macd(close)[i]
    ensures MacdSignal(close[..n])[i] == MacdSignal(close)[i]
  {
    MaNoLookAhead(close, 20, n, i);
    MaNoLookAhead(close, 50, n, i);
    RsiNoLookAhead(close, n, i);
    MacdNoLookAhead(close, n, i);
  }
}
