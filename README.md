# Stock dashboard indicator engine and signal classifier

This project models the computational core of two near-identical Streamlit
dashboard scripts, `jai.py` and `stock.py`. Each script downloads about six
months of daily bars for one NSE stock and for the NIFTY index. It adds
indicator columns to the two price DataFrames and labels the market trend
from the index. Then it decides a BUY/SELL/HOLD signal from the stock's
latest values and checks a price alert.

The model covers everything between the download and the display:

- `Indicators` holds the whole-series operations as pure functions over
  `seq<real>`. These are `rolling(k).mean()`, `diff()`, `clip()` and
  `ewm(span, adjust=False).mean()`, composed into MA20, MA50, RSI(14), MACD
  and the MACD signal line. A pandas NaN is `None` in a column of
  `Option<real>`. The EMA also has a looped method (`EmaLoop`), proved equal
  to its recursive definition.
- `Signals` holds the classifier as pure functions: the trend labeller, the
  BUY/SELL/HOLD chain (first match wins), and the price-alert predicate. A
  Python float comparison with NaN is false, and the model keeps that.
- `Dashboard` holds a DataFrame as a class (`Frame`). Its close column is
  fixed, and indicator columns are assigned into it in place. The module
  also holds the indicator block both scripts share.
- `Jai` and `Stock` model one run of each script. `jai.py` sets the trend
  label to a default, then overwrites it inside a `try`/`except`. `stock.py`
  assigns the index MA50 twice and has no guard around reading the index's
  last row.

Arithmetic is exact over `real`. The download, the widgets and the charts are
not modelled. The two close series are parameters of `Run`, and so is the
value typed into the alert widget (`None` means it was left at its default).

Where the code and the usual description of these indicators disagree, the
model follows the code:

- The RSI averages gains and losses over a simple 14-bar rolling mean
  (Cutler's RSI), not Wilder's smoothing.
- When the average loss is zero, the direct division gives exactly 100 if
  the average gain is positive. If both averages are zero (a flat window),
  0/0 makes the RSI NaN; it is not defined as 100 there.
- In `jai.py`, an empty index series gives the label "NIFTY data error". In
  `stock.py` it ends the run with an uncaught exception (`Crashed`).

## Model

| member | source | states |
|---|---|---|
| `Indicators.Ma` | stock.py:29-30 | MA20 and MA50 columns have the same length as the close series (the window meaning is in `MaWindow`) |
| `Indicators.MaWindow` | jai.py:34-35 | MA(k) at i is undefined for i < k-1 and is the mean of the k closes ending at i otherwise |
| `Indicators.MaWithinWindowRange` | jai.py:34-35 | a defined moving average lies between any lower and upper bound of the closes in its window |
| `Indicators.RollingNonNegative` | jai.py:41-42 | rolling means of a column with no negative value have no negative value |
| `Indicators.GainLossSplit` | jai.py:38-40 | gain and loss are undefined at bar 0; afterwards both are non-negative, at most one is non-zero, and gain - loss is the move close[i] - close[i-1] |
| `Indicators.GainLossNonNegative` | stock.py:33-35 | the clipped gain and loss columns have no negative value |
| `Indicators.RsiPoint` | jai.py:43-44 | 100 - 100/(1 + g/l) with IEEE zero handling: defined iff both averages are defined and not both zero; then it lies in [0, 100] and equals 100·g/(g+l) |
| `Indicators.RsiWindowAverages` | jai.py:41-42 | from bar 14 on, both averages are defined and non-negative; the average gain is zero iff no move in the 14-bar window is up, and the average loss is zero iff none is down |
| `Indicators.RsiUndefinedEarly` | jai.py:38-44 | the RSI is undefined at every index up to 13 |
| `Indicators.RsiDefinedLater` | jai.py:41-44 | from index 14 on, the RSI is undefined iff all 14 moves are zero; when defined it is in [0, 100]; it is exactly 100 iff no move is down and some move is up |
| `Indicators.Rsi` | stock.py:33-39 | the RSI column has the same length as the close series |
| `Indicators.Alpha` | jai.py:47-48 | the smoothing factor 2/(span+1) lies in (0, 1] for every span of at least 1 |
| `Indicators.EmaLoop` | jai.py:47-48 | the front-to-back ewm loop returns exactly the recursive EMA, one value per input |
| `Indicators.EmaRecurrence` | stock.py:42-43 | the EMA is seeded with the first value and follows e[i] = α·x[i] + (1-α)·e[i-1] with α = 2/(span+1) |
| `Indicators.EmaNoLookAhead` | jai.py:47-50 | the EMA at i computed on any prefix that contains i equals the EMA at i on the whole series |
| `Indicators.EmaConstant` | jai.py:47-48 | the EMA of a constant series is that constant at every index |
| `Indicators.EmaBounds` | stock.py:42-45 | for 0 ≤ α ≤ 1 the EMA stays within any bounds of its inputs |
| `Indicators.Macd` | stock.py:44 | the MACD column has the same length as the close series |
| `Indicators.MacdSignal` | stock.py:45 | the signal-line column has the same length as the close series |
| `Indicators.MacdAt` | jai.py:47-50 | MACD = EMA with α = 2/13 minus EMA with α = 2/27, and the signal line is the EMA of MACD with α = 2/10, defined at every index |
| `Indicators.ConstantSeriesMacd` | jai.py:47-50 | for a constant close series, MACD and its signal line are zero at every index |
| `Indicators.RollingNoLookAhead` | jai.py:41-42 | a rolling mean at i is the same whether computed on the whole column or on a prefix containing i |
| `Indicators.MaNoLookAhead` | stock.py:29-30 | a moving average at i depends only on the closes up to i |
| `Indicators.RsiNoLookAhead` | stock.py:33-39 | the RSI at i depends only on the closes up to i |
| `Indicators.MacdNoLookAhead` | stock.py:42-45 | MACD and the signal line at i depend only on the closes up to i |
| `Indicators.NoLookAhead` | jai.py:34-50 | every indicator column at i is the same when computed on any prefix that contains i |
| `Signals.LabelTrendOfIndex` | stock.py:51-59 | labelling a non-empty index's latest close and MA50 gives "not enough data" iff it has fewer than 50 bars; otherwise Bullish iff the close is strictly above the mean of the last 50 closes (a tie is Bearish); never the error label |
| `Signals.BuyRequiresBullish` | jai.py:78-83 | BUY only under the Bullish label; every non-Bullish label decides like Bearish and never gives BUY |
| `Signals.SignalMeaning` | stock.py:69-74 | BUY iff close > MA20, RSI < 70 and MACD > signal, all defined, and the label is Bullish; SELL iff not BUY and close < MA20 and RSI > 30, both defined; HOLD iff neither test holds |
| `Signals.BuySellExclusive` | stock.py:63-74 | the BUY and SELL tests never hold together, so SELL is returned exactly when its test holds |
| `Signals.UndefinedOrTieHolds` | jai.py:72-83 | an undefined MA20 or RSI, or a close equal to MA20, always gives HOLD |
| `Signals.WorkedExamples` | jai.py:78-81 | close 105, MA20 100, RSI 50, MACD 1.2 > 1.0 under Bullish gives BUY; close 90, MA20 100, RSI 35 gives SELL under any trend |
| `Signals.ShortSeriesHolds` | stock.py:63-74 | an instrument series shorter than 20 bars has no MA20 at its last bar and gives HOLD under any trend |
| `Signals.ConstantSeriesHolds` | jai.py:47-83 | a constant close series has MACD equal to its signal line (both zero) and gives HOLD under any trend |
| `Signals.AlertBehaviour` | jai.py:142-144 | the alert fires iff close ≥ alert price; left at its default (the close) it always fires |
| `Dashboard.Frame.constructor` | jai.py:23-24 | a downloaded frame holds its close series and no indicator column yet |
| `Dashboard.Frame.Assign` | stock.py:48 | assigning a column adds or replaces exactly that column and keeps every column aligned with the close series |
| `Dashboard.AddIndicators` | jai.py:34-50 | the frame gains exactly the MA20, MA50, RSI, MACD and signal-line columns of its closes (stock.py:29-45 is the same block), every other column unchanged |
| `Dashboard.ReadLatestRow` | jai.py:72-76 | the latest row read from the frame's columns is the instrument's latest close, MA20, RSI, MACD and signal value |
| `Jai.AddIndexAverage` | jai.py:54 | the index frame gains exactly its MA50 column |
| `Jai.MarketTrend` | jai.py:56-68 | the label is the data-error label iff the index is empty, "not enough data" iff it has 1 to 49 bars, otherwise Bullish iff the last close is strictly above the mean of the last 50 |
| `Jai.Run` | jai.py:29-144 | the run stops iff the stock series is empty and never crashes; otherwise it shows the signal decided on the latest row under the index trend, the last price and RSI, and the alert state |
| `Stock.AddIndexAverage` | stock.py:48-49 | assigning the index MA50 twice leaves the frame as one assignment does |
| `Stock.Run` | stock.py:24-147 | the run stops iff the stock series is empty, crashes iff only the index series is empty, and otherwise shows the same report as `Jai.Run` |

## Left out

- Data download through `yf.download` and `yf.Ticker` is network I/O. The two close series are parameters, possibly empty. A download that raises, which `jai.py` stops on, is not modelled.
- Streamlit widgets and output are not modelled: titles, `selectbox`, `write`, `metric`, `dataframe`, `expander` and `st.stop`. The value of `number_input` is a parameter.
- Matplotlib charts are not modelled, including the BUY/SELL marker choice in `stock.py`. They only render.
- The LinearRegression price prediction is not modelled. It is a least-squares fit inside scikit-learn.
- The similar-stocks lookup, the shareholding table and the fundamentals display are not modelled. They are static data or wrappers over network calls.
- IEEE-754 doubles are not modelled. Values are exact reals, and NaN is `None`. The infinity in `avg_gain / 0` appears only through its effect on the RSI (exactly 100).
- Open, high, low and volume are not modelled. No modelled operation reads them.
- NaN inside a downloaded close series is not modelled. Closes are assumed to be numbers.
- Pandas date-index alignment and column shapes are not modelled. Only each frame's latest row is compared.
