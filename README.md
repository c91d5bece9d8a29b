# Coach-swing indicator and signal engine in Dafny

Coach-swing scans S&P 500 tickers for swing-trading entries. Each ticker is
a series of daily OHLCV bars. The scanner computes five technical
conditions on it and counts how many hold on the last bar:

- a UT-Bot style buy (close crosses above an ATR trailing stop);
- MACD above its signal line;
- a rising, oversold stochastic;
- ADX above 20;
- OBV above its 20-bar mean.

The synchronous scanner keeps a ticker when the count reaches a threshold.
The asynchronous scanner reports the count of every ticker with enough data
and shows those that reach the slider's minimum. Both scanners rely on a
small indicator library: EMA, SMA, ATR, MACD, Stochastic, RSI, CCI, ADX and
a UT-Bot trail.

The model computes over exact reals. A pandas entry that is NaN is `None`
of `Nan.Num`. Arithmetic with NaN gives NaN, every comparison with NaN is
false, and Python's built-in `max`/`min` keep their first argument when the
second is NaN. `rolling(n)` uses pandas' default `min_periods = n`.
`ewm(span, adjust=False)` is the recursive fold seeded with the first value.

Modules:

- `Nan` (nan.dfy): NaN-aware arithmetic, comparisons and Python's `max`/`min`.
- `Series` (series.dfy): bars, `shift`, `diff`, the row maximum, rolling
  windows, and facts about sums and means.
- `Indicators` (indicators.dfy): indicators.py.
  - Pure functions, with EMA as a fold.
  - `adx` clips its movements in place on arrays.
  - `ut_bot` is a loop over an array.
- `Scoring` (scoring.dfy): the body of `calculate_indicators`, which both
  scanners share.
  - The trailing-stop loop and the OBV masked writes and cumulative sum
    are imperative.
  - The five conditions are pure.
  - The count is on the last bar.
- `CorrectedScanner` (corrected_scanner.dfy): the guard and the threshold
  of streamlit_polygon_sp500_corrected.py.
- `AsyncScanner` (async_scanner.dfy): the `None` result of the asynchronous
  scanner, the summary loop of `main`, and the `>= min_conditions` filter of
  streamlit_polygon_sp500.py.

Where the two scanners differ, the model follows each file's own code, with
two exceptions, both listed under "Left out":

- The `plus_dm`/`minus_dm` lines of streamlit_polygon_sp500.py:68-69 are
  modelled with the `np.where` form of
  streamlit_polygon_sp500_corrected.py:70-71.
- The `plus_di`/`minus_di` division of
  streamlit_polygon_sp500_corrected.py:78-79 is modelled bar by bar, as in
  streamlit_polygon_sp500.py:72-73.

The two scanners agree (`AsyncScanner.ScannersAgree`) because both are
modelled this way. As written, they differ at both places.

Some of this code does something other than what the repository's
description says. The model follows the code in each case:

- OBV adds `+volume` on a bar whose close is unchanged, and on bar 0. Only a
  falling close gives `-volume`. The masked writes never set 0.
- `rsi` averages gains and losses with a simple rolling mean, not Wilder
  smoothing.
- `main(min_conditions)` ignores its argument. Only the table filter uses
  the minimum.

## Model

| member | source | states |
|---|---|---|
| Nan.Div | indicators.py:41 | division is defined exactly when both sides are and the divisor is nonzero; the quotient times the divisor gives back the dividend |
| Nan.PyMax | streamlit_polygon_sp500_corrected.py:50 | Python `max(prev, band)`: never below `prev`, at least a defined band, equal to one of them, `prev` when the band is NaN |
| Nan.PyMin | streamlit_polygon_sp500_corrected.py:52 | Python `min(prev, band)`: never above `prev`, at most a defined band, equal to one of them, `prev` when the band is NaN |
| Series.Shift | streamlit_polygon_sp500_corrected.py:40 | `shift()` moves every entry one bar later and makes bar 0 NaN |
| Series.Diff | indicators.py:36 | `diff()` is NaN at bar 0 and the change from the previous bar elsewhere |
| Series.RowMax | indicators.py:16-20 | `max(axis=1)` skips NaN: defined iff some entry is, at least every defined entry, and equal to one of them |
| Series.Rolling | indicators.py:12 | `rolling(n)` is defined exactly where the `n` entries ending at the bar all exist and are not NaN; its value is that window's statistic |
| Series.RollingValue | indicators.py:12 | a defined rolling entry is the statistic of a full, NaN-free window |
| Series.RollingMeanBounds | indicators.py:21 | a rolling mean of values in `[lo, hi]` stays in `[lo, hi]` |
| Series.RollingMeanNonNegative | indicators.py:39-40 | a rolling mean of nonnegative entries is nonnegative |
| Series.RollingTotalNonNegative | indicators.py:59-60 | a rolling sum of nonnegative entries is nonnegative |
| Series.RollingMeanZero | indicators.py:47 | a rolling mean of nonnegative entries that is 0 forces the current entry to be 0 |
| Series.RollingMeanConstant | indicators.py:12 | the mean of a window of one repeated value is that value |
| Series.MeanBounds | indicators.py:12 | the mean of values in `[lo, hi]` lies in `[lo, hi]` |
| Series.SumPositive | indicators.py:39 | a sum of nonnegative values is positive once one value is |
| Series.SumZero | indicators.py:47 | a zero sum of nonnegative values has every value zero |
| Series.MeanPositive | indicators.py:39 | a mean of nonnegative values is positive once one value is |
| Series.MeanBelowSome | streamlit_polygon_sp500_corrected.py:88-89 | a mean below `x` has a member below `x` |
| Series.MinimumIsMember | indicators.py:29 | the minimum of a window is one of its values |
| Series.AboveMeanOfThree | streamlit_polygon_sp500_corrected.py:65-66 | an entry above the 3-bar mean that covers it is above one of the two entries before it |
| Indicators.Alpha | indicators.py:9 | the smoothing factor `2 / (span + 1)` lies in `(0, 1]` |
| Indicators.Ema | indicators.py:8-9 | `ewm(span, adjust=False).mean()`: the first value, then `alpha * x + (1 - alpha) * previous` |
| Indicators.EmaSpanOne | indicators.py:8-9 | with span 1 the EMA is its input |
| Indicators.EmaBounds | indicators.py:8-9 | the EMA stays within any bounds its input keeps |
| Indicators.EmaConstant | indicators.py:8-9 | the EMA of a constant series is that constant |
| Indicators.Sma | indicators.py:11-12 | `rolling(n).mean()`: defined exactly on full NaN-free windows, where it is their mean |
| Indicators.TrueRangeAtFacts | indicators.py:16-20 | the true range is defined, is at least `high - low` and both gaps to the previous close, and equals one of the three |
| Indicators.TrueRangeBounds | indicators.py:16-20 | the true range at bar 0 is `high - low` (the previous close is NaN); elsewhere it dominates both gaps |
| Indicators.TrueRange | indicators.py:16-20 | one entry per bar (length only); the value at each bar is described by `TrueRangeAtFacts` and `TrueRangeBounds` |
| Indicators.Atr | indicators.py:14-21 | ATR is defined exactly from bar `n - 1` on |
| Indicators.AtrNonNegative | indicators.py:14-21 | ATR is nonnegative (bar 0 needs `low <= high`, since its range has no gap term) |
| Indicators.AtrFlat | indicators.py:14-21 | ATR of flat bars is 0 |
| Indicators.Minus | indicators.py:24 | elementwise difference of two series |
| Indicators.Macd | indicators.py:23-26 | the MACD line and its signal have one entry per bar (length only); `Ema` gives each value, `MacdConstant` and `Scoring.MacdCondCross` give their meaning |
| Indicators.MacdConstant | indicators.py:23-26 | on a constant close the MACD line and its signal are both 0 |
| Indicators.LowestLowFacts | indicators.py:29 | the rolling low is defined from bar `n - 1` on and is at most the bar's low |
| Indicators.HighestHighFacts | indicators.py:30 | the rolling high is defined from bar `n - 1` on and is at least the bar's high |
| Indicators.Stochastic | indicators.py:28-33 | %K and %D have one entry per bar (length only); their meaning is in `StochasticKDefined`, `StochasticKRange` and `StochasticD` |
| Indicators.StochasticKDefined | indicators.py:31 | %K is defined exactly from bar 13 on where the 14-bar range is nonzero |
| Indicators.StochasticKRange | indicators.py:31 | %K of a close within its bar's range lies in `[0, 100]` |
| Indicators.StochasticD | indicators.py:32 | %D is defined exactly when %K is at the bar and the one before, and is their mean |
| Indicators.GainLoss | indicators.py:36-38 | gain and loss are NaN at bar 0; elsewhere they are nonnegative, at most one is nonzero, and gain minus loss is the change |
| Indicators.Rsi | indicators.py:35-42 | one entry per bar (length only); its meaning is in `RsiUndefinedEarly`, `RsiRange`, `RsiRising`, `RsiFalling` and `RsiFlat` |
| Indicators.RsiUndefinedEarly | indicators.py:35-42 | RSI is NaN on the first `n` bars |
| Indicators.AveragesNonNegative | indicators.py:39-40 | the average gain and loss are nonnegative |
| Indicators.RsiRange | indicators.py:41-42 | a defined RSI lies in `[0, 100]` |
| Indicators.ChangeWindowMean | indicators.py:39-40 | a defined window of nonnegative changes has a positive mean if one change is positive, and mean 0 if all are 0 |
| Indicators.RsiRising | indicators.py:41-42 | `n` rising closes give RSI 100 (`rs` is infinite) |
| Indicators.RsiFalling | indicators.py:41-42 | `n` falling closes give RSI 0 |
| Indicators.RsiAtNoGain | indicators.py:41-42 | a zero average gain over a positive average loss gives RSI 0 |
| Indicators.RsiFlat | indicators.py:41-42 | `n` unchanged closes give NaN (0/0) |
| Indicators.MeanDeviationNonNegative | indicators.py:47 | the mean absolute deviation is nonnegative |
| Indicators.Cci | indicators.py:44-48 | one entry per bar (length only); its meaning is in `CciDefined` and `CciZeroDeviation` |
| Indicators.CciDefined | indicators.py:48 | CCI is defined exactly where `mad` is defined and nonzero |
| Indicators.CciZeroDeviation | indicators.py:47-48 | a zero `mad` means the typical price equals its mean, so the 0/0 gives NaN |
| Indicators.ClipNegative | indicators.py:55-56 | `s[s < 0] = 0` keeps NaN, sets every negative entry to exactly 0, and leaves nonnegative entries alone |
| Indicators.ClipNegativeInPlace | indicators.py:55-56 | the in-place masked write leaves the array equal to the clipped series |
| Indicators.MinusDmUnclipped | indicators.py:53-56 | `minus_dm` is an absolute value, so its clip changes nothing |
| Indicators.DmFacts | indicators.py:52-56 | both movements are NaN exactly at bar 0 and nonnegative elsewhere |
| Indicators.DirectionalIndexNonNegative | indicators.py:59-60 | a defined directional index is nonnegative |
| Indicators.DxAtRange | indicators.py:61 | DX from two nonnegative indices lies in `[0, 100]` |
| Indicators.DxRange | indicators.py:61 | every defined DX entry lies in `[0, 100]` |
| Indicators.AdxRange | indicators.py:62 | every defined ADX entry lies in `[0, 100]` |
| Indicators.AdxSeries | indicators.py:50-62 | one entry per bar (length only); `AdxRange` bounds it and `Adx` computes it in place |
| Indicators.Adx | indicators.py:50-62 | `adx(df, n)` with the in-place clips equals the pure ADX series, whose defined entries lie in `[0, 100]` |
| Indicators.UtStepFacts | indicators.py:83-90 | the ratchets keep the stop on the same side of the previous one; the flips put it `loss` from the close; with `loss >= 0` the stop is at or below a close above the previous stop, and at or above any other close |
| Indicators.UtTrail | indicators.py:64-92 | one entry per bar (length only); each entry is the step `UtStep` applied to the previous one, whose branches `UtStepFacts` describes |
| Indicators.UtBot | indicators.py:64-92 | `ut_bot` run as a loop over a preallocated series equals the trail recurrence |
| Indicators.UtTrailLoop | indicators.py:71-90 | each entry the loop writes is the recurrence's value at that bar |
| Indicators.UtBotDefined | indicators.py:76-77 | the trail is NaN exactly where ATR is NaN |
| Indicators.UtBotFirstDefined | indicators.py:85-90 | at the first bar with ATR the previous trail is NaN, so the stop is `close + key * atr` |
| Indicators.UtBotRatchet | indicators.py:83-90 | with `key >= 0` the stop rises while both closes stay above it, falls while both stay below, and sits on the proper side of the close |
| Indicators.UtBotFlat | indicators.py:64-92 | on flat bars the trail equals the price once ATR is defined |
| Scoring.TrailStepFacts | streamlit_polygon_sp500_corrected.py:48-52 | a close above the stop can only raise it, to the lower band; any other close can only lower it, to the upper band; a NaN band leaves it |
| Scoring.ScorerTrail | streamlit_polygon_sp500_corrected.py:47-52 | one stop per bar (length only); each is `TrailStep` applied to the previous stop, described by `TrailStepFacts` and `ScorerTrailBetween` |
| Scoring.LowerBand | streamlit_polygon_sp500_corrected.py:46 | one entry per bar (length only); `BandsBracket` puts it at or below the close |
| Scoring.UpperBand | streamlit_polygon_sp500_corrected.py:45 | one entry per bar (length only); `BandsBracket` puts it at or above the close |
| Scoring.TrailLoop | streamlit_polygon_sp500_corrected.py:47-52 | the in-place loop leaves each entry equal to the stop recurrence |
| Scoring.TrailFrozen | streamlit_polygon_sp500_corrected.py:47-52 | while both bands are NaN the stop stays at the first close |
| Scoring.ScorerTrailFrozen | streamlit_polygon_sp500_corrected.py:43-52 | the 10-bar ATR is NaN on bars 0..8, so the stop stays at the first close there |
| Scoring.BandsBracket | streamlit_polygon_sp500_corrected.py:45-46 | the lower band is at or below the close, the upper at or above |
| Scoring.ScorerTrailBetween | streamlit_polygon_sp500_corrected.py:47-52 | after a close above the stop, `prev <= stop <= close`; otherwise `close <= stop <= prev` |
| Scoring.UtBuy | streamlit_polygon_sp500_corrected.py:53 | the buy holds exactly when the close is above the stop now and was at or below it on the bar before; never at bar 0 |
| Scoring.UtBuyRising | streamlit_polygon_sp500_corrected.py:47-53 | a buy needs a close above the previous stop and a rising close, and the stop then does not fall |
| Scoring.MacdCond | streamlit_polygon_sp500_corrected.py:59 | one flag per bar (length only); its meaning is in `MacdCondCross` and `MacdCondConstant` |
| Scoring.MacdCondCross | streamlit_polygon_sp500_corrected.py:55-59 | MACD is above its signal exactly when it is above the previous signal; never at bar 0 |
| Scoring.MacdCondConstant | streamlit_polygon_sp500_corrected.py:55-59 | a constant close never meets the MACD condition |
| Scoring.StochCond | streamlit_polygon_sp500_corrected.py:66 | one flag per bar (length only); its meaning is in `StochCondEarly` and `StochCondRising` |
| Scoring.StochCondEarly | streamlit_polygon_sp500_corrected.py:61-66 | no stochastic condition before bar 13 |
| Scoring.StochCondRising | streamlit_polygon_sp500_corrected.py:64-66 | the condition means a defined smoothed %K below 50 that is above one of its two previous values |
| Scoring.ScorerPlusDm | streamlit_polygon_sp500_corrected.py:70 | one entry per bar (length only); its meaning is in `ScorerDmFacts` |
| Scoring.ScorerMinusDm | streamlit_polygon_sp500_corrected.py:71 | one entry per bar (length only); its meaning is in `ScorerDmFacts` |
| Scoring.ScorerDmFacts | streamlit_polygon_sp500_corrected.py:68-71 | both movements are nonnegative and never both positive; plus_dm is the up move exactly when up beats down and is positive; symmetrically for minus_dm |
| Scoring.ScorerDxAtRange | streamlit_polygon_sp500_corrected.py:80 | DX from two nonnegative indices lies in `[0, 100]` |
| Scoring.AdxCond | streamlit_polygon_sp500_corrected.py:82 | one flag per bar (length only); `ScorerAdxRange` states it is exactly ADX above 20, and `AdxCondEarly` that it never holds before bar 26 |
| Scoring.AdxCondEarly | streamlit_polygon_sp500_corrected.py:68-82 | no ADX condition before bar 26 |
| Scoring.ScorerDiNonNegative | streamlit_polygon_sp500_corrected.py:78-79 | a defined directional index is nonnegative |
| Scoring.ScorerDxRange | streamlit_polygon_sp500_corrected.py:80 | every defined DX entry lies in `[0, 100]` |
| Scoring.ScorerAdxRange | streamlit_polygon_sp500_corrected.py:81-82 | a defined ADX lies in `[0, 100]`; the condition is exactly ADX above 20 |
| Scoring.Obv | streamlit_polygon_sp500_corrected.py:84-87 | the copy, the two masked writes and the in-place cumulative sum give the OBV series |
| Scoring.ObvSteps | streamlit_polygon_sp500_corrected.py:84-87 | OBV starts at the first volume, then adds each volume, negated exactly when the close fell |
| Scoring.ObvNonDecreasing | streamlit_polygon_sp500_corrected.py:84-87 | over bars whose close never falls (volumes nonnegative), OBV never falls |
| Scoring.ObvNonIncreasing | streamlit_polygon_sp500_corrected.py:84-87 | over bars whose close always falls (volumes nonnegative), OBV never rises |
| Scoring.ObvCond | streamlit_polygon_sp500_corrected.py:89 | one flag per bar (length only); its meaning is in `ObvCondMeans` |
| Scoring.ObvCondMeans | streamlit_polygon_sp500_corrected.py:88-89 | OBV above its 20-bar mean needs 20 bars, one of the previous 19 having a lower OBV |
| Scoring.Count | streamlit_polygon_sp500_corrected.py:91 | the count is at most 5; it is 0 iff no condition holds and 5 iff all five do |
| Scoring.CountTrueIsMultiplicity | streamlit_polygon_sp500_corrected.py:91 | counting the true flags one by one gives the multiplicity of `true` |
| Scoring.CountIsCountTrue | streamlit_polygon_sp500_corrected.py:91 | the sum of the five `astype(int)` terms is the number of true flags |
| Scoring.Score | streamlit_polygon_sp500_corrected.py:91 | the count on the last bar is at most 5; `LastCount` computes it |
| Scoring.LastCount | streamlit_polygon_sp500_corrected.py:39-91 | the imperative computation returns the count on the last bar, at most 5 |
| CorrectedScanner.Keeps | streamlit_polygon_sp500_corrected.py:92 | a kept frame exists, has at least 200 rows, and its threshold is at most 5 |
| CorrectedScanner.CalculateIndicators | streamlit_polygon_sp500_corrected.py:33-92 | no frame, or fewer than 200 rows, answers false; otherwise the answer is whether the last bar's count reaches the threshold |
| CorrectedScanner.KeepsBounds | streamlit_polygon_sp500_corrected.py:34-35 | a short or missing frame is never kept; a threshold above 5 keeps nothing; one of at most 0 keeps every long enough frame |
| CorrectedScanner.KeepsMonotone | streamlit_polygon_sp500_corrected.py:92 | lowering the threshold never drops a kept ticker |
| AsyncScanner.ScoreOf | streamlit_polygon_sp500.py:33-35 | `None` exactly for a missing frame or one shorter than 200 rows; otherwise a count of at most 5 |
| AsyncScanner.CalculateIndicators | streamlit_polygon_sp500.py:33-86 | returns `None` exactly for a missing or short frame and otherwise the last bar's count |
| AsyncScanner.ScannersAgree | streamlit_polygon_sp500.py:86 | the corrected scanner keeps a frame exactly when this one scores it at least the threshold |
| AsyncScanner.CollectSummary | streamlit_polygon_sp500.py:97-101 | the loop over the responses builds the summary, one row per scored ticker, in order |
| AsyncScanner.RowsMembers | streamlit_polygon_sp500.py:97-100 | a row is in the summary exactly when some ticker has its name and its score |
| AsyncScanner.SummaryMembers | streamlit_polygon_sp500.py:97-100 | the same over the responses: some response carries the ticker and `calculate_indicators` scores it the row's count |
| AsyncScanner.SummaryBounded | streamlit_polygon_sp500.py:97-100 | no summary row reports more than five conditions |
| AsyncScanner.Visible | streamlit_polygon_sp500.py:110 | the table holds exactly the summary rows that reach the minimum |
| AsyncScanner.VisibleMultiset | streamlit_polygon_sp500.py:110 | the mask keeps every copy of a row that reaches the minimum, and no copy of a row that does not |
| AsyncScanner.VisibleNone | streamlit_polygon_sp500.py:110 | when every row is below the minimum the table is empty |
| AsyncScanner.VisibleAboveFive | streamlit_polygon_sp500.py:110 | a minimum above 5 shows an empty table |

## Left out

- HTTP fetching (`fetch_data` and `fetch_ticker`), `asyncio.gather` and
  `aiohttp`: these are I/O. A response is a ticker with its frame, or `None`
  when the request failed.
- `load_tickers`, `load_dotenv` and the API key: configuration and I/O.
- The Streamlit interface.
  - Leaving out the UI also leaves out the undefined `conditions_summary`
    that the corrected script uses at line 122.
  - `st.session_state.min_indicators` becomes a parameter.
  - The slider's 3..5 range with default 4 becomes the `minConditions`
    parameter.
- Floating point. The model computes with exact reals. NaN is modelled.
  Three things are not:
  - Infinities. A nonzero value divided by zero is an infinity in pandas,
    but NaN in the model (for example, %K of a close outside a zero
    14-bar range). RSI's infinite `rs` gives 100, and the model states
    that case explicitly.
  - IEEE rounding.
  - How `ewm` treats NaN. `Indicators.Ema` takes a NaN-free series, as
    every caller passes one.
- `df.dropna`. Every field of a modelled bar is a number, so it removes
  nothing.
- Pandas index alignment at streamlit_polygon_sp500_corrected.py:78-79.
  - There `pd.Series(plus_dm)` wraps a numpy array in a fresh 0..n-1 index,
    while `atr14` keeps the frame's dates.
  - As written, no label matches, so every `plus_di`/`minus_di` entry of
    the corrected scanner is NaN and its ADX condition never holds.
  - The model divides bar by bar, like streamlit_polygon_sp500.py:72-73,
    whose movements keep the dates. This is what the scanner evidently
    intends.
- The two `plus_dm`/`minus_dm` lines of streamlit_polygon_sp500.py:68-69.
  - Python's precedence makes each one a boolean `&` of a comparison and a
    product. That is not the movement.
  - Both scanners are modelled with the `np.where` form of
    streamlit_polygon_sp500_corrected.py:70-71.
- A FLAT/LONG position state machine. The repository's description
  mentions one, but neither scanner's code implements it.
- Scoring.Score: its contract only bounds the count by 5; what each of the
  five conditions means is stated in the condition lemmas above.
