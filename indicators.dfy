/** The indicator library of indicators.py: EMA, SMA, true range and ATR,
    MACD, Stochastic, RSI, CCI, ADX and the UT-Bot trailing stop. */
module Indicators {
  import opened Nan
  import opened Series

  // ----- Moving averages -----

  /** The smoothing factor of `ewm(span=n)`: 2 / (n + 1). */
  function Alpha(span: nat): (a: real)
    requires span >= 1
    ensures 0.0 < a <= 1.0
  {
    2.0 / (span as real + 1.0)
  }

  /** `series.ewm(span=n, adjust=False).mean()` on a NaN-free series: a fold
      seeded with the first value. */
  function EmaAt(xs: seq<real>, span: nat, i: nat): real
    requires span >= 1 && i < |xs|
  {
    if i == 0 then xs[0]
    else Alpha(span) * xs[i] + (1.0 - Alpha(span)) * EmaAt(xs, span, i - 1)
  }

  function Ema(xs: seq<real>, span: nat): (r: seq<real>)
    requires span >= 1
    ensures |r| == |xs|
    ensures |xs| > 0 ==> r[0] == xs[0]
    ensures forall i :: 0 < i < |xs| ==> r[i] == Alpha(span) * xs[i] + (1.0 - Alpha(span)) * r[i - 1]
  {
    seq(|xs|, i requires 0 <= i < |xs| => EmaAt(xs, span, i))
  }

  /** With span 1 the smoothing factor is 1 and the EMA is its input. */
  lemma EmaSpanOne(xs: seq<real>)
    ensures Ema(xs, 1) == xs
  {
    var r := Ema(xs, 1);
    assert Alpha(1) == 1.0;
    forall i | 0 <= i < |xs| ensures r[i] == xs[i] {
      if i > 0 {
        assert r[i] == Alpha(1) * xs[i] + (1.0 - Alpha(1)) * r[i - 1];
      }
    }
  }

  /** The EMA of a constant series is that constant. */
  lemma EmaConstant(xs: seq<real>, span: nat, c: real, i: nat)
    requires span >= 1 && i < |xs|
    requires forall j :: 0 <= j < |xs| ==> xs[j] == c
    ensures Ema(xs, span)[i] == c
  {
    EmaBounds(xs, span, c, c, i);
  }

  /** Each EMA value is a weighted mean of the values so far, so it stays
      within any bounds the series keeps. */
  lemma {:induction false} EmaBounds(xs: seq<real>, span: nat, lo: real, hi: real, i: nat)
    requires span >= 1 && i < |xs|
    requires forall j :: 0 <= j < |xs| ==> lo <= xs[j] <= hi
    ensures lo <= Ema(xs, span)[i] <= hi
  {
    if i > 0 {
      EmaBounds(xs, span, lo, hi, i - 1);
      ConvexBetween(Alpha(span), xs[i], Ema(xs, span)[i - 1], lo, hi);
    }
  }

  lemma ConvexBetween(a: real, x: real, y: real, lo: real, hi: real)
    requires 0.0 <= a <= 1.0 && lo <= x <= hi && lo <= y <= hi
    ensures lo <= a * x + (1.0 - a) * y <= hi
  {
    var e := a * x + (1.0 - a) * y;
    assert e - lo == a * (x - lo) + (1.0 - a) * (y - lo);
    assert hi - e == a * (hi - x) + (1.0 - a) * (hi - y);
    ProductNonNegative(a, x - lo);
    ProductNonNegative(1.0 - a, y - lo);
    ProductNonNegative(a, hi - x);
    ProductNonNegative(1.0 - a, hi - y);
  }

  /** `series.rolling(n).mean()`: NaN until `n` values exist and wherever
      the window holds a NaN. */
  function Sma(s: seq<Num>, n: nat): (r: seq<Num>)
    requires n >= 1
    ensures |r| == |s|
    ensures forall i :: 0 <= i < |s| ==>
      (r[i].Some? <==> n <= i + 1 && forall j :: i + 1 - n <= j <= i ==> s[j].Some?)
  {
    Rolling(s, n, Mean)
  }

  // ----- True range and ATR -----

  /** One row of `concat([high - low, |high - prev_close|, |low - prev_close|]).max(axis=1)`. */
  function TrueRangeAt(bar: Bar, prevClose: Num): Num {
    RowMax([Some(bar.high - bar.low),
            Abs(Sub(Some(bar.high), prevClose)),
            Abs(Sub(Some(bar.low), prevClose))])
  }

  /** The true range column; the previous close is `close.shift()`. */
  function TrueRange(bars: seq<Bar>): (tr: seq<Num>)
    ensures |tr| == |bars|
  {
    var prev := Shift(Closes(bars));
    seq(|bars|, i requires 0 <= i < |bars| => TrueRangeAt(bars[i], prev[i]))
  }

  /** The row maximum skips the NaN of a missing previous close; otherwise
      it is the largest of the three ranges. */
  lemma TrueRangeAtFacts(bar: Bar, prevClose: Num)
    ensures TrueRangeAt(bar, prevClose).Some?
    ensures TrueRangeAt(bar, prevClose).value >= bar.high - bar.low
    ensures prevClose.None? ==> TrueRangeAt(bar, prevClose).value == bar.high - bar.low
    ensures prevClose.Some? ==>
      var t := TrueRangeAt(bar, prevClose).value;
      var hc := AbsReal(bar.high - prevClose.value);
      var lc := AbsReal(bar.low - prevClose.value);
      t >= hc && t >= lc && (t == bar.high - bar.low || t == hc || t == lc)
  {
    var row := [Some(bar.high - bar.low),
                Abs(Sub(Some(bar.high), prevClose)),
                Abs(Sub(Some(bar.low), prevClose))];
    assert row[0].Some?;
    var r := RowMax(row);
    assert row[0].value <= r.value;
    if prevClose.Some? {
      assert row[1].Some? && row[2].Some?;
      assert row[1].value <= r.value && row[2].value <= r.value;
    } else {
      var j :| 0 <= j < |row| && row[j] == r;
      assert j == 0;
    }
  }

  /** True range at bar 0 is `high - low`; every true range is at least
      `high - low`, and from bar 1 on it is the largest of the three ranges. */
  lemma TrueRangeBounds(bars: seq<Bar>, i: nat)
    requires i < |bars|
    ensures TrueRange(bars)[i].Some?
    ensures TrueRange(bars)[i].value >= bars[i].high - bars[i].low
    ensures i == 0 ==> TrueRange(bars)[i].value == bars[i].high - bars[i].low
    ensures i > 0 ==>
      var t := TrueRange(bars)[i].value;
      var hc := AbsReal(bars[i].high - bars[i - 1].close);
      var lc := AbsReal(bars[i].low - bars[i - 1].close);
      t >= hc && t >= lc && t >= 0.0 && (t == bars[i].high - bars[i].low || t == hc || t == lc)
  {
    TrueRangeAtFacts(bars[i], Shift(Closes(bars))[i]);
  }

  /** `atr(df, n)`: the `n`-bar mean of the true range, defined from bar `n - 1` on. */
  function Atr(bars: seq<Bar>, n: nat): (r: seq<Num>)
    requires n >= 1
    ensures |r| == |bars|
    ensures forall i :: 0 <= i < |bars| ==> (r[i].Some? <==> n <= i + 1)
  {
    var tr := TrueRange(bars);
    assert forall j :: 0 <= j < |bars| ==> tr[j].Some? by {
      forall j | 0 <= j < |bars| ensures tr[j].Some? {
        TrueRangeBounds(bars, j);
      }
    }
    Sma(tr, n)
  }

  /** A window of true ranges that avoids bar 0 has a nonnegative mean;
      so does one that includes bar 0 when that bar has `low <= high`. */
  lemma AtrNonNegative(bars: seq<Bar>, n: nat, i: nat)
    requires n >= 1 && i < |bars|
    requires n <= i || bars[0].low <= bars[0].high
    requires Atr(bars, n)[i].Some?
    ensures Atr(bars, n)[i].value >= 0.0
  {
    var tr := TrueRange(bars);
    forall j | 0 <= j && i + 1 - n <= j <= i && tr[j].Some? ensures tr[j].value >= 0.0 {
      TrueRangeBounds(bars, j);
    }
    RollingMeanNonNegative(tr, n, i);
  }

  /** Flat bars (high = low = close = c throughout) have ATR 0 once defined. */
  lemma AtrFlat(bars: seq<Bar>, n: nat, c: real, i: nat)
    requires n >= 1 && n <= i + 1 <= |bars|
    requires forall j :: 0 <= j < |bars| ==> bars[j].high == c && bars[j].low == c && bars[j].close == c
    ensures Atr(bars, n)[i] == Some(0.0)
  {
    var tr := TrueRange(bars);
    forall j | 0 <= j < |bars| ensures tr[j] == Some(0.0) {
      TrueRangeBounds(bars, j);
    }
    RollingMeanConstant(tr, n, i, 0.0);
  }

  // ----- MACD -----

  function Minus(a: seq<real>, b: seq<real>): (r: seq<real>)
    requires |a| == |b|
    ensures |r| == |a|
    ensures forall i :: 0 <= i < |a| ==> r[i] == a[i] - b[i]
  {
    seq(|a|, i requires 0 <= i < |a| => a[i] - b[i])
  }

  /** `macd(close)`: the line is EMA5 - EMA13, the signal is EMA4 of the line. */
  function Macd(closes: seq<real>): (r: (seq<real>, seq<real>))
    ensures |r.0| == |closes| && |r.1| == |closes|
  {
    var line := Minus(Ema(closes, 5), Ema(closes, 13));
    (line, Ema(line, 4))
  }

  /** A constant close gives MACD line = signal = 0 at every bar. */
  lemma MacdConstant(closes: seq<real>, c: real, i: nat)
    requires i < |closes|
    requires forall j :: 0 <= j < |closes| ==> closes[j] == c
    ensures Macd(closes).0[i] == 0.0 && Macd(closes).1[i] == 0.0
  {
    var line := Minus(Ema(closes, 5), Ema(closes, 13));
    forall j | 0 <= j < |closes| ensures line[j] == 0.0 {
      EmaConstant(closes, 5, c, j);
      EmaConstant(closes, 13, c, j);
    }
    EmaConstant(line, 4, 0.0, i);
  }

  // ----- Stochastic -----

  /** `low.rolling(n).min()`. */
  function LowestLow(bars: seq<Bar>, n: nat): (r: seq<Num>)
    requires n >= 1
    ensures |r| == |bars|
  {
    Rolling(Lift(Lows(bars)), n, Min)
  }

  /** `high.rolling(n).max()`. */
  function HighestHigh(bars: seq<Bar>, n: nat): (r: seq<Num>)
    requires n >= 1
    ensures |r| == |bars|
  {
    Rolling(Lift(Highs(bars)), n, Max)
  }

  /** The lowest low of a defined window is at most the bar's low, and it is
      defined exactly from bar `n - 1` on. */
  lemma LowestLowFacts(bars: seq<Bar>, n: nat, i: nat)
    requires n >= 1 && i < |bars|
    ensures LowestLow(bars, n)[i].Some? <==> n <= i + 1
    ensures LowestLow(bars, n)[i].Some? ==> LowestLow(bars, n)[i].value <= bars[i].low
  {
    var s := Lift(Lows(bars));
    if LowestLow(bars, n)[i].Some? {
      RollingValue(s, n, i, Min);
      var vs := Values(Window(s, n, i));
      assert vs[n - 1] == bars[i].low;
      MinimumLe(vs, n - 1);
    }
  }

  lemma HighestHighFacts(bars: seq<Bar>, n: nat, i: nat)
    requires n >= 1 && i < |bars|
    ensures HighestHigh(bars, n)[i].Some? <==> n <= i + 1
    ensures HighestHigh(bars, n)[i].Some? ==> HighestHigh(bars, n)[i].value >= bars[i].high
  {
    var s := Lift(Highs(bars));
    if HighestHigh(bars, n)[i].Some? {
      RollingValue(s, n, i, Max);
      var vs := Values(Window(s, n, i));
      assert vs[n - 1] == bars[i].high;
      MaximumGe(vs, n - 1);
    }
  }

  /** `100 * (close - low_min) / (high_max - low_min)` at bar `i`. */
  function StochasticKAt(bars: seq<Bar>, i: nat): Num
    requires i < |bars|
  {
    var lo := LowestLow(bars, 14)[i];
    var hi := HighestHigh(bars, 14)[i];
    Div(Scale(100.0, Sub(Some(bars[i].close), lo)), Sub(hi, lo))
  }

  /** `stochastic(df)`: %K over 14 bars and %D, its 2-bar mean. */
  function Stochastic(bars: seq<Bar>): (r: (seq<Num>, seq<Num>))
    ensures |r.0| == |bars| && |r.1| == |bars|
  {
    var k := seq(|bars|, i requires 0 <= i < |bars| => StochasticKAt(bars, i));
    (k, Sma(k, 2))
  }

  /** %K is defined exactly from bar 13 on where the 14-bar range is nonzero. */
  lemma StochasticKDefined(bars: seq<Bar>, i: nat)
    requires i < |bars|
    ensures Stochastic(bars).0[i].Some? <==>
      13 <= i && HighestHigh(bars, 14)[i] != LowestLow(bars, 14)[i]
  {
    LowestLowFacts(bars, 14, i);
    HighestHighFacts(bars, 14, i);
  }

  /** When the bar's close lies within its [low, high], a defined %K lies in [0, 100]. */
  lemma StochasticKRange(bars: seq<Bar>, i: nat)
    requires i < |bars|
    requires bars[i].low <= bars[i].close <= bars[i].high
    requires Stochastic(bars).0[i].Some?
    ensures 0.0 <= Stochastic(bars).0[i].value <= 100.0
  {
    LowestLowFacts(bars, 14, i);
    HighestHighFacts(bars, 14, i);
    var lo := LowestLow(bars, 14)[i].value;
    var hi := HighestHigh(bars, 14)[i].value;
    RatioBounds(100.0 * (bars[i].close - lo), hi - lo, 100.0);
  }

  /** With `0 <= num <= top * den` and `den > 0`, `num / den` is in [0, top]. */
  lemma RatioBounds(num: real, den: real, top: real)
    requires den > 0.0 && 0.0 <= num <= top * den
    ensures 0.0 <= num / den <= top
  {
  }

  /** %D at bar `i` is the mean of %K at bars `i - 1` and `i`. */
  lemma StochasticD(bars: seq<Bar>, i: nat)
    requires i < |bars|
    ensures var k := Stochastic(bars).0;
      Stochastic(bars).1[i].Some? <==> 1 <= i && k[i - 1].Some? && k[i].Some?
    ensures var k := Stochastic(bars).0;
      Stochastic(bars).1[i].Some? ==> Stochastic(bars).1[i].value == (k[i - 1].value + k[i].value) / 2.0
  {
    var k := Stochastic(bars).0;
    if Stochastic(bars).1[i].Some? {
      RollingValue(k, 2, i, Mean);
      var vs := Values(Window(k, 2, i));
      assert vs[0] == k[i - 1].value && vs[1] == k[i].value;
      SumTwo(vs);
    }
  }

  // ----- RSI -----

  /** `gain = delta.clip(lower=0)` and `loss = -delta.clip(upper=0)` of
      `delta = series.diff()`: each bar's change split into its rise and
      its fall (NaN at bar 0). */
  function GainLoss(closes: seq<real>): (r: (seq<Num>, seq<Num>))
    ensures |r.0| == |closes| && |r.1| == |closes|
    ensures forall i :: 0 <= i < |closes| ==> (r.0[i].Some? <==> i > 0) && (r.1[i].Some? <==> i > 0)
    ensures forall i :: 0 < i < |closes| ==>
      && r.0[i].value >= 0.0 && r.1[i].value >= 0.0
      && (r.0[i].value == 0.0 || r.1[i].value == 0.0)
      && r.0[i].value - r.1[i].value == closes[i] - closes[i - 1]
  {
    var delta := Diff(closes);
    (seq(|closes|, i requires 0 <= i < |closes| =>
       if delta[i].Some? then Some(MaxReal(delta[i].value, 0.0)) else None),
     seq(|closes|, i requires 0 <= i < |closes| =>
       if delta[i].Some? then Some(-MinReal(delta[i].value, 0.0)) else None))
  }

  /** `100 - 100 / (1 + avg_gain / avg_loss)` under IEEE rules: a zero
      average loss makes `rs` infinite (RSI 100) unless the average gain is
      zero too, which is 0/0 and NaN. */
  function RsiAt(avgGain: Num, avgLoss: Num): Num {
    if avgGain.None? || avgLoss.None? then None
    else if avgLoss.value == 0.0 then
      (if avgGain.value == 0.0 then None else Some(100.0))
    else Sub(Some(100.0), Div(Some(100.0), Some(1.0 + avgGain.value / avgLoss.value)))
  }

  function AverageGain(closes: seq<real>, n: nat): (r: seq<Num>)
    requires n >= 1
    ensures |r| == |closes|
  {
    Rolling(GainLoss(closes).0, n, Mean)
  }

  function AverageLoss(closes: seq<real>, n: nat): (r: seq<Num>)
    requires n >= 1
    ensures |r| == |closes|
  {
    Rolling(GainLoss(closes).1, n, Mean)
  }

  /** `rsi(series, n)`. */
  function Rsi(closes: seq<real>, n: nat): (r: seq<Num>)
    requires n >= 1
    ensures |r| == |closes|
  {
    var g := AverageGain(closes, n);
    var l := AverageLoss(closes, n);
    seq(|closes|, i requires 0 <= i < |closes| => RsiAt(g[i], l[i]))
  }

  /** RSI is undefined for the first `n` bars: each of their windows is
      short or holds the NaN change of bar 0. */
  lemma RsiUndefinedEarly(closes: seq<real>, n: nat, i: nat)
    requires n >= 1 && i < |closes| && i < n
    ensures Rsi(closes, n)[i].None?
  {
    var gains := GainLoss(closes).0;
    assert gains[0].None?;
    assert AverageGain(closes, n)[i].None?;
  }

  /** The averages of a defined RSI window are nonnegative. */
  lemma AveragesNonNegative(closes: seq<real>, n: nat, i: nat)
    requires n >= 1 && i < |closes|
    ensures AverageGain(closes, n)[i].Some? ==> AverageGain(closes, n)[i].value >= 0.0
    ensures AverageLoss(closes, n)[i].Some? ==> AverageLoss(closes, n)[i].value >= 0.0
  {
    if AverageGain(closes, n)[i].Some? {
      RollingMeanNonNegative(GainLoss(closes).0, n, i);
    }
    if AverageLoss(closes, n)[i].Some? {
      RollingMeanNonNegative(GainLoss(closes).1, n, i);
    }
  }

  /** A defined RSI lies in [0, 100]. */
  lemma RsiRange(closes: seq<real>, n: nat, i: nat)
    requires n >= 1 && i < |closes|
    requires Rsi(closes, n)[i].Some?
    ensures 0.0 <= Rsi(closes, n)[i].value <= 100.0
  {
    AveragesNonNegative(closes, n, i);
    var g := AverageGain(closes, n)[i];
    var l := AverageLoss(closes, n)[i];
    if l.value != 0.0 {
      var rs := g.value / l.value;
      assert rs >= 0.0;
      RatioBounds(100.0, 1.0 + rs, 100.0);
    }
  }

  /** The rolling mean over the `n` changes ending at bar `i`, when every
      change in it is defined. */
  lemma ChangeWindowMean(s: seq<Num>, n: nat, i: nat)
    requires 1 <= n <= i < |s|
    requires forall j :: i + 1 - n <= j <= i ==> s[j].Some? && s[j].value >= 0.0
    ensures Rolling(s, n, Mean)[i].Some?
    ensures (exists j :: i + 1 - n <= j <= i && s[j].value > 0.0) ==> Rolling(s, n, Mean)[i].value > 0.0
    ensures (forall j :: i + 1 - n <= j <= i ==> s[j].value == 0.0) ==> Rolling(s, n, Mean)[i].value == 0.0
  {
    RollingValue(s, n, i, Mean);
    var vs := Values(Window(s, n, i));
    forall j | 0 <= j < n ensures vs[j] == s[i + 1 - n + j].value && vs[j] >= 0.0 {
    }
    if exists j :: i + 1 - n <= j <= i && s[j].value > 0.0 {
      var j :| i + 1 - n <= j <= i && s[j].value > 0.0;
      MeanPositive(vs, j - (i + 1 - n));
    }
    if forall j :: i + 1 - n <= j <= i ==> s[j].value == 0.0 {
      MeanOfZeros(vs);
    }
  }

  /** A strictly rising window (no losses, some gain) gives RSI 100. */
  lemma RsiRising(closes: seq<real>, n: nat, i: nat)
    requires 1 <= n <= i < |closes|
    requires forall j :: i + 1 - n <= j <= i ==> closes[j] > closes[j - 1]
    ensures Rsi(closes, n)[i] == Some(100.0)
  {
    var gl := GainLoss(closes);
    assert closes[i] > closes[i - 1];
    ChangeWindowMean(gl.0, n, i);
    ChangeWindowMean(gl.1, n, i);
  }

  /** A strictly falling window (no gains, some loss) gives RSI 0. */
  lemma RsiFalling(closes: seq<real>, n: nat, i: nat)
    requires 1 <= n <= i < |closes|
    requires forall j :: i + 1 - n <= j <= i ==> closes[j] < closes[j - 1]
    ensures Rsi(closes, n)[i] == Some(0.0)
  {
    var gl := GainLoss(closes);
    assert closes[i] < closes[i - 1];
    ChangeWindowMean(gl.0, n, i);
    ChangeWindowMean(gl.1, n, i);
    RsiAtNoGain(AverageGain(closes, n)[i], AverageLoss(closes, n)[i]);
  }

  lemma RsiAtNoGain(avgGain: Num, avgLoss: Num)
    requires avgGain == Some(0.0) && avgLoss.Some? && avgLoss.value > 0.0
    ensures RsiAt(avgGain, avgLoss) == Some(0.0)
  {
    assert 0.0 / avgLoss.value == 0.0;
  }

  /** A window with no change at all gives 0/0: RSI is undefined. */
  lemma RsiFlat(closes: seq<real>, n: nat, i: nat)
    requires 1 <= n <= i < |closes|
    requires forall j :: i + 1 - n <= j <= i ==> closes[j] == closes[j - 1]
    ensures Rsi(closes, n)[i].None?
  {
    var gl := GainLoss(closes);
    ChangeWindowMean(gl.0, n, i);
    ChangeWindowMean(gl.1, n, i);
  }

  // ----- CCI -----

  /** `tp = (high + low + close) / 3`. */
  function TypicalPrice(bars: seq<Bar>): (r: seq<real>)
    ensures |r| == |bars|
  {
    seq(|bars|, i requires 0 <= i < |bars| => (bars[i].high + bars[i].low + bars[i].close) / 3.0)
  }

  function TypicalMean(bars: seq<Bar>, n: nat): (r: seq<Num>)
    requires n >= 1
    ensures |r| == |bars|
  {
    Sma(Lift(TypicalPrice(bars)), n)
  }

  /** `|tp - sma_tp|`. */
  function Deviation(bars: seq<Bar>, n: nat): (r: seq<Num>)
    requires n >= 1
    ensures |r| == |bars|
  {
    var tp := TypicalPrice(bars);
    var m := TypicalMean(bars, n);
    seq(|bars|, i requires 0 <= i < |bars| => Abs(Sub(Some(tp[i]), m[i])))
  }

  /** `mad = |tp - sma_tp|.rolling(n).mean()`. */
  function MeanDeviation(bars: seq<Bar>, n: nat): (r: seq<Num>)
    requires n >= 1
    ensures |r| == |bars|
  {
    Sma(Deviation(bars, n), n)
  }

  /** `cci(df, n) = (tp - sma_tp) / (0.015 * mad)`. */
  function Cci(bars: seq<Bar>, n: nat): (r: seq<Num>)
    requires n >= 1
    ensures |r| == |bars|
  {
    var tp := TypicalPrice(bars);
    var m := TypicalMean(bars, n);
    var mad := MeanDeviation(bars, n);
    seq(|bars|, i requires 0 <= i < |bars| => Div(Sub(Some(tp[i]), m[i]), Scale(0.015, mad[i])))
  }

  /** `mad` is never negative. */
  lemma MeanDeviationNonNegative(bars: seq<Bar>, n: nat, i: nat)
    requires n >= 1 && i < |bars|
    requires MeanDeviation(bars, n)[i].Some?
    ensures MeanDeviation(bars, n)[i].value >= 0.0
  {
    RollingMeanNonNegative(Deviation(bars, n), n, i);
  }

  /** CCI is defined exactly where `mad` is defined and nonzero. */
  lemma CciDefined(bars: seq<Bar>, n: nat, i: nat)
    requires n >= 1 && i < |bars|
    ensures Cci(bars, n)[i].Some? <==>
      MeanDeviation(bars, n)[i].Some? && MeanDeviation(bars, n)[i].value != 0.0
  {
    var tp := TypicalPrice(bars);
    var m := TypicalMean(bars, n);
    var dev := Deviation(bars, n);
    var mad := MeanDeviation(bars, n);
    assert Cci(bars, n)[i] == Div(Sub(Some(tp[i]), m[i]), Scale(0.015, mad[i]));
    if mad[i].Some? {
      assert dev[i].Some?;
      assert dev[i] == Abs(Sub(Some(tp[i]), m[i]));
      assert m[i].Some?;
    }
  }

  /** A zero `mad` means the window's deviations, the current one included,
      are all zero: the typical price equals its mean and CCI is 0/0. */
  lemma CciZeroDeviation(bars: seq<Bar>, n: nat, i: nat)
    requires n >= 1 && i < |bars|
    requires MeanDeviation(bars, n)[i] == Some(0.0)
    ensures TypicalMean(bars, n)[i] == Some(TypicalPrice(bars)[i])
  {
    var tp := TypicalPrice(bars);
    var m := TypicalMean(bars, n);
    var dev := Deviation(bars, n);
    forall j | 0 <= j < |dev| && dev[j].Some? ensures dev[j].value >= 0.0 {
      assert dev[j] == Abs(Sub(Some(tp[j]), m[j]));
    }
    RollingMeanZero(dev, n, i);
    assert dev[i] == Abs(Sub(Some(tp[i]), m[i]));
  }

  // ----- ADX -----

  /** `s[s < 0] = 0`: negative entries become 0; NaN entries stay NaN since
      a comparison with NaN is false. */
  function ClipNegative(s: seq<Num>): (r: seq<Num>)
    ensures |r| == |s|
    ensures forall i :: 0 <= i < |s| ==> (r[i].Some? <==> s[i].Some?)
    ensures forall i :: 0 <= i < |s| && r[i].Some? ==> r[i].value >= 0.0
    ensures forall i :: 0 <= i < |s| && s[i].Some? && s[i].value >= 0.0 ==> r[i] == s[i]
    ensures forall i :: 0 <= i < |s| && s[i].Some? && s[i].value < 0.0 ==> r[i] == Some(0.0)
  {
    seq(|s|, i requires 0 <= i < |s| => if Lt(s[i], Some(0.0)) then Some(0.0) else s[i])
  }

  /** The masked assignment `s[s < 0] = 0`, done in place. */
  method ClipNegativeInPlace(a: array<Num>)
    modifies a
    ensures a[..] == ClipNegative(old(a[..]))
  {
    ghost var before := a[..];
    for i := 0 to a.Length
      invariant forall j :: 0 <= j < i ==> a[j] == ClipNegative(before)[j]
      invariant forall j :: i <= j < a.Length ==> a[j] == before[j]
    {
      if Lt(a[i], Some(0.0)) {
        a[i] := Some(0.0);
      }
    }
  }

  /** `high.diff()` after clipping: the upward move, never negative. */
  function PlusDm(bars: seq<Bar>): (r: seq<Num>)
    ensures |r| == |bars|
  {
    ClipNegative(Diff(Highs(bars)))
  }

  /** `low.diff().abs()` after clipping. */
  function MinusDm(bars: seq<Bar>): (r: seq<Num>)
    ensures |r| == |bars|
  {
    ClipNegative(AbsAll(Diff(Lows(bars))))
  }

  /** `minus_dm` is an absolute value, so the clip of line 56 never changes it. */
  lemma MinusDmUnclipped(bars: seq<Bar>)
    ensures MinusDm(bars) == AbsAll(Diff(Lows(bars)))
  {
    var s := AbsAll(Diff(Lows(bars)));
    forall i | 0 <= i < |s| ensures MinusDm(bars)[i] == s[i] {
      if s[i].Some? {
        assert s[i].value >= 0.0;
      }
    }
  }

  /** Both directional movements are NaN at bar 0 and nonnegative elsewhere. */
  lemma DmFacts(bars: seq<Bar>, i: nat)
    requires i < |bars|
    ensures PlusDm(bars)[i].Some? <==> i > 0
    ensures MinusDm(bars)[i].Some? <==> i > 0
    ensures i > 0 ==> PlusDm(bars)[i].value >= 0.0 && MinusDm(bars)[i].value >= 0.0
  {
  }

  /** `100 * (dm.rolling(n).sum() / tr)`. */
  function DirectionalIndex(dm: seq<Num>, atr: seq<Num>, n: nat): (r: seq<Num>)
    requires n >= 1 && |dm| == |atr|
    ensures |r| == |dm|
  {
    var total := Rolling(dm, n, Total);
    seq(|dm|, i requires 0 <= i < |dm| => Scale(100.0, Div(total[i], atr[i])))
  }

  /** `dx = (|plus_di - minus_di| / (plus_di + minus_di)) * 100` from the clipped movements. */
  function DxFrom(bars: seq<Bar>, n: nat, plusDm: seq<Num>, minusDm: seq<Num>): (r: seq<Num>)
    requires n >= 1 && |plusDm| == |bars| && |minusDm| == |bars|
    ensures |r| == |bars|
  {
    var tr := Atr(bars, n);
    var p := DirectionalIndex(plusDm, tr, n);
    var m := DirectionalIndex(minusDm, tr, n);
    seq(|bars|, i requires 0 <= i < |bars| => DxAt(p[i], m[i]))
  }

  /** One DX entry from the two directional indices. */
  function DxAt(plusDi: Num, minusDi: Num): (r: Num)
    ensures r.Some? ==> plusDi.Some? && minusDi.Some?
  {
    Scale(100.0, Div(Abs(Sub(plusDi, minusDi)), Add(plusDi, minusDi)))
  }

  /** With both indices nonnegative, `|p - m| <= p + m`, so DX is in [0, 100]. */
  lemma DxAtRange(plusDi: Num, minusDi: Num)
    requires plusDi.Some? ==> plusDi.value >= 0.0
    requires minusDi.Some? ==> minusDi.value >= 0.0
    requires DxAt(plusDi, minusDi).Some?
    ensures 0.0 <= DxAt(plusDi, minusDi).value <= 100.0
  {
    var a, b := plusDi.value, minusDi.value;
    RatioBounds(AbsReal(a - b), a + b, 1.0);
  }

  function Dx(bars: seq<Bar>, n: nat): (r: seq<Num>)
    requires n >= 1
    ensures |r| == |bars|
  {
    DxFrom(bars, n, PlusDm(bars), MinusDm(bars))
  }

  /** `adx(df, n)`: the `n`-bar mean of DX. */
  function AdxSeries(bars: seq<Bar>, n: nat): (r: seq<Num>)
    requires n >= 1
    ensures |r| == |bars|
  {
    Sma(Dx(bars, n), n)
  }

  /** `adx(df, n)` as the source runs it: the movements are clipped in place. */
  method Adx(bars: seq<Bar>, n: nat) returns (adx: seq<Num>)
    requires n >= 1
    ensures adx == AdxSeries(bars, n)
    ensures forall i :: 0 <= i < |adx| && adx[i].Some? ==> 0.0 <= adx[i].value <= 100.0
  {
    var up := Diff(Highs(bars));
    var down := AbsAll(Diff(Lows(bars)));
    var plusDm := new Num[|bars|](i requires 0 <= i < |bars| => up[i]);
    var minusDm := new Num[|bars|](i requires 0 <= i < |bars| => down[i]);
    assert plusDm[..] == up;
    assert minusDm[..] == down;
    ClipNegativeInPlace(plusDm);
    ClipNegativeInPlace(minusDm);
    adx := Sma(DxFrom(bars, n, plusDm[..], minusDm[..]), n);
    forall i | 0 <= i < |adx| && adx[i].Some? ensures 0.0 <= adx[i].value <= 100.0 {
      AdxRange(bars, n, i);
    }
  }

  /** A defined directional index is nonnegative: its movement sum skips
      bar 0, so the ATR it divides by covers bars whose true range is `>= 0`. */
  lemma DirectionalIndexNonNegative(bars: seq<Bar>, n: nat, dm: seq<Num>, i: nat)
    requires n >= 1 && i < |bars| && |dm| == |bars|
    requires dm[0].None?
    requires forall j :: 0 <= j < |dm| && dm[j].Some? ==> dm[j].value >= 0.0
    requires DirectionalIndex(dm, Atr(bars, n), n)[i].Some?
    ensures DirectionalIndex(dm, Atr(bars, n), n)[i].value >= 0.0
  {
    var atr := Atr(bars, n);
    var total := Rolling(dm, n, Total);
    assert total[i].Some?;
    assert n <= i;
    AtrNonNegative(bars, n, i);
    RollingTotalNonNegative(dm, n, i);
    assert total[i].value / atr[i].value >= 0.0;
  }

  /** A defined DX lies in [0, 100]. */
  lemma DxRange(bars: seq<Bar>, n: nat, i: nat)
    requires n >= 1 && i < |bars|
    requires Dx(bars, n)[i].Some?
    ensures 0.0 <= Dx(bars, n)[i].value <= 100.0
  {
    var tr := Atr(bars, n);
    var p := DirectionalIndex(PlusDm(bars), tr, n);
    var m := DirectionalIndex(MinusDm(bars), tr, n);
    assert Dx(bars, n)[i] == DxAt(p[i], m[i]);
    DmFacts(bars, 0);
    forall j | 0 <= j < |bars| && PlusDm(bars)[j].Some? ensures PlusDm(bars)[j].value >= 0.0 {
      DmFacts(bars, j);
    }
    forall j | 0 <= j < |bars| && MinusDm(bars)[j].Some? ensures MinusDm(bars)[j].value >= 0.0 {
      DmFacts(bars, j);
    }
    DirectionalIndexNonNegative(bars, n, PlusDm(bars), i);
    DirectionalIndexNonNegative(bars, n, MinusDm(bars), i);
    DxAtRange(p[i], m[i]);
  }

  /** A defined ADX lies in [0, 100]. */
  lemma AdxRange(bars: seq<Bar>, n: nat, i: nat)
    requires n >= 1 && i < |bars|
    requires AdxSeries(bars, n)[i].Some?
    ensures 0.0 <= AdxSeries(bars, n)[i].value <= 100.0
  {
    var dx := Dx(bars, n);
    forall j | 0 <= j < |dx| && dx[j].Some? ensures 0.0 <= dx[j].value <= 100.0 {
      DxRange(bars, n, j);
    }
    RollingMeanBounds(dx, n, i, 0.0, 100.0);
  }

  // ----- UT-Bot trailing stop -----

  /** One bar of the UT-Bot recurrence once ATR is defined: ratchet up,
      ratchet down, flip up, or (every other case, a NaN previous trail
      included) flip down. */
  function UtStep(close: real, prevClose: real, prevTrail: Num, loss: real): real
  {
    if Gt(Some(close), prevTrail) && Gt(Some(prevClose), prevTrail) then
      MaxReal(prevTrail.value, close - loss)
    else if Lt(Some(close), prevTrail) && Lt(Some(prevClose), prevTrail) then
      MinReal(prevTrail.value, close + loss)
    else if Gt(Some(close), prevTrail) then
      close - loss
    else
      close + loss
  }

  /** The four branches of the step: ratchets keep the stop on the same
      side of the previous one, flips put it `loss` away from the close. */
  lemma UtStepFacts(close: real, prevClose: real, prevTrail: Num, loss: real)
    ensures var t := UtStep(close, prevClose, prevTrail, loss);
      var up, down := Gt(Some(close), prevTrail), Lt(Some(close), prevTrail);
      && (up && Gt(Some(prevClose), prevTrail) ==> prevTrail.value <= t && (loss >= 0.0 ==> t <= close))
      && (down && Lt(Some(prevClose), prevTrail) ==> t <= prevTrail.value && (loss >= 0.0 ==> close <= t))
      && (up && !Gt(Some(prevClose), prevTrail) ==> t == close - loss)
      && (!up && !(down && Lt(Some(prevClose), prevTrail)) ==> t == close + loss)
      && (loss >= 0.0 && up ==> t <= close)
      && (loss >= 0.0 && !up ==> t >= close)
  {
  }

  /** The trail at bar `i`, with `loss = key * atr`: at bar 0 or wherever
      ATR is NaN it is `close - loss` (NaN when `loss` is). */
  function UtTrailAt(closes: seq<real>, atr: seq<Num>, key: real, i: nat): Num
    requires |atr| == |closes| && i < |closes|
    decreases i
  {
    var loss := Scale(key, atr[i]);
    if i == 0 || atr[i].None? then Sub(Some(closes[i]), loss)
    else Some(UtStep(closes[i], closes[i - 1], UtTrailAt(closes, atr, key, i - 1), loss.value))
  }

  function UtTrail(bars: seq<Bar>, key: real, period: nat): (r: seq<Num>)
    requires period >= 1
    ensures |r| == |bars|
  {
    var closes := Closes(bars);
    var atr := Atr(bars, period);
    seq(|bars|, i requires 0 <= i < |bars| => UtTrailAt(closes, atr, key, i))
  }

  /** `ut_bot(df, key, atr_period)`: ATR over the bars, then the trail loop. */
  method UtBot(bars: seq<Bar>, key: real, period: nat) returns (trail: seq<Num>)
    requires period >= 1
    ensures trail == UtTrail(bars, key, period)
  {
    var closes := Closes(bars);
    var atr := Atr(bars, period);
    trail := UtTrailLoop(closes, atr, key);
  }

  /** The loop of `ut_bot`: a preallocated NaN series filled bar by bar,
      with `loss = key * atr` precomputed. */
  method UtTrailLoop(closes: seq<real>, atr: seq<Num>, key: real) returns (trail: seq<Num>)
    requires |atr| == |closes|
    ensures |trail| == |closes|
    ensures forall j :: 0 <= j < |closes| ==> trail[j] == UtTrailAt(closes, atr, key, j)
  {
    var loss := seq(|closes|, i requires 0 <= i < |closes| => Scale(key, atr[i]));
    ghost var spec := seq(|closes|, j requires 0 <= j < |closes| => UtTrailAt(closes, atr, key, j));
    var t := new Num[|closes|](_ => None);
    for i := 0 to |closes|
      invariant forall j :: 0 <= j < i ==> t[j] == spec[j]
    {
      var close := closes[i];
      var next: Num;
      if i == 0 || atr[i].None? {
        next := Sub(Some(close), loss[i]);
      } else {
        var prevTrail := t[i - 1];
        var prevClose := closes[i - 1];
        assert prevTrail == spec[i - 1];
        if Gt(Some(close), prevTrail) && Gt(Some(prevClose), prevTrail) {
          next := Some(MaxReal(prevTrail.value, close - loss[i].value));
        } else if Lt(Some(close), prevTrail) && Lt(Some(prevClose), prevTrail) {
          next := Some(MinReal(prevTrail.value, close + loss[i].value));
        } else if Gt(Some(close), prevTrail) {
          next := Some(close - loss[i].value);
        } else {
          next := Some(close + loss[i].value);
        }
      }
      assert next == spec[i];
      ghost var before := t[..];
      t[i] := next;
      assert forall j :: 0 <= j < i ==> t[j] == before[j];
    }
    trail := t[..];
    assert forall j :: 0 <= j < |closes| ==> trail[j] == spec[j];
  }

  /** The trail is NaN exactly where ATR is NaN. */
  lemma UtBotDefined(bars: seq<Bar>, key: real, period: nat, i: nat)
    requires period >= 1 && i < |bars|
    ensures UtTrail(bars, key, period)[i].Some? <==> Atr(bars, period)[i].Some?
  {
    var closes := Closes(bars);
    var atr := Atr(bars, period);
    assert UtTrail(bars, key, period)[i] == UtTrailAt(closes, atr, key, i);
    UtTrailDefined(closes, atr, key, i);
  }

  lemma UtTrailDefined(closes: seq<real>, atr: seq<Num>, key: real, i: nat)
    requires |atr| == |closes| && i < |closes|
    ensures UtTrailAt(closes, atr, key, i).Some? <==> atr[i].Some?
  {
  }

  /** At the first bar with a defined ATR the previous trail is NaN, all
      three tests fail, and the trail is `close + loss`. */
  lemma UtBotFirstDefined(bars: seq<Bar>, key: real, period: nat)
    requires 2 <= period <= |bars|
    ensures UtTrail(bars, key, period)[period - 1] ==
      Some(bars[period - 1].close + key * Atr(bars, period)[period - 1].value)
  {
    var closes := Closes(bars);
    var atr := Atr(bars, period);
    assert atr[period - 2].None?;
    assert UtTrailAt(closes, atr, key, period - 2).None?;
  }

  /** One step of the trail with a nonnegative loss. */
  lemma UtTrailStep(closes: seq<real>, atr: seq<Num>, key: real, i: nat)
    requires |atr| == |closes| && 0 < i < |closes|
    requires atr[i].Some? && Scale(key, atr[i]).value >= 0.0
    ensures var t, p := UtTrailAt(closes, atr, key, i), UtTrailAt(closes, atr, key, i - 1);
      var c, pc := closes[i], closes[i - 1];
      && t.Some?
      && (Gt(Some(c), p) && Gt(Some(pc), p) ==> p.value <= t.value <= c)
      && (Lt(Some(c), p) && Lt(Some(pc), p) ==> c <= t.value <= p.value)
      && (Gt(Some(c), p) ==> t.value <= c)
      && (!Gt(Some(c), p) ==> t.value >= c)
  {
    UtStepFacts(closes[i], closes[i - 1], UtTrailAt(closes, atr, key, i - 1), Scale(key, atr[i]).value);
  }

  /** Once ATR is defined, with `key >= 0` (and bar 0 not inverted) the stop
      ratchets: up while close stays above it, down while close stays
      below it; and it sits at or below a close that is above the previous
      trail, at or above any other close. */
  lemma UtBotRatchet(bars: seq<Bar>, key: real, period: nat, i: nat)
    requires period >= 1 && 0 < i < |bars| && key >= 0.0
    requires bars[0].low <= bars[0].high
    requires Atr(bars, period)[i].Some?
    ensures var t := UtTrail(bars, key, period);
      var c, pc := bars[i].close, bars[i - 1].close;
      && t[i].Some?
      && (Gt(Some(c), t[i - 1]) && Gt(Some(pc), t[i - 1]) ==> t[i - 1].value <= t[i].value <= c)
      && (Lt(Some(c), t[i - 1]) && Lt(Some(pc), t[i - 1]) ==> c <= t[i].value <= t[i - 1].value)
      && (Gt(Some(c), t[i - 1]) ==> t[i].value <= c)
      && (!Gt(Some(c), t[i - 1]) ==> t[i].value >= c)
  {
    LossNonNegative(bars, key, period, i);
    UtBotStep(bars, key, period, i);
  }

  lemma LossNonNegative(bars: seq<Bar>, key: real, period: nat, i: nat)
    requires period >= 1 && i < |bars| && key >= 0.0
    requires bars[0].low <= bars[0].high
    requires Atr(bars, period)[i].Some?
    ensures Scale(key, Atr(bars, period)[i]).value >= 0.0
  {
    AtrNonNegative(bars, period, i);
    ProductNonNegative(key, Atr(bars, period)[i].value);
  }

  lemma UtBotStep(bars: seq<Bar>, key: real, period: nat, i: nat)
    requires period >= 1 && 0 < i < |bars|
    requires Atr(bars, period)[i].Some? && Scale(key, Atr(bars, period)[i]).value >= 0.0
    ensures var t := UtTrail(bars, key, period);
      var c, pc := bars[i].close, bars[i - 1].close;
      && t[i].Some?
      && (Gt(Some(c), t[i - 1]) && Gt(Some(pc), t[i - 1]) ==> t[i - 1].value <= t[i].value <= c)
      && (Lt(Some(c), t[i - 1]) && Lt(Some(pc), t[i - 1]) ==> c <= t[i].value <= t[i - 1].value)
      && (Gt(Some(c), t[i - 1]) ==> t[i].value <= c)
      && (!Gt(Some(c), t[i - 1]) ==> t[i].value >= c)
  {
    var closes := Closes(bars);
    var atr := Atr(bars, period);
    assert closes[i] == bars[i].close && closes[i - 1] == bars[i - 1].close;
    assert UtTrail(bars, key, period)[i] == UtTrailAt(closes, atr, key, i);
    assert UtTrail(bars, key, period)[i - 1] == UtTrailAt(closes, atr, key, i - 1);
    UtTrailStep(closes, atr, key, i);
  }

  lemma ProductNonNegative(a: real, b: real)
    requires a >= 0.0 && b >= 0.0
    ensures a * b >= 0.0
  {
  }

  /** A flat series (high = low = close = c) keeps the trail at c once ATR
      is defined: the loss is 0, so every branch yields c. */
  lemma UtBotFlat(bars: seq<Bar>, key: real, period: nat, c: real, i: nat)
    requires period >= 1 && period <= i + 1 <= |bars|
    requires forall j :: 0 <= j < |bars| ==> bars[j].high == c && bars[j].low == c && bars[j].close == c
    ensures UtTrail(bars, key, period)[i] == Some(c)
  {
    var closes := Closes(bars);
    var atr := Atr(bars, period);
    AtrFlat(bars, period, c, i);
    assert UtTrail(bars, key, period)[i] == UtTrailAt(closes, atr, key, i);
    UtTrailFlat(closes, atr, key, c, i);
  }

  lemma UtTrailFlat(closes: seq<real>, atr: seq<Num>, key: real, c: real, i: nat)
    requires |atr| == |closes| && i < |closes|
    requires closes[i] == c && (i > 0 ==> closes[i - 1] == c)
    requires atr[i] == Some(0.0)
    ensures UtTrailAt(closes, atr, key, i) == Some(c)
  {
    assert Scale(key, atr[i]) == Some(0.0);
  }
}
