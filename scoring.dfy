/** The five-condition scorer shared by both Streamlit scanners
    (`calculate_indicators`): a half-ATR trailing stop and its buy
    crossover, a MACD(5, 13, 4) cross, a smoothed stochastic below 50, an
    ADX above 20 and an OBV above its 20-bar mean, counted on the last bar. */
module Scoring {
  import opened Nan
  import opened Series
  import opened Indicators

  // ----- Trailing stop on 0.5 * ATR(10) bands -----

  /** `close - 0.5 * atr` with the 10-bar ATR; NaN for the first nine bars. */
  function LowerBand(bars: seq<Bar>): (r: seq<Num>)
    ensures |r| == |bars|
  {
    var atr := Atr(bars, 10);
    seq(|bars|, i requires 0 <= i < |bars| => Sub(Some(bars[i].close), Scale(0.5, atr[i])))
  }

  /** `close + 0.5 * atr`. */
  function UpperBand(bars: seq<Bar>): (r: seq<Num>)
    ensures |r| == |bars|
  {
    var atr := Atr(bars, 10);
    seq(|bars|, i requires 0 <= i < |bars| => Add(Some(bars[i].close), Scale(0.5, atr[i])))
  }

  /** One bar of the scorer's stop: above the previous stop it may only
      rise, to the lower band; otherwise it may only fall, to the upper
      band. A NaN band leaves the stop where it was. */
  function TrailStep(prevTrail: real, close: real, lower: Num, upper: Num): real {
    if close > prevTrail then PyMax(prevTrail, lower) else PyMin(prevTrail, upper)
  }

  /** The two branches of the step and the bracket they keep. */
  lemma TrailStepFacts(prevTrail: real, close: real, lower: Num, upper: Num)
    ensures var t := TrailStep(prevTrail, close, lower, upper);
      && (close > prevTrail ==> prevTrail <= t && (t == prevTrail || (lower.Some? && t == lower.value)))
      && (close > prevTrail && lower.Some? ==> t >= lower.value)
      && (close > prevTrail && (lower.Some? ==> lower.value <= close) ==> t <= close)
      && (close <= prevTrail ==> t <= prevTrail && (t == prevTrail || (upper.Some? && t == upper.value)))
      && (close <= prevTrail && upper.Some? ==> t <= upper.value)
      && (close <= prevTrail && (upper.Some? ==> upper.value >= close) ==> t >= close)
  {
  }

  /** The stop at bar `i`: the close at bar 0, then one step per bar. */
  function TrailAt(closes: seq<real>, lower: seq<Num>, upper: seq<Num>, i: nat): real
    requires |lower| == |closes| && |upper| == |closes| && i < |closes|
  {
    if i == 0 then closes[0]
    else TrailStep(TrailAt(closes, lower, upper, i - 1), closes[i], lower[i], upper[i])
  }

  function ScorerTrail(bars: seq<Bar>): (r: seq<real>)
    ensures |r| == |bars|
  {
    var closes := Closes(bars);
    var lower := LowerBand(bars);
    var upper := UpperBand(bars);
    seq(|bars|, i requires 0 <= i < |bars| => TrailAt(closes, lower, upper, i))
  }

  /** The loop of `calculate_indicators`: a copy of the closes whose entries
      from bar 1 on are overwritten one by one. */
  method TrailLoop(closes: seq<real>, lower: seq<Num>, upper: seq<Num>) returns (trail: seq<real>)
    requires |lower| == |closes| && |upper| == |closes|
    ensures |trail| == |closes|
    ensures forall j :: 0 <= j < |closes| ==> trail[j] == TrailAt(closes, lower, upper, j)
  {
    ghost var spec := seq(|closes|, j requires 0 <= j < |closes| => TrailAt(closes, lower, upper, j));
    var t := new real[|closes|](i requires 0 <= i < |closes| => closes[i]);
    var i := 1;
    while i < |closes|
      invariant 1 <= i <= |closes| || |closes| == 0
      invariant forall j :: 0 <= j < i && j < |closes| ==> t[j] == spec[j]
    {
      var prev := t[i - 1];
      var next: real;
      if closes[i] > prev {
        next := PyMax(prev, lower[i]);
      } else {
        next := PyMin(prev, upper[i]);
      }
      assert prev == spec[i - 1];
      assert next == spec[i];
      ghost var before := t[..];
      t[i] := next;
      assert forall j :: 0 <= j < i ==> t[j] == before[j];
      i := i + 1;
    }
    trail := t[..];
    assert forall j :: 0 <= j < |closes| ==> trail[j] == spec[j];
  }

  /** While both bands are NaN the stop never leaves the first close. */
  lemma {:induction false} TrailFrozen(closes: seq<real>, lower: seq<Num>, upper: seq<Num>, i: nat)
    requires |lower| == |closes| && |upper| == |closes| && i < |closes|
    requires forall j :: 0 < j <= i ==> lower[j].None? && upper[j].None?
    ensures TrailAt(closes, lower, upper, i) == closes[0]
  {
    if i > 0 {
      TrailFrozen(closes, lower, upper, i - 1);
    }
  }

  /** The 10-bar ATR is NaN on bars 0..8, so the stop stays at the first
      close there. */
  lemma ScorerTrailFrozen(bars: seq<Bar>, i: nat)
    requires i < |bars| && i < 9
    ensures ScorerTrail(bars)[i] == bars[0].close
  {
    var closes := Closes(bars);
    var lower := LowerBand(bars);
    var upper := UpperBand(bars);
    forall j | 0 < j <= i ensures lower[j].None? && upper[j].None? {
      assert Atr(bars, 10)[j].None?;
    }
    TrailFrozen(closes, lower, upper, i);
  }

  /** The bands bracket the close once ATR (never negative) is defined. */
  lemma BandsBracket(bars: seq<Bar>, i: nat)
    requires i < |bars| && bars[0].low <= bars[0].high
    ensures LowerBand(bars)[i].Some? ==> LowerBand(bars)[i].value <= bars[i].close
    ensures UpperBand(bars)[i].Some? ==> UpperBand(bars)[i].value >= bars[i].close
  {
    if Atr(bars, 10)[i].Some? {
      AtrNonNegative(bars, 10, i);
    }
  }

  /** After bar 0 the stop moves toward the close and never past it: with a
      close above the previous stop, `prev <= stop <= close`; otherwise
      `close <= stop <= prev`. */
  lemma ScorerTrailBetween(bars: seq<Bar>, i: nat)
    requires 0 < i < |bars| && bars[0].low <= bars[0].high
    ensures var t, c := ScorerTrail(bars), bars[i].close;
      && (c > t[i - 1] ==> t[i - 1] <= t[i] <= c)
      && (c <= t[i - 1] ==> c <= t[i] <= t[i - 1])
  {
    var closes := Closes(bars);
    var lower := LowerBand(bars);
    var upper := UpperBand(bars);
    BandsBracket(bars, i);
    assert closes[i] == bars[i].close;
    assert ScorerTrail(bars)[i - 1] == TrailAt(closes, lower, upper, i - 1);
    assert ScorerTrail(bars)[i] == TrailStep(ScorerTrail(bars)[i - 1], closes[i], lower[i], upper[i]);
    TrailStepFacts(ScorerTrail(bars)[i - 1], closes[i], lower[i], upper[i]);
  }

  /** `ut_buy = (close > trail) & (close.shift(1) <= trail.shift(1))`. */
  function UtBuy(bars: seq<Bar>, trail: seq<real>): (r: seq<bool>)
    requires |trail| == |bars|
    ensures |r| == |bars|
    ensures forall i :: 0 <= i < |bars| ==>
      (r[i] <==> i > 0 && bars[i].close > trail[i] && bars[i - 1].close <= trail[i - 1])
  {
    var c := Closes(bars);
    var closeNow, trailNow := Lift(c), Lift(trail);
    var closeBefore, trailBefore := Shift(c), Shift(trail);
    seq(|bars|, i requires 0 <= i < |bars| =>
      Gt(closeNow[i], trailNow[i]) && Le(closeBefore[i], trailBefore[i]))
  }

  /** A buy signal needs a rising close that crosses the previous stop,
      which then ratchets up. */
  lemma UtBuyRising(bars: seq<Bar>, i: nat)
    requires i < |bars| && bars[0].low <= bars[0].high
    requires UtBuy(bars, ScorerTrail(bars))[i]
    ensures var t := ScorerTrail(bars);
      i > 0 && bars[i].close > t[i - 1] && bars[i].close > bars[i - 1].close && t[i] >= t[i - 1]
  {
    ScorerTrailBetween(bars, i);
  }

  // ----- MACD(5, 13, 4) cross -----

  /** `macd_cond = macd_line > macd_signal`. */
  function MacdCond(closes: seq<real>): (r: seq<bool>)
    ensures |r| == |closes|
  {
    var m := Macd(closes);
    seq(|closes|, i requires 0 <= i < |closes| => m.0[i] > m.1[i])
  }

  /** The signal line is an EMA of the MACD line, so the line is above it
      exactly when it is above the previous signal value; never at bar 0. */
  lemma MacdCondCross(closes: seq<real>, i: nat)
    requires i < |closes|
    ensures MacdCond(closes)[i] <==> i > 0 && Macd(closes).0[i] > Macd(closes).1[i - 1]
  {
    var m := Macd(closes);
    assert Alpha(4) == 0.4;
    if i > 0 {
      assert m.1[i] == 0.4 * m.0[i] + 0.6 * m.1[i - 1];
    }
  }

  /** A constant close never gives a MACD cross. */
  lemma MacdCondConstant(closes: seq<real>, c: real, i: nat)
    requires i < |closes|
    requires forall j :: 0 <= j < |closes| ==> closes[j] == c
    ensures !MacdCond(closes)[i]
  {
    MacdConstant(closes, c, i);
  }

  // ----- Smoothed stochastic below 50 -----

  /** `k = 100 * ((close - low_min) / (high_max - low_min))` over 8 bars. */
  function ScorerK(bars: seq<Bar>): (r: seq<Num>)
    ensures |r| == |bars|
  {
    var lo := LowestLow(bars, 8);
    var hi := HighestHigh(bars, 8);
    seq(|bars|, i requires 0 <= i < |bars| =>
      Scale(100.0, Div(Sub(Some(bars[i].close), lo[i]), Sub(hi[i], lo[i]))))
  }

  /** `k_smooth = k.rolling(5).mean()`. */
  function KSmooth(bars: seq<Bar>): (r: seq<Num>)
    ensures |r| == |bars|
  {
    Sma(ScorerK(bars), 5)
  }

  /** `d = k_smooth.rolling(3).mean()`. */
  function KSignal(bars: seq<Bar>): (r: seq<Num>)
    ensures |r| == |bars|
  {
    Sma(KSmooth(bars), 3)
  }

  /** `stoch_cond = (k_smooth > d) & (k_smooth < 50)`. */
  function StochCond(bars: seq<Bar>): (r: seq<bool>)
    ensures |r| == |bars|
  {
    var ks := KSmooth(bars);
    var d := KSignal(bars);
    seq(|bars|, i requires 0 <= i < |bars| => Gt(ks[i], d[i]) && Lt(ks[i], Some(50.0)))
  }

  /** `k` needs 8 bars, `k_smooth` 4 more and `d` 2 more: no stochastic
      condition before bar 13. */
  lemma StochCondEarly(bars: seq<Bar>, i: nat)
    requires i < |bars| && i < 13
    ensures !StochCond(bars)[i]
  {
    var k := ScorerK(bars);
    var ks := KSmooth(bars);
    forall j | 0 <= j < |bars| && j < 7 ensures k[j].None? {
      LowestLowFacts(bars, 8, j);
    }
    forall j | 0 <= j < |bars| && j < 11 ensures ks[j].None? {
      if 4 <= j {
        assert k[j - 4].None?;
      }
    }
    if 2 <= i {
      assert ks[i - 2].None?;
    }
    assert KSignal(bars)[i].None?;
  }

  /** The condition holds only when the smoothed %K is below 50 and above
      the mean of its last three values, so above one of the two before. */
  lemma StochCondRising(bars: seq<Bar>, i: nat)
    requires i < |bars| && StochCond(bars)[i]
    ensures var ks := KSmooth(bars);
      && 2 <= i && ks[i].Some? && ks[i - 1].Some? && ks[i - 2].Some?
      && ks[i].value < 50.0
      && (ks[i].value > ks[i - 1].value || ks[i].value > ks[i - 2].value)
  {
    var ks := KSmooth(bars);
    assert Gt(ks[i], Rolling(ks, 3, Mean)[i]);
    AboveMeanOfThree(ks, i);
  }

  // ----- ADX above 20 -----

  /** `up_move = high.diff()`. */
  function UpMove(bars: seq<Bar>): (r: seq<Num>)
    ensures |r| == |bars|
  {
    Diff(Highs(bars))
  }

  /** `down_move = low.diff().abs()`. */
  function DownMove(bars: seq<Bar>): (r: seq<Num>)
    ensures |r| == |bars|
  {
    AbsAll(Diff(Lows(bars)))
  }

  /** `np.where((up_move > down_move) & (up_move > 0), up_move, 0)`. */
  function ScorerPlusDm(bars: seq<Bar>): (r: seq<real>)
    ensures |r| == |bars|
  {
    var up, down := UpMove(bars), DownMove(bars);
    seq(|bars|, i requires 0 <= i < |bars| =>
      if Gt(up[i], down[i]) && Gt(up[i], Some(0.0)) then up[i].value else 0.0)
  }

  /** `np.where((down_move > up_move) & (down_move > 0), down_move, 0)`. */
  function ScorerMinusDm(bars: seq<Bar>): (r: seq<real>)
    ensures |r| == |bars|
  {
    var up, down := UpMove(bars), DownMove(bars);
    seq(|bars|, i requires 0 <= i < |bars| =>
      if Gt(down[i], up[i]) && Gt(down[i], Some(0.0)) then down[i].value else 0.0)
  }

  /** Each bar credits at most one direction: the larger move, when it is
      positive; bar 0 (NaN moves) credits neither. */
  lemma ScorerDmFacts(bars: seq<Bar>, i: nat)
    requires i < |bars|
    ensures var p, m := ScorerPlusDm(bars)[i], ScorerMinusDm(bars)[i];
      && p >= 0.0 && m >= 0.0
      && !(p > 0.0 && m > 0.0)
      && (i == 0 ==> p == 0.0 && m == 0.0)
      && (i > 0 ==>
        var up, down := bars[i].high - bars[i - 1].high, AbsReal(bars[i].low - bars[i - 1].low);
        && (p > 0.0 <==> up > down && up > 0.0)
        && (p > 0.0 ==> p == up)
        && (m > 0.0 <==> down > up && down > 0.0)
        && (m > 0.0 ==> m == down))
  {
  }

  /** `100 * dm.rolling(14).sum() / atr14`, divided bar by bar. This is
      the alignment of streamlit_polygon_sp500.py:72-73, whose movements keep
      the frame's dates. In streamlit_polygon_sp500_corrected.py:78-79 the
      movements are a numpy array wrapped in a fresh 0..n-1 index, which
      shares no label with the dates of `atr14`. */
  function ScorerDi(dm: seq<real>, atr: seq<Num>): (r: seq<Num>)
    requires |atr| == |dm|
    ensures |r| == |dm|
  {
    var total := Rolling(Lift(dm), 14, Total);
    seq(|dm|, i requires 0 <= i < |dm| => Div(Scale(100.0, total[i]), atr[i]))
  }

  /** `dx = 100 * |plus_di - minus_di| / (plus_di + minus_di)` at one bar. */
  function ScorerDxAt(plusDi: Num, minusDi: Num): (r: Num)
    ensures r.Some? ==> plusDi.Some? && minusDi.Some?
  {
    Div(Scale(100.0, Abs(Sub(plusDi, minusDi))), Add(plusDi, minusDi))
  }

  lemma ScorerDxAtRange(plusDi: Num, minusDi: Num)
    requires plusDi.Some? ==> plusDi.value >= 0.0
    requires minusDi.Some? ==> minusDi.value >= 0.0
    requires ScorerDxAt(plusDi, minusDi).Some?
    ensures 0.0 <= ScorerDxAt(plusDi, minusDi).value <= 100.0
  {
    var a, b := plusDi.value, minusDi.value;
    RatioBounds(100.0 * AbsReal(a - b), a + b, 100.0);
  }

  function ScorerDx(bars: seq<Bar>): (r: seq<Num>)
    ensures |r| == |bars|
  {
    var atr := Atr(bars, 14);
    var p := ScorerDi(ScorerPlusDm(bars), atr);
    var m := ScorerDi(ScorerMinusDm(bars), atr);
    seq(|bars|, i requires 0 <= i < |bars| => ScorerDxAt(p[i], m[i]))
  }

  /** `adx = dx.rolling(14).mean()`. */
  function ScorerAdx(bars: seq<Bar>): (r: seq<Num>)
    ensures |r| == |bars|
  {
    Sma(ScorerDx(bars), 14)
  }

  /** `adx_cond = adx > 20`. */
  function AdxCond(bars: seq<Bar>): (r: seq<bool>)
    ensures |r| == |bars|
  {
    var adx := ScorerAdx(bars);
    seq(|bars|, i requires 0 <= i < |bars| => Gt(adx[i], Some(20.0)))
  }

  /** ATR(14) is NaN before bar 13 and the mean of DX needs 13 more bars:
      no ADX condition before bar 26. */
  lemma AdxCondEarly(bars: seq<Bar>, i: nat)
    requires i < |bars| && i < 26
    ensures !AdxCond(bars)[i]
  {
    var dx := ScorerDx(bars);
    if 13 <= i {
      assert Atr(bars, 14)[i - 13].None?;
      assert dx[i - 13].None?;
    }
    assert ScorerAdx(bars)[i].None?;
  }

  /** A defined directional index is nonnegative (bar 0 not inverted). */
  lemma ScorerDiNonNegative(bars: seq<Bar>, dm: seq<real>, i: nat)
    requires i < |bars| && |dm| == |bars| && bars[0].low <= bars[0].high
    requires forall j :: 0 <= j < |dm| ==> dm[j] >= 0.0
    requires ScorerDi(dm, Atr(bars, 14))[i].Some?
    ensures ScorerDi(dm, Atr(bars, 14))[i].value >= 0.0
  {
    var atr := Atr(bars, 14);
    var total := Rolling(Lift(dm), 14, Total);
    assert ScorerDi(dm, atr)[i] == Div(Scale(100.0, total[i]), atr[i]);
    AtrNonNegative(bars, 14, i);
    RollingTotalNonNegative(Lift(dm), 14, i);
    QuotientNonNegative(100.0 * total[i].value, atr[i].value);
  }

  lemma ScorerDxRange(bars: seq<Bar>, i: nat)
    requires i < |bars| && bars[0].low <= bars[0].high
    requires ScorerDx(bars)[i].Some?
    ensures 0.0 <= ScorerDx(bars)[i].value <= 100.0
  {
    var atr := Atr(bars, 14);
    var plus, minus := ScorerPlusDm(bars), ScorerMinusDm(bars);
    var p := ScorerDi(plus, atr);
    var m := ScorerDi(minus, atr);
    assert ScorerDx(bars)[i] == ScorerDxAt(p[i], m[i]);
    forall j | 0 <= j < |bars| ensures plus[j] >= 0.0 && minus[j] >= 0.0 {
      ScorerDmFacts(bars, j);
    }
    ScorerDiNonNegative(bars, plus, i);
    ScorerDiNonNegative(bars, minus, i);
    ScorerDxAtRange(p[i], m[i]);
  }

  /** A defined ADX lies in [0, 100]; the condition means it lies in (20, 100]. */
  lemma ScorerAdxRange(bars: seq<Bar>, i: nat)
    requires i < |bars| && bars[0].low <= bars[0].high
    requires ScorerAdx(bars)[i].Some?
    ensures 0.0 <= ScorerAdx(bars)[i].value <= 100.0
    ensures AdxCond(bars)[i] <==> ScorerAdx(bars)[i].value > 20.0
  {
    var dx := ScorerDx(bars);
    forall j | 0 <= j < |dx| && dx[j].Some? ensures 0.0 <= dx[j].value <= 100.0 {
      ScorerDxRange(bars, j);
    }
    RollingMeanBounds(dx, 14, i, 0.0, 100.0);
  }

  // ----- OBV above its 20-bar mean -----

  /** The signed volume the masked writes leave at bar `i`: `-volume` on a
      falling close, `+volume` on any other bar (bar 0, whose change is NaN,
      and an unchanged close included). */
  function ObvDelta(bars: seq<Bar>, i: nat): real
    requires i < |bars|
  {
    if i > 0 && bars[i].close < bars[i - 1].close then -bars[i].volume else bars[i].volume
  }

  /** The running sum of the signed volumes up to bar `i` (`cumsum`). */
  function ObvAt(bars: seq<Bar>, i: nat): real
    requires i < |bars|
  {
    if i == 0 then ObvDelta(bars, 0) else ObvAt(bars, i - 1) + ObvDelta(bars, i)
  }

  function ObvSeries(bars: seq<Bar>): (r: seq<real>)
    ensures |r| == |bars|
  {
    seq(|bars|, i requires 0 <= i < |bars| => ObvAt(bars, i))
  }

  /** OBV as the scanner builds it: a copy of the volumes, two masked
      writes, `fillna(0)` (a no-op: no entry is NaN), then a cumulative sum
      in place. */
  method Obv(bars: seq<Bar>) returns (obv: seq<real>)
    ensures obv == ObvSeries(bars)
  {
    var change := Diff(Closes(bars));
    var o := new real[|bars|](i requires 0 <= i < |bars| => bars[i].volume);
    for i := 0 to |bars|
      invariant forall j :: 0 <= j < |bars| ==> o[j] == bars[j].volume
    {
      if Gt(change[i], Some(0.0)) {
        o[i] := bars[i].volume;
      }
    }
    for i := 0 to |bars|
      invariant forall j :: 0 <= j < i ==> o[j] == ObvDelta(bars, j)
      invariant forall j :: i <= j < |bars| ==> o[j] == bars[j].volume
    {
      if Lt(change[i], Some(0.0)) {
        o[i] := -bars[i].volume;
      }
      assert o[i] == ObvDelta(bars, i);
    }
    var i := 1;
    while i < |bars|
      invariant 1 <= i <= |bars| || |bars| == 0
      invariant forall j :: 0 <= j < i && j < |bars| ==> o[j] == ObvAt(bars, j)
      invariant forall j :: i <= j < |bars| ==> o[j] == ObvDelta(bars, j)
    {
      var next := o[i - 1] + o[i];
      assert next == ObvAt(bars, i);
      ghost var before := o[..];
      o[i] := next;
      assert forall j :: 0 <= j < |bars| && j != i ==> o[j] == before[j];
      i := i + 1;
    }
    obv := o[..];
  }

  /** OBV starts at the first volume, then adds each bar's volume, negated
      exactly when the close fell. */
  lemma ObvSteps(bars: seq<Bar>, i: nat)
    requires i < |bars|
    ensures ObvSeries(bars)[0] == bars[0].volume
    ensures i > 0 && bars[i].close < bars[i - 1].close ==>
      ObvSeries(bars)[i] == ObvSeries(bars)[i - 1] - bars[i].volume
    ensures i > 0 && bars[i].close >= bars[i - 1].close ==>
      ObvSeries(bars)[i] == ObvSeries(bars)[i - 1] + bars[i].volume
  {
  }

  /** Over a run of bars whose close never falls (volumes nonnegative),
      OBV never falls. */
  lemma {:induction false} ObvNonDecreasing(bars: seq<Bar>, a: nat, b: nat)
    requires a <= b < |bars|
    requires forall j :: a < j <= b ==> bars[j].volume >= 0.0 && bars[j].close >= bars[j - 1].close
    ensures ObvAt(bars, a) <= ObvAt(bars, b)
  {
    if a < b {
      ObvNonDecreasing(bars, a, b - 1);
    }
  }

  /** Over a run of strictly falling closes (volumes nonnegative), OBV
      never rises. */
  lemma {:induction false} ObvNonIncreasing(bars: seq<Bar>, a: nat, b: nat)
    requires a <= b < |bars|
    requires forall j :: a < j <= b ==> bars[j].volume >= 0.0 && bars[j].close < bars[j - 1].close
    ensures ObvAt(bars, b) <= ObvAt(bars, a)
  {
    if a < b {
      ObvNonIncreasing(bars, a, b - 1);
    }
  }

  /** `obv_cond = obv > obv.rolling(20).mean()`. */
  function ObvCond(obv: seq<real>): (r: seq<bool>)
    ensures |r| == |obv|
  {
    var m := Sma(Lift(obv), 20);
    seq(|obv|, i requires 0 <= i < |obv| => Gt(Some(obv[i]), m[i]))
  }

  /** No OBV condition before bar 19; when it holds, some earlier bar in
      the 20-bar window had a lower OBV. */
  lemma ObvCondMeans(obv: seq<real>, i: nat)
    requires i < |obv|
    ensures ObvCond(obv)[i] ==> 19 <= i && exists j :: i - 19 <= j < i && obv[j] < obv[i]
  {
    var m := Sma(Lift(obv), 20);
    assert ObvCond(obv)[i] == Gt(Some(obv[i]), m[i]);
    if ObvCond(obv)[i] {
      RollingValue(Lift(obv), 20, i, Mean);
      var vs := Values(Window(Lift(obv), 20, i));
      MeanBelowSome(vs, obv[i]);
      var k :| 0 <= k < 20 && vs[k] < obv[i];
      assert vs[k] == obv[i - 19 + k];
      assert k != 19;
    }
  }

  // ----- Counting the conditions -----

  /** The five conditions on one bar. */
  datatype Conditions = Conditions(utBuy: bool, macd: bool, stoch: bool, adx: bool, obv: bool)

  function Flags(c: Conditions): seq<bool> {
    [c.utBuy, c.macd, c.stoch, c.adx, c.obv]
  }

  function AsInt(b: bool): nat {
    if b then 1 else 0
  }

  /** `ut_buy.astype(int) + macd_cond.astype(int) + ...`: the number of
      conditions that hold. */
  function Count(c: Conditions): (n: nat)
    ensures n <= 5
    ensures n == 0 <==> !c.utBuy && !c.macd && !c.stoch && !c.adx && !c.obv
    ensures n == 5 <==> c.utBuy && c.macd && c.stoch && c.adx && c.obv
  {
    AsInt(c.utBuy) + AsInt(c.macd) + AsInt(c.stoch) + AsInt(c.adx) + AsInt(c.obv)
  }

  /** The number of `true` entries, counted one by one. */
  function CountTrue(flags: seq<bool>): (n: nat)
    ensures n <= |flags|
  {
    if |flags| == 0 then 0 else AsInt(flags[0]) + CountTrue(flags[1..])
  }

  lemma {:induction false} CountTrueIsMultiplicity(flags: seq<bool>)
    ensures CountTrue(flags) == multiset(flags)[true]
  {
    if |flags| > 0 {
      CountTrueIsMultiplicity(flags[1..]);
      assert flags == [flags[0]] + flags[1..];
      assert multiset(flags) == multiset{flags[0]} + multiset(flags[1..]);
    }
  }

  /** The sum of the five indicator ints is the number of `true` flags,
      counted one by one (and so the multiplicity of `true` among them). */
  lemma CountIsCountTrue(c: Conditions)
    ensures Count(c) == CountTrue(Flags(c))
  {
    var f := Flags(c);
    assert CountTrue(f[4..]) == AsInt(c.obv) by {
      assert f[4..][1..] == [];
    }
    assert CountTrue(f[3..]) == AsInt(c.adx) + CountTrue(f[4..]) by {
      assert f[3..][1..] == f[4..];
    }
    assert CountTrue(f[2..]) == AsInt(c.stoch) + CountTrue(f[3..]) by {
      assert f[2..][1..] == f[3..];
    }
    assert CountTrue(f[1..]) == AsInt(c.macd) + CountTrue(f[2..]) by {
      assert f[1..][1..] == f[2..];
    }
  }

  /** The conditions on bar `i`, given the stop and OBV series. */
  function ConditionsFrom(bars: seq<Bar>, trail: seq<real>, obv: seq<real>, i: nat): Conditions
    requires |trail| == |bars| && |obv| == |bars| && i < |bars|
  {
    Conditions(
      UtBuy(bars, trail)[i],
      MacdCond(Closes(bars))[i],
      StochCond(bars)[i],
      AdxCond(bars)[i],
      ObvCond(obv)[i])
  }

  function ConditionsAt(bars: seq<Bar>, i: nat): Conditions
    requires i < |bars|
  {
    ConditionsFrom(bars, ScorerTrail(bars), ObvSeries(bars), i)
  }

  /** `count.iloc[-1]`: the number of conditions on the last bar. */
  function Score(bars: seq<Bar>): (n: nat)
    requires |bars| > 0
    ensures n <= 5
  {
    Count(ConditionsAt(bars, |bars| - 1))
  }

  /** The series computations of `calculate_indicators` up to
      `count.iloc[-1]`, with the stop loop and the OBV writes run in place. */
  method LastCount(bars: seq<Bar>) returns (count: nat)
    requires |bars| > 0
    ensures count == Score(bars)
    ensures count <= 5
  {
    var lower := LowerBand(bars);
    var upper := UpperBand(bars);
    var trail := TrailLoop(Closes(bars), lower, upper);
    assert trail == ScorerTrail(bars);
    var obv := Obv(bars);
    count := Count(ConditionsFrom(bars, trail, obv, |bars| - 1));
  }
}
