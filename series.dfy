/** Price bars and the pandas Series operations the indicators are built
    from: column extraction, `shift`, `diff`, row-wise `max(axis=1)` and
    trailing `rolling(n)` windows. */
module Series {
  import opened Nan

  /** One daily OHLCV bar. Bars reach the core validated, so no field is NaN. */
  datatype Bar = Bar(open: real, high: real, low: real, close: real, volume: real)

  function Closes(bars: seq<Bar>): (r: seq<real>)
    ensures |r| == |bars|
    ensures forall i :: 0 <= i < |bars| ==> r[i] == bars[i].close
  {
    seq(|bars|, i requires 0 <= i < |bars| => bars[i].close)
  }

  function Highs(bars: seq<Bar>): (r: seq<real>)
    ensures |r| == |bars|
    ensures forall i :: 0 <= i < |bars| ==> r[i] == bars[i].high
  {
    seq(|bars|, i requires 0 <= i < |bars| => bars[i].high)
  }

  function Lows(bars: seq<Bar>): (r: seq<real>)
    ensures |r| == |bars|
    ensures forall i :: 0 <= i < |bars| ==> r[i] == bars[i].low
  {
    seq(|bars|, i requires 0 <= i < |bars| => bars[i].low)
  }

  function Volumes(bars: seq<Bar>): (r: seq<real>)
    ensures |r| == |bars|
    ensures forall i :: 0 <= i < |bars| ==> r[i] == bars[i].volume
  {
    seq(|bars|, i requires 0 <= i < |bars| => bars[i].volume)
  }

  /** A NaN-free column as a float Series. */
  function Lift(xs: seq<real>): (r: seq<Num>)
    ensures |r| == |xs|
    ensures forall i :: 0 <= i < |xs| ==> r[i] == Some(xs[i])
  {
    seq(|xs|, i requires 0 <= i < |xs| => Some(xs[i]))
  }

  /** `s.shift()`: each entry moves one bar later and bar 0 becomes NaN. */
  function Shift(xs: seq<real>): (r: seq<Num>)
    ensures |r| == |xs|
    ensures |xs| > 0 ==> r[0].None?
    ensures forall i :: 0 < i < |xs| ==> r[i] == Some(xs[i - 1])
  {
    seq(|xs|, i requires 0 <= i < |xs| => if i == 0 then None else Some(xs[i - 1]))
  }

  /** `s.diff()`: the change from the previous bar; NaN at bar 0. */
  function Diff(xs: seq<real>): (r: seq<Num>)
    ensures |r| == |xs|
    ensures |xs| > 0 ==> r[0].None?
    ensures forall i :: 0 < i < |xs| ==> r[i] == Some(xs[i] - xs[i - 1])
  {
    seq(|xs|, i requires 0 <= i < |xs| => if i == 0 then None else Some(xs[i] - xs[i - 1]))
  }

  /** `s.abs()` entry by entry. */
  function AbsAll(s: seq<Num>): (r: seq<Num>)
    ensures |r| == |s|
    ensures forall i :: 0 <= i < |s| ==> r[i] == Abs(s[i])
  {
    seq(|s|, i requires 0 <= i < |s| => Abs(s[i]))
  }

  /** `DataFrame.max(axis=1)` on one row: the largest entry, skipping NaN;
      NaN when every entry is NaN. */
  function RowMax(row: seq<Num>): (r: Num)
    ensures r.Some? <==> exists j :: 0 <= j < |row| && row[j].Some?
    ensures r.Some? ==> forall j :: 0 <= j < |row| && row[j].Some? ==> row[j].value <= r.value
    ensures r.Some? ==> exists j :: 0 <= j < |row| && row[j] == r
  {
    if |row| == 0 then None
    else
      var rest := RowMax(row[1..]);
      assert forall j :: 1 <= j < |row| ==> row[j] == row[1..][j - 1];
      if row[0].None? then rest
      else if rest.Some? && rest.value > row[0].value then rest
      else row[0]
  }

  // ----- Trailing windows -----

  /** The statistic a `rolling(n)` window computes. */
  datatype Aggregate = Mean | Min | Max | Total

  function Sum(vs: seq<real>): real {
    if |vs| == 0 then 0.0 else vs[0] + Sum(vs[1..])
  }

  function Minimum(vs: seq<real>): real
    requires |vs| > 0
  {
    if |vs| == 1 then vs[0] else MinReal(vs[0], Minimum(vs[1..]))
  }

  function Maximum(vs: seq<real>): real
    requires |vs| > 0
  {
    if |vs| == 1 then vs[0] else MaxReal(vs[0], Maximum(vs[1..]))
  }

  function Apply(agg: Aggregate, vs: seq<real>): real
    requires |vs| > 0
  {
    match agg
    case Mean => Sum(vs) / (|vs| as real)
    case Min => Minimum(vs)
    case Max => Maximum(vs)
    case Total => Sum(vs)
  }

  /** No entry of the window is NaN. */
  predicate Defined(w: seq<Num>) {
    forall j :: 0 <= j < |w| ==> w[j].Some?
  }

  function Values(w: seq<Num>): (vs: seq<real>)
    requires Defined(w)
    ensures |vs| == |w|
    ensures forall j :: 0 <= j < |w| ==> vs[j] == w[j].value
  {
    seq(|w|, j requires 0 <= j < |w| => w[j].value)
  }

  /** The `n` entries ending at bar `i`. */
  function Window(s: seq<Num>, n: nat, i: nat): (w: seq<Num>)
    requires 1 <= n <= i + 1 <= |s|
    ensures |w| == n
    ensures forall j :: 0 <= j < n ==> w[j] == s[i + 1 - n + j]
  {
    s[i + 1 - n .. i + 1]
  }

  /** One entry of `s.rolling(n).agg()`. With pandas' default
      `min_periods = n`, a window that is short or holds a NaN gives NaN. */
  function RollingAt(s: seq<Num>, n: nat, i: nat, agg: Aggregate): Num
    requires n >= 1 && i < |s|
  {
    if i + 1 < n then None
    else
      var w := Window(s, n, i);
      if Defined(w) then Some(Apply(agg, Values(w))) else None
  }

  /** `s.rolling(n).agg()`: defined exactly where the last `n` entries exist
      and none of them is NaN. */
  function Rolling(s: seq<Num>, n: nat, agg: Aggregate): (r: seq<Num>)
    requires n >= 1
    ensures |r| == |s|
    ensures forall i :: 0 <= i < |s| ==> r[i] == RollingAt(s, n, i, agg)
    ensures forall i :: 0 <= i < |s| ==>
      (r[i].Some? <==> n <= i + 1 && forall j :: i + 1 - n <= j <= i ==> s[j].Some?)
  {
    var r := seq(|s|, i requires 0 <= i < |s| => RollingAt(s, n, i, agg));
    assert forall i :: 0 <= i < |s| ==>
      (r[i].Some? <==> n <= i + 1 && forall j :: i + 1 - n <= j <= i ==> s[j].Some?) by {
      forall i | 0 <= i < |s|
        ensures r[i].Some? <==> n <= i + 1 && forall j :: i + 1 - n <= j <= i ==> s[j].Some?
      {
        if n <= i + 1 {
          var w := Window(s, n, i);
          assert Defined(w) <==> forall j :: i + 1 - n <= j <= i ==> s[j].Some? by {
            if Defined(w) {
              forall j | i + 1 - n <= j <= i ensures s[j].Some? {
                assert w[j - (i + 1 - n)] == s[j];
              }
            }
          }
        }
      }
    }
    r
  }

  /** The values of the window a defined rolling entry was computed from. */
  lemma RollingValue(s: seq<Num>, n: nat, i: nat, agg: Aggregate)
    requires n >= 1 && i < |s|
    requires Rolling(s, n, agg)[i].Some?
    ensures n <= i + 1 && Defined(Window(s, n, i))
    ensures Rolling(s, n, agg)[i].value == Apply(agg, Values(Window(s, n, i)))
  {
  }

  // ----- Facts about sums, means and extrema -----

  lemma {:induction false} SumBounds(vs: seq<real>, lo: real, hi: real)
    requires forall j :: 0 <= j < |vs| ==> lo <= vs[j] <= hi
    ensures (|vs| as real) * lo <= Sum(vs) <= (|vs| as real) * hi
  {
    if |vs| > 0 {
      SumBounds(vs[1..], lo, hi);
    }
  }

  /** The mean of values in `[lo, hi]` lies in `[lo, hi]`. */
  lemma MeanBounds(vs: seq<real>, lo: real, hi: real)
    requires |vs| > 0
    requires forall j :: 0 <= j < |vs| ==> lo <= vs[j] <= hi
    ensures lo <= Sum(vs) / (|vs| as real) <= hi
  {
    SumBounds(vs, lo, hi);
    QuotientBounds(Sum(vs), |vs| as real, lo, hi);
  }

  lemma QuotientBounds(s: real, n: real, lo: real, hi: real)
    requires n > 0.0 && n * lo <= s <= n * hi
    ensures lo <= s / n <= hi
  {
    var q := s / n;
    assert q * n == s;
    assert (q - lo) * n >= 0.0;
    assert (hi - q) * n >= 0.0;
  }

  lemma {:induction false} SumNonNegative(vs: seq<real>)
    requires forall j :: 0 <= j < |vs| ==> vs[j] >= 0.0
    ensures Sum(vs) >= 0.0
  {
    if |vs| > 0 {
      SumNonNegative(vs[1..]);
    }
  }

  /** A sum of nonnegative values is positive as soon as one of them is. */
  lemma {:induction false} SumPositive(vs: seq<real>, k: nat)
    requires forall j :: 0 <= j < |vs| ==> vs[j] >= 0.0
    requires k < |vs| && vs[k] > 0.0
    ensures Sum(vs) > 0.0
  {
    if k == 0 {
      SumNonNegative(vs[1..]);
    } else {
      SumPositive(vs[1..], k - 1);
    }
  }

  /** A sum of nonnegative values is zero only when every value is zero. */
  lemma {:induction false} SumZero(vs: seq<real>, k: nat)
    requires forall j :: 0 <= j < |vs| ==> vs[j] >= 0.0
    requires Sum(vs) == 0.0 && k < |vs|
    ensures vs[k] == 0.0
  {
    if vs[k] != 0.0 {
      SumPositive(vs, k);
    }
  }

  lemma {:induction false} SumConstant(vs: seq<real>, c: real)
    requires forall j :: 0 <= j < |vs| ==> vs[j] == c
    ensures Sum(vs) == (|vs| as real) * c
  {
    if |vs| > 0 {
      SumConstant(vs[1..], c);
    }
  }

  lemma {:induction false} MinimumLe(vs: seq<real>, k: nat)
    requires k < |vs|
    ensures Minimum(vs) <= vs[k]
  {
    if k > 0 {
      MinimumLe(vs[1..], k - 1);
    }
  }

  lemma {:induction false} MaximumGe(vs: seq<real>, k: nat)
    requires k < |vs|
    ensures Maximum(vs) >= vs[k]
  {
    if k > 0 {
      MaximumGe(vs[1..], k - 1);
    }
  }

  /** A defined rolling mean of entries in `[lo, hi]` lies in `[lo, hi]`. */
  lemma RollingMeanBounds(s: seq<Num>, n: nat, i: nat, lo: real, hi: real)
    requires n >= 1 && i < |s|
    requires forall j :: 0 <= j < |s| && s[j].Some? ==> lo <= s[j].value <= hi
    requires Rolling(s, n, Mean)[i].Some?
    ensures lo <= Rolling(s, n, Mean)[i].value <= hi
  {
    RollingValue(s, n, i, Mean);
    var vs := Values(Window(s, n, i));
    forall j | 0 <= j < |vs| ensures lo <= vs[j] <= hi {
      assert vs[j] == s[i + 1 - n + j].value;
    }
    MeanBounds(vs, lo, hi);
  }

  /** A defined rolling sum over a window of nonnegative entries is nonnegative. */
  lemma RollingTotalNonNegative(s: seq<Num>, n: nat, i: nat)
    requires n >= 1 && i < |s|
    requires forall j :: 0 <= j && i + 1 - n <= j <= i && s[j].Some? ==> s[j].value >= 0.0
    requires Rolling(s, n, Total)[i].Some?
    ensures Rolling(s, n, Total)[i].value >= 0.0
  {
    RollingValue(s, n, i, Total);
    var vs := Values(Window(s, n, i));
    forall j | 0 <= j < |vs| ensures vs[j] >= 0.0 {
      assert vs[j] == s[i + 1 - n + j].value;
    }
    SumNonNegative(vs);
  }

  /** A defined rolling mean over a window of nonnegative entries is nonnegative. */
  lemma RollingMeanNonNegative(s: seq<Num>, n: nat, i: nat)
    requires n >= 1 && i < |s|
    requires forall j :: 0 <= j && i + 1 - n <= j <= i && s[j].Some? ==> s[j].value >= 0.0
    requires Rolling(s, n, Mean)[i].Some?
    ensures Rolling(s, n, Mean)[i].value >= 0.0
  {
    RollingValue(s, n, i, Mean);
    var vs := Values(Window(s, n, i));
    forall j | 0 <= j < |vs| ensures vs[j] >= 0.0 {
      assert vs[j] == s[i + 1 - n + j].value;
    }
    SumNonNegative(vs);
    assert Sum(vs) / (n as real) >= 0.0;
  }

  /** A zero rolling mean over nonnegative entries has a zero last entry. */
  lemma RollingMeanZero(s: seq<Num>, n: nat, i: nat)
    requires n >= 1 && i < |s|
    requires forall j :: 0 <= j < |s| && s[j].Some? ==> s[j].value >= 0.0
    requires Rolling(s, n, Mean)[i] == Some(0.0)
    ensures s[i] == Some(0.0)
  {
    RollingValue(s, n, i, Mean);
    var vs := Values(Window(s, n, i));
    forall j | 0 <= j < n ensures vs[j] >= 0.0 {
      assert vs[j] == s[i + 1 - n + j].value;
    }
    assert Sum(vs) == 0.0;
    SumZero(vs, n - 1);
    assert vs[n - 1] == s[i].value;
  }

  /** A rolling mean over a window of one repeated value is that value. */
  lemma RollingMeanConstant(s: seq<Num>, n: nat, i: nat, c: real)
    requires n >= 1 && n <= i + 1 <= |s|
    requires forall j :: i + 1 - n <= j <= i ==> s[j] == Some(c)
    ensures Rolling(s, n, Mean)[i] == Some(c)
  {
    var w := Window(s, n, i);
    assert Defined(w) by {
      forall j | 0 <= j < |w| ensures w[j].Some? {
        assert w[j] == s[i + 1 - n + j];
      }
    }
    var vs := Values(w);
    forall j | 0 <= j < |vs| ensures vs[j] == c {
      assert vs[j] == s[i + 1 - n + j].value;
    }
    SumConstant(vs, c);
    assert Sum(vs) / (n as real) == c;
    assert Rolling(s, n, Mean)[i] == RollingAt(s, n, i, Mean);
  }

  /** The mean of nonnegative values is positive when one of them is. */
  lemma MeanPositive(vs: seq<real>, k: nat)
    requires forall j :: 0 <= j < |vs| ==> vs[j] >= 0.0
    requires k < |vs| && vs[k] > 0.0
    ensures Apply(Mean, vs) > 0.0
  {
    SumPositive(vs, k);
    var n := |vs| as real;
    var q := Sum(vs) / n;
    assert q * n == Sum(vs);
  }

  /** The mean of zeros is zero. */
  lemma MeanOfZeros(vs: seq<real>)
    requires |vs| > 0
    requires forall j :: 0 <= j < |vs| ==> vs[j] == 0.0
    ensures Apply(Mean, vs) == 0.0
  {
    SumConstant(vs, 0.0);
  }

  /** A quotient of a nonnegative value by a positive one is nonnegative. */
  lemma QuotientNonNegative(a: real, b: real)
    requires a >= 0.0 && b > 0.0
    ensures a / b >= 0.0
  {
    assert (a / b) * b == a;
  }

  /** An entry above the 3-bar rolling mean that covers it is above one of
      the two entries before it. */
  lemma AboveMeanOfThree(s: seq<Num>, i: nat)
    requires i < |s|
    requires Gt(s[i], Rolling(s, 3, Mean)[i])
    ensures 2 <= i && s[i - 2].Some? && s[i - 1].Some?
    ensures s[i].value > s[i - 1].value || s[i].value > s[i - 2].value
  {
    RollingValue(s, 3, i, Mean);
    var vs := Values(Window(s, 3, i));
    assert vs[0] == s[i - 2].value && vs[1] == s[i - 1].value && vs[2] == s[i].value;
    SumThree(vs);
  }

  lemma SumTwo(vs: seq<real>)
    requires |vs| == 2
    ensures Sum(vs) == vs[0] + vs[1]
  {
    assert vs[1..][1..] == [];
    assert Sum(vs[1..]) == vs[1];
  }

  lemma SumThree(vs: seq<real>)
    requires |vs| == 3
    ensures Sum(vs) == vs[0] + vs[1] + vs[2]
  {
    assert vs[1..][1..][1..] == [];
    assert Sum(vs[1..][1..]) == vs[2];
    assert Sum(vs[1..]) == vs[1] + vs[2];
  }

  lemma {:induction false} SumAtLeast(vs: seq<real>, lo: real)
    requires forall j :: 0 <= j < |vs| ==> vs[j] >= lo
    ensures Sum(vs) >= (|vs| as real) * lo
  {
    if |vs| > 0 {
      SumAtLeast(vs[1..], lo);
    }
  }

  lemma {:induction false} MinimumIsMember(vs: seq<real>)
    requires |vs| > 0
    ensures exists k :: 0 <= k < |vs| && vs[k] == Minimum(vs)
  {
    if |vs| == 1 {
      assert vs[0] == Minimum(vs);
    } else {
      MinimumIsMember(vs[1..]);
      var k :| 0 <= k < |vs| - 1 && vs[1..][k] == Minimum(vs[1..]);
      assert vs[k + 1] == Minimum(vs[1..]);
      assert Minimum(vs) == vs[0] || Minimum(vs) == vs[k + 1];
    }
  }

  /** Values whose mean is below `x` include one below `x`. */
  lemma MeanBelowSome(vs: seq<real>, x: real)
    requires |vs| > 0 && Sum(vs) / (|vs| as real) < x
    ensures exists k :: 0 <= k < |vs| && vs[k] < x
  {
    var lo := Minimum(vs);
    forall j | 0 <= j < |vs| ensures vs[j] >= lo {
      MinimumLe(vs, j);
    }
    SumAtLeast(vs, lo);
    QuotientAtLeast(Sum(vs), |vs| as real, lo);
    MinimumIsMember(vs);
  }

  lemma QuotientAtLeast(s: real, n: real, lo: real)
    requires n > 0.0 && s >= n * lo
    ensures s / n >= lo
  {
    var q := s / n;
    assert q * n == s;
    assert (q - lo) * n >= 0.0;
  }
}
