/** The synchronous scanner (`streamlit_polygon_sp500_corrected.py`): a
    ticker is kept when at least `min_indicators` of the five conditions
    hold on its last bar. */
module CorrectedScanner {
  import opened Nan
  import opened Series
  import opened Scoring

  /** What `calculate_indicators` answers for a frame and a threshold. */
  predicate Keeps(df: Option<seq<Bar>>, minIndicators: int)
    ensures Keeps(df, minIndicators) ==> df.Some? && |df.value| >= 200 && minIndicators <= 5
  {
    df.Some? && |df.value| >= 200 && Score(df.value) >= minIndicators
  }

  /** `calculate_indicators(df)`. The threshold `st.session_state.min_indicators`
      is a parameter; `df.empty` means no rows, already below 200; and
      `df.dropna` removes nothing, since every field of a bar is a number. */
  method CalculateIndicators(df: Option<seq<Bar>>, minIndicators: int) returns (signal: bool)
    ensures signal == Keeps(df, minIndicators)
    ensures signal ==> df.Some? && |df.value| >= 200
  {
    if df.None? || |df.value| == 0 || |df.value| < 200 {
      return false;
    }
    var count := LastCount(df.value);
    assert Keeps(df, minIndicators) <==> count >= minIndicators;
    signal := count >= minIndicators;
  }

  /** A missing frame or one shorter than 200 rows is never kept; a
      threshold above 5 keeps nothing and one of at most 0 keeps every frame
      that is long enough. */
  lemma KeepsBounds(df: Option<seq<Bar>>, minIndicators: int)
    ensures df.None? || |df.value| < 200 ==> !Keeps(df, minIndicators)
    ensures minIndicators > 5 ==> !Keeps(df, minIndicators)
    ensures minIndicators <= 0 ==> (Keeps(df, minIndicators) <==> df.Some? && |df.value| >= 200)
  {
  }

  /** Lowering the threshold never drops a kept ticker. */
  lemma KeepsMonotone(df: Option<seq<Bar>>, lower: int, higher: int)
    requires lower <= higher && Keeps(df, higher)
    ensures Keeps(df, lower)
  {
  }
}
