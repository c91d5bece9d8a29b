/** The asynchronous scanner (`streamlit_polygon_sp500.py`): every ticker
    with enough data gets its number of fulfilled conditions, and the table
    shows the tickers that reach the slider's minimum. */
module AsyncScanner {
  import opened Nan
  import opened Series
  import opened Scoring
  import CorrectedScanner

  /** The number of conditions `calculate_indicators` reports, or `None`
      for a missing frame or one shorter than 200 rows. */
  function ScoreOf(df: Option<seq<Bar>>): (r: Option<nat>)
    ensures r.None? <==> df.None? || |df.value| < 200
    ensures r.Some? ==> r.value <= 5
  {
    if df.None? || |df.value| < 200 then None else Some(Score(df.value))
  }

  /** `calculate_indicators(df)`: the count on the last bar, or `None`. */
  method CalculateIndicators(df: Option<seq<Bar>>) returns (score: Option<nat>)
    ensures score == ScoreOf(df)
    ensures score.None? <==> df.None? || |df.value| < 200
    ensures score.Some? ==> score.value <= 5
  {
    if df.None? || |df.value| == 0 || |df.value| < 200 {
      return None;
    }
    var count := LastCount(df.value);
    score := Some(count);
  }

  /** The two modelled scanners score alike: the corrected one keeps a
      frame exactly when this one reports a score of at least the threshold.
      This rests on modelling both with the `np.where` movements of
      streamlit_polygon_sp500_corrected.py:70-71 and the bar-by-bar division
      of streamlit_polygon_sp500.py:72-73. The code as written differs at
      both places. */
  lemma ScannersAgree(df: Option<seq<Bar>>, minIndicators: int)
    ensures CorrectedScanner.Keeps(df, minIndicators) <==>
      ScoreOf(df).Some? && ScoreOf(df).value >= minIndicators
  {
  }

  /** One fetched ticker: its symbol and its frame (`None` on a failed request). */
  datatype Response = Response(ticker: string, df: Option<seq<Bar>>)

  /** One row of `conditions_summary`. */
  datatype SummaryRow = SummaryRow(ticker: string, conditions: nat)

  function Tickers(responses: seq<Response>): (r: seq<string>)
    ensures |r| == |responses|
  {
    seq(|responses|, k requires 0 <= k < |responses| => responses[k].ticker)
  }

  /** What `calculate_indicators` returns for each response. */
  function Scores(responses: seq<Response>): (r: seq<Option<nat>>)
    ensures |r| == |responses|
  {
    seq(|responses|, k requires 0 <= k < |responses| => ScoreOf(responses[k].df))
  }

  /** The rows `main` appends, in order: one per ticker whose score is not `None`. */
  function Rows(tickers: seq<string>, scores: seq<Option<nat>>): (rows: seq<SummaryRow>)
    requires |tickers| == |scores|
    ensures |rows| <= |tickers|
  {
    if |tickers| == 0 then []
    else
      var n := |tickers| - 1;
      Rows(tickers[..n], scores[..n]) +
        (if scores[n].Some? then [SummaryRow(tickers[n], scores[n].value)] else [])
  }

  /** `conditions_summary` as `main` returns it. */
  function Summary(responses: seq<Response>): seq<SummaryRow> {
    Rows(Tickers(responses), Scores(responses))
  }

  /** The loop of `main` over the gathered responses. */
  method CollectSummary(responses: seq<Response>) returns (rows: seq<SummaryRow>)
    ensures rows == Summary(responses)
  {
    ghost var tickers, scores := Tickers(responses), Scores(responses);
    rows := [];
    for k := 0 to |responses|
      invariant rows == Rows(tickers[..k], scores[..k])
    {
      var result := CalculateIndicators(responses[k].df);
      assert result == scores[k];
      RowsStep(tickers, scores, k);
      if result.Some? {
        rows := rows + [SummaryRow(responses[k].ticker, result.value)];
      }
    }
    PrefixWhole(tickers);
    PrefixWhole(scores);
  }

  /** One more response adds its row, if any, at the end. */
  lemma RowsStep(tickers: seq<string>, scores: seq<Option<nat>>, k: nat)
    requires |tickers| == |scores| && k < |tickers|
    ensures Rows(tickers[..k + 1], scores[..k + 1]) == Rows(tickers[..k], scores[..k]) +
      (if scores[k].Some? then [SummaryRow(tickers[k], scores[k].value)] else [])
  {
    PrefixOfPrefix(tickers, k);
    PrefixOfPrefix(scores, k);
  }

  lemma PrefixOfPrefix<T>(s: seq<T>, k: nat)
    requires k < |s|
    ensures s[..k + 1][..k] == s[..k]
  {
  }

  lemma PrefixWhole<T>(s: seq<T>)
    ensures s[..|s|] == s
  {
  }

  /** A row is in the summary exactly when some ticker had that name and
      that score (a score of `None` adds no row). */
  lemma {:induction false} RowsMembers(tickers: seq<string>, scores: seq<Option<nat>>, row: SummaryRow)
    requires |tickers| == |scores|
    ensures row in Rows(tickers, scores) <==>
      exists k :: 0 <= k < |tickers| && tickers[k] == row.ticker && scores[k] == Some(row.conditions)
  {
    if |tickers| > 0 {
      var n := |tickers| - 1;
      RowsMembers(tickers[..n], scores[..n], row);
      assert forall k :: 0 <= k < n ==> tickers[..n][k] == tickers[k] && scores[..n][k] == scores[k];
    }
  }

  /** The same over the responses: a row is in `conditions_summary` exactly
      when some response carries its ticker and scores its count. */
  lemma SummaryMembers(responses: seq<Response>, row: SummaryRow)
    ensures row in Summary(responses) <==>
      exists k :: 0 <= k < |responses| && responses[k].ticker == row.ticker &&
        ScoreOf(responses[k].df) == Some(row.conditions)
  {
    var tickers, scores := Tickers(responses), Scores(responses);
    RowsMembers(tickers, scores, row);
    assert forall k :: 0 <= k < |responses| ==>
      tickers[k] == responses[k].ticker && scores[k] == ScoreOf(responses[k].df);
  }

  /** Every summary row reports at most five conditions. */
  lemma {:induction false} RowsBounded(tickers: seq<string>, scores: seq<Option<nat>>, bound: nat)
    requires |tickers| == |scores|
    requires forall k :: 0 <= k < |scores| && scores[k].Some? ==> scores[k].value <= bound
    ensures forall x :: x in Rows(tickers, scores) ==> x.conditions <= bound
  {
    if |tickers| > 0 {
      var n := |tickers| - 1;
      RowsBounded(tickers[..n], scores[..n], bound);
    }
  }

  lemma SummaryBounded(responses: seq<Response>)
    ensures forall x :: x in Summary(responses) ==> x.conditions <= 5
  {
    var scores := Scores(responses);
    forall k | 0 <= k < |scores| && scores[k].Some? ensures scores[k].value <= 5 {
      assert scores[k] == ScoreOf(responses[k].df);
    }
    RowsBounded(Tickers(responses), scores, 5);
  }

  /** `df_summary[df_summary["Conditions Remplies"] >= min_conditions]`:
      the rows that reach the minimum, in their order. */
  function Visible(rows: seq<SummaryRow>, minConditions: int): (r: seq<SummaryRow>)
    ensures |r| <= |rows|
    ensures forall x :: x in r <==> x in rows && x.conditions >= minConditions
  {
    if |rows| == 0 then []
    else
      var rest := Visible(rows[1..], minConditions);
      assert forall x :: x in rows <==> x == rows[0] || x in rows[1..];
      if rows[0].conditions >= minConditions then [rows[0]] + rest else rest
  }

  /** The mask keeps every copy of a row that reaches the minimum and no
      copy of one that does not. */
  lemma {:induction false} VisibleMultiset(rows: seq<SummaryRow>, minConditions: int)
    ensures forall x :: multiset(Visible(rows, minConditions))[x] ==
                        (if x.conditions >= minConditions then multiset(rows)[x] else 0)
  {
    if |rows| > 0 {
      VisibleMultiset(rows[1..], minConditions);
      assert rows == [rows[0]] + rows[1..];
    }
  }

  /** No row is shown when every row is below the minimum. */
  lemma {:induction false} VisibleNone(rows: seq<SummaryRow>, minConditions: int)
    requires forall x :: x in rows ==> x.conditions < minConditions
    ensures Visible(rows, minConditions) == []
  {
    if |rows| > 0 {
      VisibleNone(rows[1..], minConditions);
    }
  }

  /** No score exceeds 5, so a minimum above 5 shows an empty table. */
  lemma VisibleAboveFive(responses: seq<Response>, minConditions: int)
    requires minConditions > 5
    ensures Visible(Summary(responses), minConditions) == []
  {
    SummaryBounded(responses);
    VisibleNone(Summary(responses), minConditions);
  }
}
