/** The ordering and truncation of the search results (pump.py:406-437): the rated columns are
    coerced again and the rows sorted by match score, then re-sorted by the first identifier
    column present, and a leading percentage of them is kept for display. */
module Ranking {
  import opened Wrappers
  import opened Sorting
  import opened Seqs
  import opened Table
  import opened Frames
  import opened Columns
  import Filter

  /** The columns whose first present one decides the final order, in the order they are tried. */
  const ID_ORDER: seq<string> := [ID_LOWER, ID_UPPER, MODEL, MODEL_NO]

  function Abs(x: real): (r: real)
    ensures r >= 0.0 && (r == x || r == -x)
  {
    if x < 0.0 then -x else x
  }

  /** The `Match Score` of a row: how far its rated flow and rated head are from the request. */
  function Score(r: Row, flowLpm: real, headM: real, parse: Parser): (d: real)
    ensures d >= 0.0
    ensures d == 0.0 <==> NumberOrZero(Get(r, Q_RATED), parse) == flowLpm && NumberOrZero(Get(r, HEAD_RATED), parse) == headM
  {
    Abs(NumberOrZero(Get(r, Q_RATED), parse) - flowLpm) + Abs(NumberOrZero(Get(r, HEAD_RATED), parse) - headM)
  }

  /** Rows by ascending match score. */
  function ScoreOrder(flowLpm: real, headM: real, parse: Parser): (Row, Row) -> bool {
    (a: Row, b: Row) => Score(a, flowLpm, headM, parse) <= Score(b, flowLpm, headM, parse)
  }

  lemma ScoreOrderTotalPreorder(flowLpm: real, headM: real, parse: Parser)
    ensures TotalPreorder(ScoreOrder(flowLpm, headM, parse))
  {
  }

  /** The first of `candidates` that `columns` holds, if any. */
  function FirstPresent(candidates: seq<string>, columns: seq<string>): (c: Option<string>)
    ensures c.Some? ==> exists i :: (0 <= i < |candidates| && candidates[i] == c.value && c.value in columns
      && forall j :: 0 <= j < i ==> candidates[j] !in columns)
    ensures c.None? <==> forall j :: 0 <= j < |candidates| ==> candidates[j] !in columns
  {
    if candidates == [] then None
    else if candidates[0] in columns then Some(candidates[0])
    else
      var rest := FirstPresent(candidates[1..], columns);
      if rest.Some? then
        var i :| 0 <= i < |candidates[1..]| && candidates[1..][i] == rest.value && rest.value in columns
          && forall j :: 0 <= j < i ==> candidates[1..][j] !in columns;
        assert candidates[i + 1] == rest.value;
        rest
      else
        rest
  }

  /** The column the final sort is on: the first of `id`, `ID`, `Model`, `Model No.` present. */
  function SortColumn(columns: seq<string>): Option<string> {
    FirstPresent(ID_ORDER, columns)
  }

  /** The sort column is the one the if-elif chain of pump.py:426-433 picks. */
  lemma SortColumnCases(columns: seq<string>)
    ensures SortColumn(columns) ==
      if ID_LOWER in columns then Some(ID_LOWER)
      else if ID_UPPER in columns then Some(ID_UPPER)
      else if MODEL in columns then Some(MODEL)
      else if MODEL_NO in columns then Some(MODEL_NO)
      else None
  {
    var s1, s2, s3 := [ID_UPPER, MODEL, MODEL_NO], [MODEL, MODEL_NO], [MODEL_NO];
    assert ID_ORDER[1..] == s1 && s1[1..] == s2 && s2[1..] == s3 && s3[1..] == [];
    assert FirstPresent(s3, columns) == if MODEL_NO in columns then Some(MODEL_NO) else None;
    assert FirstPresent(s2, columns) == if MODEL in columns then Some(MODEL) else FirstPresent(s3, columns);
    assert FirstPresent(s1, columns) == if ID_UPPER in columns then Some(ID_UPPER) else FirstPresent(s2, columns);
    assert FirstPresent(ID_ORDER, columns) == if ID_LOWER in columns then Some(ID_LOWER) else FirstPresent(s1, columns);
  }

  /** The rows as the ranking's coercion of the rated columns leaves them (pump.py:411-412). */
  function Recoerced(results: seq<Row>, columns: seq<string>, parse: Parser): (r: seq<Row>)
    ensures |r| == |results|
  {
    if Q_RATED in columns && HEAD_RATED in columns then
      MapColumn(MapColumn(results, Q_RATED, Coercion(parse, true)), HEAD_RATED, Coercion(parse, true))
    else
      results
  }

  /** pump.py:409-433. The result holds the same rows (as the coercion leaves them), ordered by the
      first identifier column present, or by match score when none is. */
  method RankResults(results: seq<Row>, columns: seq<string>, flowLpm: real, headM: real, parse: Parser)
    returns (ranked: seq<Row>)
    ensures |ranked| == |results|
    ensures multiset(ranked) == multiset(Recoerced(results, columns, parse))
    ensures SortColumn(columns).Some? ==> Sorted(ranked, ColumnLe(SortColumn(columns).value))
    ensures SortColumn(columns).None? && Q_RATED in columns && HEAD_RATED in columns ==>
      Sorted(ranked, ScoreOrder(flowLpm, headM, parse))
  {
    ranked := results;
    if Q_RATED in columns && HEAD_RATED in columns {
      ranked := MapColumn(ranked, Q_RATED, Coercion(parse, true));
      ranked := MapColumn(ranked, HEAD_RATED, Coercion(parse, true));
      var byScore := ScoreOrder(flowLpm, headM, parse);
      ScoreOrderTotalPreorder(flowLpm, headM, parse);
      SortSorted(ranked, byScore);
      ranked := Sort(ranked, byScore);
    }
    assert multiset(ranked) == multiset(Recoerced(results, columns, parse));
    var key := "";
    if ID_LOWER in columns {
      key := ID_LOWER;
    } else if ID_UPPER in columns {
      key := ID_UPPER;
    } else if MODEL in columns {
      key := MODEL;
    } else if MODEL_NO in columns {
      key := MODEL_NO;
    }
    SortColumnCases(columns);
    if key != "" {
      ColumnLeTotalPreorder(key);
      SortSorted(ranked, ColumnLe(key));
      ranked := Sort(ranked, ColumnLe(key));
    }
  }

  /** The coercion changes no row whose rated cells are numbers already, as every row the filter
      keeps has them. */
  lemma RecoercedNumeric(results: seq<Row>, columns: seq<string>, parse: Parser)
    requires forall x :: x in results ==> Get(x, Q_RATED).Num? && Get(x, HEAD_RATED).Num?
    ensures Recoerced(results, columns, parse) == results
  {
    if Q_RATED in columns && HEAD_RATED in columns {
      var once := MapColumn(results, Q_RATED, Coercion(parse, true));
      forall i | 0 <= i < |results| ensures once[i] == results[i] {
        assert results[i] in results;
        assert Q_RATED in results[i];
      }
      assert once == results;
      var twice := MapColumn(once, HEAD_RATED, Coercion(parse, true));
      forall i | 0 <= i < |results| ensures twice[i] == results[i] {
        assert results[i] in results;
        assert HEAD_RATED in results[i];
      }
    }
  }

  /** The ranked rows are a permutation of the rows the search kept. */
  lemma RankedPermutesFiltered(rows: seq<Row>, st: Filter.Setting, columns: seq<string>)
    ensures multiset(Recoerced(Filter.Filtered(rows, st), columns, st.parse)) == multiset(Filter.Filtered(rows, st))
  {
    Filter.FilteredRatedNumeric(rows, st);
    RecoercedNumeric(Filter.Filtered(rows, st), columns, st.parse);
  }

  function Max(a: int, b: int): int {
    if a >= b then a else b
  }

  /** `max(1, int(n * (percent / 100)))`, with the product taken exactly. */
  function ShownCount(n: nat, percent: nat): (k: nat)
    ensures n * percent < 100 ==> k == 1
    ensures n * percent >= 100 ==> k * 100 <= n * percent < (k + 1) * 100
  {
    Max(1, n * percent / 100)
  }

  /** For a non-empty result and a slider value of 5 to 100 (pump.py:322) at least one and at most
      all rows are shown, and all of them at 100 percent. */
  lemma ShownCountBounds(n: nat, percent: nat)
    requires n >= 1 && 5 <= percent <= 100
    ensures 1 <= ShownCount(n, percent) <= n
    ensures percent == 100 ==> ShownCount(n, percent) == n
  {
    assert n * percent <= n * 100;
  }

  /** `results.head(max_to_show)`: the leading rows, all of them when there are fewer. */
  function Shown(ranked: seq<Row>, percent: nat): (shown: seq<Row>)
    ensures |shown| <= |ranked| && shown == ranked[..|shown|]
    ensures |shown| == if ShownCount(|ranked|, percent) <= |ranked| then ShownCount(|ranked|, percent) else |ranked|
  {
    var k := ShownCount(|ranked|, percent);
    if k <= |ranked| then ranked[..k] else ranked
  }

  /** On a non-empty result with the slider in range, the window has exactly `ShownCount` rows. */
  lemma ShownIsWindow(ranked: seq<Row>, percent: nat)
    requires |ranked| >= 1 && 5 <= percent <= 100
    ensures ShownCount(|ranked|, percent) <= |ranked|
    ensures Shown(ranked, percent) == ranked[..ShownCount(|ranked|, percent)]
    ensures percent == 100 ==> Shown(ranked, percent) == ranked
  {
    ShownCountBounds(|ranked|, percent);
  }
}
