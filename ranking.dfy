/**
 * The overview ranking of `display_trends_section` (utils/trends.py:156,
 * 163-167): the last row of the trends table, reindexed by the keywords with
 * missing scores as 0, sorted from the highest score down, and numbered
 * from 1.
 */
module Ranking {
  import opened Frames
  import opened Planning
  import opened Merging
  import opened Trends

  type Entry = (string, real)

  /** One row of `ranking_df`: rank, title, score. */
  datatype Row = Row(rank: nat, title: string, score: real)

  /** `fillna(0)` on one cell. */
  function Score(c: Cell): real {
    if c.Num? then c.v else 0.0
  }

  /** The latest score of column `k`: its last cell, or 0 when `k` is not a column. */
  function LastRowScore(t: Table, k: string): real
    requires t.rows > 0
  {
    if k in t.data then Score(t.data[k][t.rows - 1]) else 0.0
  }

  /** `trends_data.iloc[-1].reindex(keywords).fillna(0)`: one entry per keyword, in keyword order. */
  function LatestScores(t: Table, keywords: seq<string>): (r: seq<Entry>)
    requires t.rows > 0
    ensures |r| == |keywords|
    ensures forall i :: 0 <= i < |r| ==> r[i] == (keywords[i], LastRowScore(t, keywords[i]))
  {
    seq(|keywords|, i requires 0 <= i < |keywords| => (keywords[i], LastRowScore(t, keywords[i])))
  }

  predicate SortedDesc(s: seq<Entry>) {
    forall i, j :: 0 <= i < j < |s| ==> s[i].1 >= s[j].1
  }

  /** Every entry of `s` scores at most `bound`. */
  predicate AtMost(s: seq<Entry>, bound: real) {
    forall i :: 0 <= i < |s| ==> s[i].1 <= bound
  }

  function Titles(s: seq<Entry>): (r: seq<string>)
    ensures |r| == |s|
  {
    if s == [] then [] else [s[0].0] + Titles(s[1..])
  }

  /** `x` placed before the first entry of `s` that scores no more than it. */
  function Insert(x: Entry, s: seq<Entry>): seq<Entry> {
    if s == [] || x.1 >= s[0].1 then [x] + s else [s[0]] + Insert(x, s[1..])
  }

  /** `sort_values(ascending=False)`, as an insertion sort. */
  function SortDesc(s: seq<Entry>): seq<Entry> {
    if s == [] then [] else Insert(s[0], SortDesc(s[1..]))
  }

  /** `ranking_df`: the sorted entries numbered 1, 2, .... */
  function Ranking(t: Table, keywords: seq<string>): seq<Row>
    requires t.rows > 0
  {
    var sorted := SortDesc(LatestScores(t, keywords));
    seq(|sorted|, i requires 0 <= i < |sorted| => Row(i + 1, sorted[i].0, sorted[i].1))
  }

  // ---------------------------------------------------------------------------
  // The sort.
  // ---------------------------------------------------------------------------

  lemma {:induction false} InsertPermutes(x: Entry, s: seq<Entry>)
    ensures multiset(Insert(x, s)) == multiset(s) + multiset{x}
  {
    if s != [] && x.1 < s[0].1 {
      InsertPermutes(x, s[1..]);
      assert s == [s[0]] + s[1..];
    }
  }

  lemma {:induction false} InsertKeepsTitles(x: Entry, s: seq<Entry>)
    ensures multiset(Titles(Insert(x, s))) == multiset(Titles(s)) + multiset{x.0}
  {
    if s == [] || x.1 >= s[0].1 {
      assert ([x] + s)[1..] == s;
    } else {
      InsertKeepsTitles(x, s[1..]);
      var r := Insert(x, s[1..]);
      assert ([s[0]] + r)[1..] == r;
    }
  }

  lemma {:induction false} InsertBounded(x: Entry, s: seq<Entry>, bound: real)
    requires AtMost(s, bound) && x.1 <= bound
    ensures AtMost(Insert(x, s), bound)
  {
    if s != [] && x.1 < s[0].1 {
      InsertBounded(x, s[1..], bound);
      var r := Insert(x, s[1..]);
      assert Insert(x, s) == [s[0]] + r;
    }
  }

  lemma {:induction false} InsertSorted(x: Entry, s: seq<Entry>)
    requires SortedDesc(s)
    ensures SortedDesc(Insert(x, s))
  {
    if s != [] && x.1 < s[0].1 {
      InsertSorted(x, s[1..]);
      InsertBounded(x, s[1..], s[0].1);
      var r := Insert(x, s[1..]);
      assert Insert(x, s) == [s[0]] + r;
    }
  }

  /** The sort puts the entries in non-increasing score order. */
  lemma {:induction false} SortDescSorted(s: seq<Entry>)
    ensures SortedDesc(SortDesc(s))
  {
    if s != [] {
      SortDescSorted(s[1..]);
      InsertSorted(s[0], SortDesc(s[1..]));
    }
  }

  /** The sort keeps every entry, as often as it occurs. */
  lemma {:induction false} SortDescPermutes(s: seq<Entry>)
    ensures multiset(SortDesc(s)) == multiset(s)
  {
    if s != [] {
      SortDescPermutes(s[1..]);
      InsertPermutes(s[0], SortDesc(s[1..]));
      assert s == [s[0]] + s[1..];
    }
  }

  /** The sort keeps every title, as often as it occurs. */
  lemma {:induction false} SortDescKeepsTitles(s: seq<Entry>)
    ensures multiset(Titles(SortDesc(s))) == multiset(Titles(s))
  {
    if s != [] {
      SortDescKeepsTitles(s[1..]);
      InsertKeepsTitles(s[0], SortDesc(s[1..]));
    }
  }

  lemma {:induction false} TitlesOfLatest(t: Table, keywords: seq<string>)
    requires t.rows > 0
    ensures Titles(LatestScores(t, keywords)) == keywords
  {
    if keywords != [] {
      TitlesOfLatest(t, keywords[1..]);
      assert LatestScores(t, keywords)[1..] == LatestScores(t, keywords[1..]);
    }
  }

  // ---------------------------------------------------------------------------
  // The ranking.
  // ---------------------------------------------------------------------------

  /**
   * The ranking has one row per keyword (titles as a multiset are the
   * keywords), ranks 1..n, scores that never increase down the table, and
   * each row's score is its title's latest score, 0 when the table has no
   * such column.
   */
  lemma RankingCorrect(t: Table, keywords: seq<string>)
    requires t.rows > 0
    ensures var r := Ranking(t, keywords);
            && |r| == |keywords|
            && (forall i :: 0 <= i < |r| ==> r[i].rank == i + 1)
            && (forall i, j :: 0 <= i < j < |r| ==> r[i].score >= r[j].score)
            && multiset(seq(|r|, i requires 0 <= i < |r| => r[i].title)) == multiset(keywords)
            && (forall i :: 0 <= i < |r| ==> r[i].score == LastRowScore(t, r[i].title))
            && (forall i :: 0 <= i < |r| && r[i].title !in t.data ==> r[i].score == 0.0)
  {
    var latest := LatestScores(t, keywords);
    var sorted := SortDesc(latest);
    var r := Ranking(t, keywords);
    SortDescSorted(latest);
    SortDescPermutes(latest);
    SortDescKeepsTitles(latest);
    TitlesOfLatest(t, keywords);
    assert |sorted| == |latest| by {
      assert |multiset(sorted)| == |multiset(latest)|;
    }
    TitlesIndexed(sorted);
    assert seq(|r|, i requires 0 <= i < |r| => r[i].title) == Titles(sorted);
    forall i | 0 <= i < |r| ensures r[i].score == LastRowScore(t, r[i].title) {
      assert sorted[i] in multiset(latest);
      var j :| 0 <= j < |latest| && latest[j] == sorted[i];
    }
  }

  lemma {:induction false} TitlesIndexed(s: seq<Entry>)
    ensures forall i :: 0 <= i < |s| ==> Titles(s)[i] == s[i].0
  {
    if s != [] {
      TitlesIndexed(s[1..]);
    }
  }

  /** Whenever the fetcher returns a table, it has a last row to rank. */
  lemma ResultHasRows(keywords: seq<string>, fetch: Oracle)
    requires |keywords| > MaxPerBatch ==> Distinct(keywords)
    requires NetflixTrends(keywords, fetch).Some?
    ensures NetflixTrends(keywords, fetch).value.rows > 0
  {
    if |keywords| > MaxPerBatch {
      BatchedResultShape(keywords, fetch);
    }
  }
}
