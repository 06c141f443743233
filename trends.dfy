/**
 * `get_netflix_trends` as a whole (utils/trends.py:12-97): the keyword
 * default, the single-request path for at most five keywords, and for longer
 * lists the planned batches, the merge, and the finalisation that coerces
 * every cell to a number and reindexes the columns to the keyword order.
 * Any exception makes the whole fetch return `None`.
 */
module Trends {
  import opened Wrappers
  import opened Frames
  import opened Planning
  import opened Merging

  /** The titles queried when no keywords are given. */
  const DefaultKeywords: seq<string> :=
    ["Stranger Things", "Wednesday", "Squid Game", "The Crown", "Bridgerton"]

  function Resolve(keywords: Option<seq<string>>): seq<string> {
    if keywords.None? then DefaultKeywords else keywords.value
  }

  /** The single-request result: the reply minus `isPartial`, or `None` when empty or failed. */
  function SmallResult(reply: Reply): Option<Table> {
    if HasData(reply) then Some(Drop(reply.t, Partial)) else None
  }

  /**
   * Lines 84-93: no accumulated table, or an empty one, gives `None`; a
   * repeated column name makes the coercion loop raise, which also gives
   * `None`; otherwise every cell is coerced and the columns reindexed.
   */
  function Finalise(acc: Acc, keywords: seq<string>): Option<Table>
    requires Distinct(keywords)
  {
    if acc.total.None? || GridEmpty(acc.total.value) then None
    else if acc.clash then None
    else Some(Reindex(ZeroFill(acc.total.value), keywords))
  }

  /** What `get_netflix_trends(keywords)` returns for the oracle `fetch`. */
  function NetflixTrends(keywords: seq<string>, fetch: Oracle): Option<Table>
    requires |keywords| > MaxPerBatch ==> Distinct(keywords)
  {
    if |keywords| <= MaxPerBatch then SmallResult(fetch(keywords))
    else match Merge(keywords[0], Plan(keywords), fetch, |Plan(keywords)|)
      case None => None
      case Some(acc) => Finalise(acc, keywords)
  }

  // ---------------------------------------------------------------------------
  // The imperative code.
  // ---------------------------------------------------------------------------

  /**
   * Lines 89-90: every column in turn is replaced by its numeric coercion
   * with NaN filled by 0.
   */
  method CoerceNumeric(g: Grid) returns (r: Grid)
    ensures r == ZeroFill(g)
  {
    var data := g.data;
    var todo := g.data.Keys;
    while todo != {}
      invariant todo <= g.data.Keys && data.Keys == g.data.Keys
      invariant forall k :: k in g.data ==> data[k] == if k in todo then g.data[k] else ZeroNaN(g.data[k])
      decreases |todo|
    {
      var col :| col in todo;
      data := data[col := ZeroNaN(data[col])];
      todo := todo - {col};
    }
    r := Cols(g.rows, data);
  }

  /**
   * The fetcher. It returns the result and the requests it issued: one
   * request for at most five keywords; otherwise the planned batches in
   * order, stopping after the first request that raised.
   */
  method GetNetflixTrends(keywords: Option<seq<string>>, fetch: Oracle)
    returns (r: Option<Table>, issued: seq<seq<string>>)
    requires keywords.Some? && |keywords.value| > MaxPerBatch ==> Distinct(keywords.value)
    ensures |Resolve(keywords)| > MaxPerBatch ==> Distinct(Resolve(keywords))
    ensures r == NetflixTrends(Resolve(keywords), fetch)
    ensures |Resolve(keywords)| <= MaxPerBatch ==> issued == [Resolve(keywords)]
    ensures |Resolve(keywords)| > MaxPerBatch ==>
              && issued <= Plan(Resolve(keywords))
              && (r.Some? ==> issued == Plan(Resolve(keywords)))
    ensures forall b :: b in issued ==> |b| <= MaxPerBatch
  {
    var kw := if keywords.None? then DefaultKeywords else keywords.value;
    if |kw| <= 5 {
      issued := [kw];
      var reply := fetch(kw);
      if reply.Raised? || reply.NoFrame? || Empty(reply.t) {
        r := None;
      } else {
        r := Some(Drop(reply.t, Partial));
      }
      return;
    }
    var batches := PlanBatches(kw);
    var acc;
    acc, issued := MergeBatches(kw[0], batches, fetch);
    if acc.None? {
      r := None;
      return;
    }
    var total := acc.value.total;
    if total.None? || total.value.rows == 0 || total.value.data == map[] {
      r := None;
      return;
    }
    if acc.value.clash {
      r := None;
      return;
    }
    var filled := CoerceNumeric(total.value);
    r := Some(Reindex(filled, kw));
  }

  // ---------------------------------------------------------------------------
  // Properties of the result.
  // ---------------------------------------------------------------------------

  /**
   * With at most five keywords the result is the single reply with the
   * `isPartial` column dropped and nothing else changed, or `None`.
   */
  lemma SmallListIsOneReply(keywords: seq<string>, fetch: Oracle)
    requires |keywords| <= MaxPerBatch
    ensures var r := NetflixTrends(keywords, fetch);
            var reply := fetch(keywords);
            && (r.Some? <==> HasData(reply))
            && (r.Some? ==>
                  && r.value.rows == reply.t.rows
                  && r.value.names == Without(reply.t.names, Partial)
                  && (forall k :: k in r.value.data <==> k in reply.t.data && k != Partial)
                  && (forall k :: k in r.value.data ==> r.value.data[k] == reply.t.data[k])
                  && (Partial !in reply.t.names ==> r.value == reply.t))
  {
    var reply := fetch(keywords);
    if HasData(reply) && Partial !in reply.t.names {
      WithoutAbsent(reply.t.names, Partial);
      assert reply.t.data - {Partial} == reply.t.data;
    }
  }

  /** If the first batch brings no data, the result is `None` whatever the later batches return. */
  lemma FirstBatchWithoutDataGivesNone(keywords: seq<string>, fetch: Oracle)
    requires |keywords| > MaxPerBatch && Distinct(keywords)
    requires !HasData(fetch(Plan(keywords)[0]))
    ensures NetflixTrends(keywords, fetch) == None
  {
    var batches := Plan(keywords);
    if fetch(batches[0]).Raised? {
      RaiseIsFinal(keywords[0], batches, fetch, 1, |batches|);
    } else {
      NoFirstBatchNoTable(keywords[0], batches, fetch, |batches|);
    }
  }

  /**
   * A finalised table has exactly the columns `keywords`, in order, at least
   * one row, and only numbers: an accumulated column with NaN replaced by 0,
   * or all zeros for a keyword the accumulated table lacks.
   */
  lemma FinaliseShape(acc: Acc, keywords: seq<string>)
    requires Distinct(keywords) && Finalise(acc, keywords).Some?
    ensures var t := Finalise(acc, keywords).value;
            var g := acc.total.value;
            && t.names == keywords && t.rows == g.rows > 0
            && (forall k :: k in keywords && k in g.data ==> t.data[k] == ZeroNaN(g.data[k]))
            && (forall k :: k in keywords && k !in g.data ==> t.data[k] == Zeros(t.rows))
            && (forall k, i :: k in t.data && 0 <= i < |t.data[k]| ==> t.data[k][i].Num?)
  {
    var t := Finalise(acc, keywords).value;
    var g := acc.total.value;
    forall k, i | k in t.data && 0 <= i < |t.data[k]| ensures t.data[k][i].Num? {
      if k in g.data {
        assert t.data[k] == ZeroNaN(g.data[k]);
      } else {
        assert t.data[k] == Zeros(t.rows);
      }
    }
  }

  /**
   * A result of the batched path has exactly the columns `keywords`, in
   * order, at least one row, and only numbers; a keyword no reply ever had a
   * column for is all zeros.
   */
  lemma BatchedResultShape(keywords: seq<string>, fetch: Oracle)
    requires |keywords| > MaxPerBatch && Distinct(keywords)
    requires NetflixTrends(keywords, fetch).Some?
    ensures var t := NetflixTrends(keywords, fetch).value;
            var batches := Plan(keywords);
            && t.names == keywords && t.rows > 0
            && (forall k, i :: k in t.data && 0 <= i < |t.data[k]| ==> t.data[k][i].Num?)
            && (forall k :: k in keywords && !Returned(fetch, batches, |batches|, k) ==>
                  t.data[k] == Zeros(t.rows))
  {
    var batches := Plan(keywords);
    var acc := Merge(keywords[0], batches, fetch, |batches|).value;
    FinaliseShape(acc, keywords);
    ColumnsWereReturned(keywords[0], batches, fetch, |batches|);
  }

  /**
   * The keywords of a later batch whose reply was skipped, for lack of data
   * or of an anchor column, stay missing from the merged table and come out
   * of the reindex as all zeros, even when that reply had columns for them.
   */
  lemma SkippedBatchKeywordsZero(keywords: seq<string>, fetch: Oracle, j: nat, k: string)
    requires |keywords| > MaxPerBatch && Distinct(keywords) && Honest(fetch, Plan(keywords))
    requires NetflixTrends(keywords, fetch).Some?
    requires 0 < j < |Plan(keywords)| && k in Plan(keywords)[j] && k != keywords[0]
    requires var r := fetch(Plan(keywords)[j]);
             !HasData(r) || keywords[0] !in r.t.data || keywords[0] == Partial
    ensures var t := NetflixTrends(keywords, fetch).value;
            k in keywords && t.data[k] == Zeros(t.rows)
  {
    var batches := Plan(keywords);
    var n := |batches|;
    var acc := Merge(keywords[0], batches, fetch, n).value;
    PlanShape(keywords, j);
    assert k in keywords[Lo(j) .. Min(Lo(j) + 4, |keywords|)];
    SkippedKeyAbsent(keywords, fetch, j, k, n);
    FinaliseShape(acc, keywords);
  }

  /** A column of the first reply reaches the result with its NaN cells replaced by 0. */
  lemma FirstReplyColumnsKept(keywords: seq<string>, fetch: Oracle, k: string)
    requires |keywords| > MaxPerBatch && Distinct(keywords)
    requires NetflixTrends(keywords, fetch).Some?
    requires var first := fetch(Plan(keywords)[0]);
             first.Got? && k in first.t.data && k != Partial && k in keywords
    ensures NetflixTrends(keywords, fetch).value.data[k] == ZeroNaN(fetch(Plan(keywords)[0]).t.data[k])
  {
    var batches := Plan(keywords);
    var n := |batches|;
    var acc := Merge(keywords[0], batches, fetch, n).value;
    var first := fetch(batches[0]);
    BaselineFromFirstBatch(keywords[0], batches, fetch, n);
    assert HasData(first);
    MergeUnfold(keywords[0], batches, fetch, 1);
    assert Merge(keywords[0], batches, fetch, 1).value.total == Some(Body(first));
    ColumnsAreStable(keywords[0], batches, fetch, 1, n);
    assert acc.total.value.data[k] == first.t.data[k];
    FinaliseShape(acc, keywords);
  }

  /** The first reply and the reply to batch `j` both have data with an anchor column. */
  predicate Anchored(keywords: seq<string>, fetch: Oracle, j: nat)
    requires |keywords| > MaxPerBatch && j < |Plan(keywords)|
  {
    var anchor := keywords[0];
    var first := fetch(Plan(keywords)[0]);
    var r := fetch(Plan(keywords)[j]);
    && anchor != Partial
    && HasData(first) && anchor in first.t.data
    && HasData(r) && anchor in r.t.data
  }

  /** Reply `j` is anchored and has a column `k` other than the anchor and `isPartial`. */
  predicate LaterColumn(keywords: seq<string>, fetch: Oracle, j: nat, k: string)
    requires |keywords| > MaxPerBatch && j < |Plan(keywords)|
  {
    && Anchored(keywords, fetch, j)
    && k in fetch(Plan(keywords)[j]).t.data && k != Partial && k != keywords[0]
  }

  /** The scale batch `j` of the plan is multiplied by, as fixed by the two anchor means. */
  function BatchScale(keywords: seq<string>, fetch: Oracle, j: nat): Option<real>
    requires |keywords| > MaxPerBatch && j < |Plan(keywords)| && Anchored(keywords, fetch, j)
  {
    var anchor := keywords[0];
    Scale(Mean(fetch(Plan(keywords)[0]).t.data[anchor]), Mean(fetch(Plan(keywords)[j]).t.data[anchor]))
  }

  /**
   * Batch `j > 0` of an honest oracle, merged: its column `k` is a keyword
   * of that batch and enters the table multiplied by the scale the two
   * anchor means fix.
   */
  lemma LaterBatchMerged(keywords: seq<string>, fetch: Oracle, j: nat, k: string)
    requires |keywords| > MaxPerBatch && Distinct(keywords) && Honest(fetch, Plan(keywords))
    requires 0 < j < |Plan(keywords)| && Merge(keywords[0], Plan(keywords), fetch, j + 1).Some?
    requires LaterColumn(keywords, fetch, j, k)
    ensures k in Plan(keywords)[j] && k in keywords
    ensures var next := Merge(keywords[0], Plan(keywords), fetch, j + 1).value;
            var r := fetch(Plan(keywords)[j]);
            && next.total.Some? && k in next.total.value.data
            && next.total.value.data[k] == Fit(MulCells(r.t.data[k], BatchScale(keywords, fetch, j)), next.total.value.rows)
  {
    var batches := Plan(keywords);
    var anchor := keywords[0];
    assert Merge(anchor, batches, fetch, j).Some?;
    var prev := Merge(anchor, batches, fetch, j).value;
    BaselineFromFirstBatch(anchor, batches, fetch, j);
    LaterReplyFresh(keywords, fetch, j);
    AcceptedBatchAppends(anchor, j, prev, fetch(batches[j]));
    MergeUnfold(anchor, batches, fetch, j + 1);
  }

  /**
   * What anchor rescaling promises for the result: with an honest oracle, a
   * column of a later reply reaches the result multiplied by the baseline
   * mean over that reply's anchor mean (0 when the latter is 0), brought onto
   * the table's rows, with NaN replaced by 0.
   */
  lemma LaterReplyColumnsScaled(keywords: seq<string>, fetch: Oracle, j: nat, k: string)
    requires |keywords| > MaxPerBatch && Distinct(keywords) && Honest(fetch, Plan(keywords))
    requires NetflixTrends(keywords, fetch).Some?
    requires 0 < j < |Plan(keywords)| && LaterColumn(keywords, fetch, j, k)
    ensures var t := NetflixTrends(keywords, fetch).value;
            var r := fetch(Plan(keywords)[j]);
            && k in keywords
            && t.data[k] == ZeroNaN(Fit(MulCells(r.t.data[k], BatchScale(keywords, fetch, j)), t.rows))
  {
    var batches := Plan(keywords);
    var anchor := keywords[0];
    var n := |batches|;
    var acc := Merge(anchor, batches, fetch, n).value;
    ColumnsAreStable(anchor, batches, fetch, j + 1, n);
    LaterBatchMerged(keywords, fetch, j, k);
    var next := Merge(anchor, batches, fetch, j + 1).value.total.value;
    var total := acc.total.value;
    assert total.data[k] == next.data[k] && total.rows == next.rows;
    FinaliseShape(acc, keywords);
    assert NetflixTrends(keywords, fetch) == Finalise(acc, keywords);
  }

  /**
   * A later reply whose anchor mean is 0 contributes only zeros to the
   * result: its scale is 0, and the NaN cells that scaling keeps become 0.
   */
  lemma ZeroAnchorMeanReachesResultAsZeros(keywords: seq<string>, fetch: Oracle, j: nat, k: string)
    requires |keywords| > MaxPerBatch && Distinct(keywords) && Honest(fetch, Plan(keywords))
    requires NetflixTrends(keywords, fetch).Some?
    requires 0 < j < |Plan(keywords)| && LaterColumn(keywords, fetch, j, k)
    requires Mean(fetch(Plan(keywords)[j]).t.data[keywords[0]]) == Some(0.0)
    ensures var t := NetflixTrends(keywords, fetch).value;
            k in keywords && t.data[k] == Zeros(t.rows)
  {
    var t := NetflixTrends(keywords, fetch).value;
    LaterReplyColumnsScaled(keywords, fetch, j, k);
    assert BatchScale(keywords, fetch, j) == Some(0.0);
    ZeroScaleGivesZeros(fetch(Plan(keywords)[j]).t.data[k], t.rows);
  }

  /**
   * Once the first batch has left no baseline, every later batch is skipped:
   * the loop state stays what the first batch made it.
   */
  lemma {:induction false} NoBaselineFreezes(anchor: string, batches: seq<seq<string>>, fetch: Oracle, n: nat)
    requires 1 <= n <= |batches| && Merge(anchor, batches, fetch, n).Some?
    requires Merge(anchor, batches, fetch, 1).Some? && Merge(anchor, batches, fetch, 1).value.baseline.None?
    ensures Merge(anchor, batches, fetch, n) == Merge(anchor, batches, fetch, 1)
  {
    if n > 1 {
      MergeUnfold(anchor, batches, fetch, n);
      NoBaselineFreezes(anchor, batches, fetch, n - 1);
    }
  }

  /**
   * With distinct keywords and an honest oracle, the batched fetch succeeds
   * exactly when no request raised and the first reply had data with a
   * column other than `isPartial`.
   */
  lemma HonestResultIff(keywords: seq<string>, fetch: Oracle)
    requires |keywords| > MaxPerBatch && Distinct(keywords)
    requires Honest(fetch, Plan(keywords))
    ensures var batches := Plan(keywords);
            var first := fetch(batches[0]);
            NetflixTrends(keywords, fetch).Some? <==>
              && (forall j :: 0 <= j < |batches| ==> !fetch(batches[j]).Raised?)
              && HasData(first) && first.t.data.Keys - {Partial} != {}
  {
    var batches := Plan(keywords);
    var anchor := keywords[0];
    var n := |batches|;
    var first := fetch(batches[0]);
    MergeFailsIffRaised(anchor, batches, fetch, n);
    if Merge(anchor, batches, fetch, n).Some? {
      HonestRepliesNeverClash(keywords, fetch, n);
      ColumnsAreStable(anchor, batches, fetch, 1, n);
      MergeUnfold(anchor, batches, fetch, 1);
      var one := Merge(anchor, batches, fetch, 1).value;
      if !HasData(first) {
        FirstBatchWithoutDataGivesNone(keywords, fetch);
      } else if first.t.data.Keys - {Partial} == {} {
        assert one.baseline.None?;
        NoBaselineFreezes(anchor, batches, fetch, n);
        assert Body(first).data == map[];
      } else {
        var k :| k in first.t.data.Keys - {Partial};
        assert k in one.total.value.data;
      }
    }
  }
}
