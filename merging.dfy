/**
 * The merge loop of `get_netflix_trends` (utils/trends.py:50-82). Every
 * planned batch is sent to Google Trends once, in order. The first batch's
 * reply becomes the accumulated table and its anchor column the baseline; a
 * later batch's reply is rescaled so that its anchor matches the baseline,
 * loses its anchor column, and is appended column-wise.
 *
 * The trends API is an oracle: a function from a batch to a reply, where
 * `Raised` stands for any exception (it aborts the whole fetch) and `NoFrame`
 * for a `None` reply.
 */
module Merging {
  import opened Wrappers
  import opened Frames
  import opened Planning

  datatype Reply = Raised | NoFrame | Got(t: Table)

  type Oracle = seq<string> -> Reply

  /**
   * The loop's variables: `df_total`, `baseline_anchor_series`, and whether an
   * appended table repeated a column name (pandas keeps the duplicate, and
   * the finalisation then raises). The accumulated table is a `Grid`: its
   * column order is discarded by the final reindex.
   */
  datatype Acc = Acc(total: Option<Grid>, baseline: Option<seq<Cell>>, clash: bool)

  const Start: Acc := Acc(None, None, false)

  /** A reply that carries data: a table that is not empty. */
  predicate HasData(r: Reply) {
    r.Got? && !Empty(r.t)
  }

  /** The reply's columns without `isPartial` (`drop(columns=['isPartial'], errors='ignore')`). */
  function Body(reply: Reply): Grid
    requires reply.Got?
  {
    Remove(GridOf(reply.t), Partial)
  }

  /** The scaled table a later batch contributes: every column times the scale, anchor dropped. */
  function Rescaled(df: Grid, anchor: string, baseline: seq<Cell>): Grid
    requires anchor in df.data
  {
    Remove(Multiply(df, Scale(Mean(baseline), Mean(df.data[anchor]))), anchor)
  }

  /** One pass of the loop body, for batch number `i` and its reply. `None` = an exception. */
  function Step(anchor: string, i: nat, acc: Acc, reply: Reply): Option<Acc> {
    if reply.Raised? then None
    else if !HasData(reply) then Some(acc)
    else if i == 0 then Some(First(anchor, acc, Body(reply)))
    else if anchor !in Body(reply).data || acc.baseline.None? then Some(acc)
    else Some(Absorb(acc, Rescaled(Body(reply), anchor, acc.baseline.value)))
  }

  /** The first batch's table becomes `df_total`; its anchor column, if any, the baseline. */
  function First(anchor: string, acc: Acc, df: Grid): Acc {
    Acc(Some(df), if anchor in df.data then Some(df.data[anchor]) else acc.baseline, acc.clash)
  }

  /** `pd.concat([df_total, df_scaled], axis=1)`; a repeated column name is a clash. */
  function Absorb(acc: Acc, scaled: Grid): Acc {
    if acc.total.None? then acc.(total := Some(scaled))
    else if acc.total.value.data.Keys !! scaled.data.Keys then acc.(total := Some(Concat(acc.total.value, scaled)))
    else acc.(clash := true)
  }

  /** The loop's state after the first `n` batches. */
  function Merge(anchor: string, batches: seq<seq<string>>, fetch: Oracle, n: nat): Option<Acc>
    requires n <= |batches|
  {
    if n == 0 then Some(Start)
    else match Merge(anchor, batches, fetch, n - 1)
      case None => None
      case Some(acc) => Step(anchor, n - 1, acc, fetch(batches[n - 1]))
  }

  // ---------------------------------------------------------------------------
  // The loop itself.
  // ---------------------------------------------------------------------------

  /**
   * Runs the batches in order and returns the final loop state together with
   * the requests issued: all batches, or every batch up to and including the
   * first one whose request raised.
   */
  method MergeBatches(anchor: string, batches: seq<seq<string>>, fetch: Oracle)
    returns (acc: Option<Acc>, issued: seq<seq<string>>)
    ensures acc == Merge(anchor, batches, fetch, |batches|)
    ensures issued <= batches
    ensures acc.Some? ==> issued == batches
    ensures acc.None? ==> |issued| > 0 && fetch(issued[|issued| - 1]).Raised?
    ensures forall j :: 0 <= j < |issued| - 1 ==> !fetch(issued[j]).Raised?
  {
    var total: Option<Grid> := None;
    var baseline: Option<seq<Cell>> := None;
    var clash := false;
    issued := [];
    for i := 0 to |batches|
      invariant Merge(anchor, batches, fetch, i) == Some(Acc(total, baseline, clash))
      invariant issued == batches[..i]
      invariant forall j :: 0 <= j < i ==> !fetch(batches[j]).Raised?
    {
      ghost var before := Acc(total, baseline, clash);
      issued := issued + [batches[i]];
      var reply := fetch(batches[i]);
      MergeUnfold(anchor, batches, fetch, i + 1);
      if reply.Raised? {
        RaiseIsFinal(anchor, batches, fetch, i + 1, |batches|);
        acc := None;
        return;
      }
      if reply.NoFrame? || Empty(reply.t) {
        assert Step(anchor, i, before, reply) == Some(before);
        continue;
      }
      var df := Remove(GridOf(reply.t), Partial);
      if i == 0 {
        total := Some(df);
        if anchor in df.data {
          baseline := Some(df.data[anchor]);
        }
        assert Step(anchor, i, before, reply) == Some(Acc(total, baseline, clash));
      } else {
        if anchor !in df.data || baseline.None? {
          assert Step(anchor, i, before, reply) == Some(before);
          continue;
        }
        var batchAnchor := df.data[anchor];
        var scale := Scale(Mean(baseline.value), Mean(batchAnchor));
        var scaled := Remove(Multiply(df, scale), anchor);
        assert scaled == Rescaled(df, anchor, baseline.value);
        if total.None? {
          total := Some(scaled);
        } else if total.value.data.Keys !! scaled.data.Keys {
          total := Some(Concat(total.value, scaled));
        } else {
          clash := true;
        }
        assert Step(anchor, i, before, reply) == Some(Acc(total, baseline, clash));
      }
    }
    acc := Some(Acc(total, baseline, clash));
  }

  lemma MergeUnfold(anchor: string, batches: seq<seq<string>>, fetch: Oracle, n: nat)
    requires 0 < n <= |batches| && Merge(anchor, batches, fetch, n - 1).Some?
    ensures Merge(anchor, batches, fetch, n) ==
            Step(anchor, n - 1, Merge(anchor, batches, fetch, n - 1).value, fetch(batches[n - 1]))
  {
  }

  lemma {:induction false} RaiseIsFinal(anchor: string, batches: seq<seq<string>>, fetch: Oracle, n: nat, m: nat)
    requires 0 < n <= m <= |batches| && fetch(batches[n - 1]).Raised?
    ensures Merge(anchor, batches, fetch, m) == None
    decreases m
  {
    if m > n {
      RaiseIsFinal(anchor, batches, fetch, n, m - 1);
    }
  }

  // ---------------------------------------------------------------------------
  // Properties of the loop.
  // ---------------------------------------------------------------------------

  /** The fetch fails exactly when one of the requests raised. */
  lemma {:induction false} MergeFailsIffRaised(anchor: string, batches: seq<seq<string>>, fetch: Oracle, n: nat)
    requires n <= |batches|
    ensures Merge(anchor, batches, fetch, n).None? <==>
            exists j :: 0 <= j < n && fetch(batches[j]).Raised?
  {
    if n > 0 {
      MergeFailsIffRaised(anchor, batches, fetch, n - 1);
    }
  }

  /**
   * A later batch whose reply has no data, lacks the anchor column, or comes
   * when there is no baseline leaves the loop state as it was.
   */
  lemma SkippedBatchChangesNothing(anchor: string, i: nat, acc: Acc, reply: Reply)
    requires i > 0 && !reply.Raised?
    requires !HasData(reply) || anchor !in reply.t.data || anchor == Partial || acc.baseline.None?
    ensures Step(anchor, i, acc, reply) == Some(acc)
  {
  }

  /**
   * If the first batch brings no data, there is never an accumulated table or
   * a baseline, whatever the later batches return.
   */
  lemma {:induction false} NoFirstBatchNoTable(anchor: string, batches: seq<seq<string>>, fetch: Oracle, n: nat)
    requires 0 < n <= |batches| && !fetch(batches[0]).Raised? && !HasData(fetch(batches[0]))
    ensures Merge(anchor, batches, fetch, n).Some? ==>
            Merge(anchor, batches, fetch, n).value.total.None? &&
            Merge(anchor, batches, fetch, n).value.baseline.None?
  {
    if n > 1 {
      NoFirstBatchNoTable(anchor, batches, fetch, n - 1);
    }
  }

  /**
   * After the first batch, the baseline is the first reply's anchor column if
   * it has one, and it never changes again; and there is an accumulated table
   * exactly when the first reply had data.
   */
  lemma {:induction false} BaselineFromFirstBatch(anchor: string, batches: seq<seq<string>>, fetch: Oracle, n: nat)
    requires 0 < n <= |batches|
    requires Merge(anchor, batches, fetch, n).Some?
    ensures var acc := Merge(anchor, batches, fetch, n).value;
            var r := fetch(batches[0]);
            && (acc.total.Some? <==> HasData(r))
            && acc.baseline ==
               (if HasData(r) && anchor in r.t.data && anchor != Partial
                then Some(r.t.data[anchor]) else None)
  {
    if n > 1 {
      BaselineFromFirstBatch(anchor, batches, fetch, n - 1);
    }
  }

  /**
   * A later batch whose anchor mean is 0 contributes only zeros (and the NaN
   * cells it already had), with no division: the scale is 0.
   */
  lemma ZeroAnchorMeanGivesZeros(df: Grid, anchor: string, baseline: seq<Cell>)
    requires anchor in df.data && Mean(df.data[anchor]) == Some(0.0)
    ensures var r := Rescaled(df, anchor, baseline);
            && r.data.Keys == df.data.Keys - {anchor}
            && forall k :: k in r.data ==>
                 && |r.data[k]| == |df.data[k]|
                 && forall i :: 0 <= i < |r.data[k]| ==>
                      r.data[k][i] == (if df.data[k][i].Num? then Num(0.0) else NaN)
  {
  }

  /**
   * A later batch whose anchor mean equals the baseline mean (and is not 0)
   * passes through unscaled; only its anchor column is dropped.
   */
  lemma EqualMeansPassThrough(df: Grid, anchor: string, baseline: seq<Cell>)
    requires anchor in df.data && Mean(df.data[anchor]) == Mean(baseline)
    requires Mean(baseline).Some? && Mean(baseline) != Some(0.0)
    ensures Rescaled(df, anchor, baseline) == Remove(df, anchor)
    ensures forall k :: k in Rescaled(df, anchor, baseline).data ==>
              k != anchor && k in df.data && Rescaled(df, anchor, baseline).data[k] == df.data[k]
  {
    var s := Scale(Mean(baseline), Mean(df.data[anchor]));
    assert s == Some(1.0);
    var m := Multiply(df, s);
    forall k | k in m.data ensures m.data[k] == df.data[k] {
      UnitScaleIsIdentity(df.data[k]);
    }
    assert m == df;
  }

  /**
   * An accepted later batch: the table keeps its columns and gains the
   * reply's columns other than the anchor and `isPartial`, each multiplied by
   * the scale and fitted to the table's rows; the baseline stays.
   */
  lemma AcceptedBatchAppends(anchor: string, i: nat, acc: Acc, reply: Reply)
    requires i > 0 && HasData(reply) && acc.total.Some? && acc.baseline.Some?
    requires anchor in reply.t.data && anchor != Partial
    requires (reply.t.data.Keys - {Partial, anchor}) !! acc.total.value.data.Keys
    ensures var t := acc.total.value;
            var scale := Scale(Mean(acc.baseline.value), Mean(reply.t.data[anchor]));
            var next := Step(anchor, i, acc, reply);
            && next.Some? && next.value.baseline == acc.baseline && next.value.clash == acc.clash
            && next.value.total.Some?
            && next.value.total.value.rows == t.rows
            && next.value.total.value.data.Keys == t.data.Keys + (reply.t.data.Keys - {Partial, anchor})
            && (forall k :: k in t.data ==> next.value.total.value.data[k] == t.data[k])
            && (forall k :: k in reply.t.data && k != Partial && k != anchor ==>
                  next.value.total.value.data[k] == Fit(MulCells(reply.t.data[k], scale), t.rows))
  {
    var scaled := Rescaled(Body(reply), anchor, acc.baseline.value);
    assert scaled.data.Keys == reply.t.data.Keys - {Partial, anchor};
  }

  /**
   * A later batch that would repeat a column name the table already has is
   * recorded as a clash, and the table is not extended.
   */
  lemma ClashingBatchRecorded(anchor: string, i: nat, acc: Acc, reply: Reply, k: string)
    requires i > 0 && HasData(reply) && acc.total.Some? && acc.baseline.Some?
    requires anchor in reply.t.data && anchor != Partial
    requires k in reply.t.data && k != Partial && k != anchor && k in acc.total.value.data
    ensures Step(anchor, i, acc, reply) == Some(acc.(clash := true))
  {
    var scaled := Rescaled(Body(reply), anchor, acc.baseline.value);
    assert k in scaled.data;
  }

  // ---------------------------------------------------------------------------
  // Over the whole plan.
  // ---------------------------------------------------------------------------

  /**
   * An honest oracle answers a batch only with columns for keywords of that
   * batch, plus the `isPartial` flag.
   */
  predicate Honest(fetch: Oracle, batches: seq<seq<string>>) {
    forall j, k :: 0 <= j < |batches| && fetch(batches[j]).Got? && k in fetch(batches[j]).t.data ==>
      k in batches[j] || k == Partial
  }

  /** Some reply among the first `n` batches had a column named `k`. */
  predicate Returned(fetch: Oracle, batches: seq<seq<string>>, n: nat, k: string)
    requires n <= |batches|
  {
    exists j :: 0 <= j < n && fetch(batches[j]).Got? && k in fetch(batches[j]).t.data
  }

  /** Every column of the accumulated table came from some reply. */
  lemma {:induction false} ColumnsWereReturned(anchor: string, batches: seq<seq<string>>, fetch: Oracle, n: nat)
    requires n <= |batches| && Merge(anchor, batches, fetch, n).Some?
    ensures var acc := Merge(anchor, batches, fetch, n).value;
            acc.total.Some? ==> forall k :: k in acc.total.value.data ==> Returned(fetch, batches, n, k)
  {
    if n > 0 {
      var prev := Merge(anchor, batches, fetch, n - 1);
      MergeUnfold(anchor, batches, fetch, n);
      ColumnsWereReturned(anchor, batches, fetch, n - 1);
      var acc := Merge(anchor, batches, fetch, n).value;
      if acc.total.Some? {
        forall k | k in acc.total.value.data ensures Returned(fetch, batches, n, k) {
          if prev.value.total.Some? && k in prev.value.total.value.data {
            var j :| 0 <= j < n - 1 && fetch(batches[j]).Got? && k in fetch(batches[j]).t.data;
          } else {
            assert fetch(batches[n - 1]).Got? && k in fetch(batches[n - 1]).t.data;
          }
        }
      }
    }
  }

  /** A column, once in the accumulated table, keeps its cells to the end. */
  lemma {:induction false} ColumnsAreStable(anchor: string, batches: seq<seq<string>>, fetch: Oracle, n: nat, m: nat)
    requires n <= m <= |batches| && Merge(anchor, batches, fetch, m).Some?
    ensures Merge(anchor, batches, fetch, n).Some?
    ensures var a := Merge(anchor, batches, fetch, n).value;
            var b := Merge(anchor, batches, fetch, m).value;
            0 < n && a.total.Some? ==>
              b.total.Some? && b.total.value.rows == a.total.value.rows &&
              forall k :: k in a.total.value.data ==>
                k in b.total.value.data && b.total.value.data[k] == a.total.value.data[k]
    decreases m - n
  {
    if n < m {
      ColumnsAreStable(anchor, batches, fetch, n + 1, m);
      MergeUnfold(anchor, batches, fetch, n + 1);
    }
  }

  /** End (exclusive) of the keyword prefix that the first `n` batches of the plan cover. */
  function Covered(keywords: seq<string>, n: nat): nat {
    Min(Lo(n), |keywords|)
  }

  /** The invariant the honest merge keeps: no clash, and only keywords of `keywords[..c]` as columns. */
  predicate Within(acc: Acc, keywords: seq<string>, c: nat)
    requires c <= |keywords|
  {
    && !acc.clash
    && (acc.total.Some? ==> forall k :: k in acc.total.value.data ==> k in keywords[..c])
  }

  /** A keyword of `keywords[lo..hi]` is not among the earlier ones, when keywords are distinct. */
  lemma SlicesDisjoint(keywords: seq<string>, lo: nat, hi: nat, k: string)
    requires Distinct(keywords) && lo <= hi <= |keywords| && k in keywords[lo..hi]
    ensures k !in keywords[..lo]
  {
    var q :| lo <= q < hi && keywords[q] == k;
    forall p | 0 <= p < lo ensures keywords[p] != k {
      assert p < q;
    }
  }

  /**
   * Appending a grid whose columns are keywords of `keywords[lo..hi]` to a
   * state within `keywords[..lo]` gives a state within `keywords[..hi]`.
   */
  lemma AbsorbWithin(keywords: seq<string>, lo: nat, hi: nat, acc: Acc, scaled: Grid)
    requires Distinct(keywords) && lo <= hi <= |keywords|
    requires Within(acc, keywords, lo)
    requires forall k :: k in scaled.data ==> k in keywords[lo..hi]
    ensures Within(Absorb(acc, scaled), keywords, hi)
  {
    assert keywords[..lo] <= keywords[..hi];
    forall k | k in scaled.data ensures k in keywords[..hi] {
      var q :| lo <= q < hi && keywords[q] == k;
      assert keywords[..hi][q] == k;
    }
    if acc.total.Some? {
      var t := acc.total.value;
      forall k | k in scaled.data ensures k !in t.data {
        SlicesDisjoint(keywords, lo, hi, k);
      }
      assert t.data.Keys !! scaled.data.Keys;
    }
  }

  /** The first pass, with a reply whose columns are keywords of `keywords[..c]` or `isPartial`. */
  lemma HonestFirstStep(keywords: seq<string>, c: nat, reply: Reply)
    requires 0 < |keywords| && c <= |keywords|
    requires reply.Got? ==> forall k :: k in reply.t.data ==> k in keywords[..c] || k == Partial
    requires Step(keywords[0], 0, Start, reply).Some?
    ensures Within(Step(keywords[0], 0, Start, reply).value, keywords, c)
  {
  }

  /**
   * A later pass, with a reply whose columns are the anchor, keywords of
   * `keywords[lo..hi]` or `isPartial`, extends `Within` from `lo` to `hi`.
   */
  lemma HonestLaterStep(keywords: seq<string>, lo: nat, hi: nat, i: nat, acc: Acc, reply: Reply)
    requires Distinct(keywords) && 0 < |keywords| && lo <= hi <= |keywords| && i > 0
    requires Within(acc, keywords, lo)
    requires reply.Got? ==> forall k :: k in reply.t.data ==> k == keywords[0] || k in keywords[lo..hi] || k == Partial
    requires Step(keywords[0], i, acc, reply).Some?
    ensures Within(Step(keywords[0], i, acc, reply).value, keywords, hi)
  {
    var anchor := keywords[0];
    if HasData(reply) && anchor in Body(reply).data && acc.baseline.Some? {
      var scaled := Rescaled(Body(reply), anchor, acc.baseline.value);
      AbsorbWithin(keywords, lo, hi, acc, scaled);
    } else {
      assert keywords[..lo] <= keywords[..hi];
    }
  }

  /**
   * One pass with an honest reply to batch `i` of the plan keeps `Within`,
   * extending the covered prefix to the keywords batch `i` adds.
   */
  lemma HonestStepWithin(keywords: seq<string>, i: nat, acc: Acc, reply: Reply)
    requires |keywords| > MaxPerBatch && Distinct(keywords) && i < |Plan(keywords)|
    requires i == 0 ==> acc == Start
    requires Within(acc, keywords, Covered(keywords, i))
    requires reply.Got? ==> forall k :: k in reply.t.data ==> k in Plan(keywords)[i] || k == Partial
    requires Step(keywords[0], i, acc, reply).Some?
    ensures Within(Step(keywords[0], i, acc, reply).value, keywords, Covered(keywords, i + 1))
  {
    var batch := Plan(keywords)[i];
    PlanShape(keywords, i);
    var hi := Covered(keywords, i + 1);
    if i == 0 {
      HonestFirstStep(keywords, hi, reply);
    } else {
      var lo := Covered(keywords, i);
      assert batch == [keywords[0]] + keywords[lo..hi];
      HonestLaterStep(keywords, lo, hi, i, acc, reply);
    }
  }

  /**
   * With distinct keywords and an honest oracle no merge ever repeats a
   * column name (so the anchor is never duplicated), and the accumulated
   * columns are keywords of the batches sent so far.
   */
  lemma {:induction false} HonestRepliesNeverClash(keywords: seq<string>, fetch: Oracle, n: nat)
    requires |keywords| > MaxPerBatch && Distinct(keywords)
    requires n <= |Plan(keywords)| && Honest(fetch, Plan(keywords))
    requires Merge(keywords[0], Plan(keywords), fetch, n).Some?
    ensures var acc := Merge(keywords[0], Plan(keywords), fetch, n).value;
            && !acc.clash
            && (acc.total.Some? ==>
                  forall k :: k in acc.total.value.data ==> k in keywords[..Covered(keywords, n)])
  {
    if n > 0 {
      var batches := Plan(keywords);
      MergeUnfold(keywords[0], batches, fetch, n);
      HonestRepliesNeverClash(keywords, fetch, n - 1);
      HonestStepWithin(keywords, n - 1, Merge(keywords[0], batches, fetch, n - 1).value, fetch(batches[n - 1]));
    }
  }

  /**
   * A later pass adds no column besides the reply's own ones other than the
   * anchor and `isPartial`.
   */
  lemma StepAddsOnlyReplyColumns(anchor: string, i: nat, acc: Acc, reply: Reply)
    requires i > 0 && Step(anchor, i, acc, reply).Some?
    ensures var next := Step(anchor, i, acc, reply).value;
            next.total.Some? ==>
              forall c :: c in next.total.value.data ==>
                || (acc.total.Some? && c in acc.total.value.data)
                || (reply.Got? && c in reply.t.data && c != Partial && c != anchor)
  {
  }

  /** With distinct keywords, a keyword of one slice is in no slice that does not overlap it. */
  lemma SlicesApart(keywords: seq<string>, lo: nat, hi: nat, lo2: nat, hi2: nat, k: string)
    requires Distinct(keywords) && lo <= hi <= lo2 <= hi2 <= |keywords| && k in keywords[lo..hi]
    ensures k !in keywords[lo2..hi2]
  {
    var q :| lo <= q < hi && keywords[q] == k;
    forall p | lo2 <= p < hi2 ensures keywords[p] != k {
      assert q < p;
    }
  }

  /** Before batch `j` is merged, no keyword of that batch's slice is a column. */
  lemma KeyAbsentBefore(keywords: seq<string>, fetch: Oracle, j: nat, k: string, n: nat)
    requires |keywords| > MaxPerBatch && Distinct(keywords) && Honest(fetch, Plan(keywords))
    requires 0 < j < |Plan(keywords)| && Lo(j) < |keywords| && k in keywords[Lo(j) .. Min(Lo(j) + 4, |keywords|)]
    requires n <= j && Merge(keywords[0], Plan(keywords), fetch, n).Some?
    ensures var acc := Merge(keywords[0], Plan(keywords), fetch, n).value;
            acc.total.Some? ==> k !in acc.total.value.data
  {
    var lo := Lo(j);
    HonestRepliesNeverClash(keywords, fetch, n);
    SlicesDisjoint(keywords, lo, Min(lo + 4, |keywords|), k);
    assert keywords[..Covered(keywords, n)] <= keywords[..lo];
  }

  /** A pass over batch `i` after batch `j` adds no keyword of batch `j`'s slice. */
  lemma StepAddsNotK(keywords: seq<string>, fetch: Oracle, j: nat, k: string, i: nat, acc: Acc)
    requires |keywords| > MaxPerBatch && Distinct(keywords) && Honest(fetch, Plan(keywords))
    requires 0 < j < i < |Plan(keywords)| && Lo(j) < |keywords| && k in keywords[Lo(j) .. Min(Lo(j) + 4, |keywords|)]
    requires acc.total.Some? ==> k !in acc.total.value.data
    requires Step(keywords[0], i, acc, fetch(Plan(keywords)[i])).Some?
    ensures var next := Step(keywords[0], i, acc, fetch(Plan(keywords)[i])).value;
            next.total.Some? ==> k !in next.total.value.data
  {
    var batch := Plan(keywords)[i];
    PlanShape(keywords, i);
    var lo2 := Lo(i);
    var hi2 := Min(lo2 + 4, |keywords|);
    assert batch == [keywords[0]] + keywords[lo2..hi2];
    SlicesApart(keywords, Lo(j), Min(Lo(j) + 4, |keywords|), lo2, hi2, k);
    assert k != keywords[0] by {
      SlicesDisjoint(keywords, Lo(j), Min(Lo(j) + 4, |keywords|), k);
      assert keywords[..Lo(j)][0] == keywords[0];
    }
    assert k !in batch;
    StepAddsOnlyReplyColumns(keywords[0], i, acc, fetch(batch));
  }

  /**
   * The columns an honest reply to batch `j > 0` brings, other than the anchor
   * and `isPartial`, are not yet in the accumulated table.
   */
  lemma LaterReplyFresh(keywords: seq<string>, fetch: Oracle, j: nat)
    requires |keywords| > MaxPerBatch && Distinct(keywords) && Honest(fetch, Plan(keywords))
    requires 0 < j < |Plan(keywords)| && Merge(keywords[0], Plan(keywords), fetch, j).Some?
    requires fetch(Plan(keywords)[j]).Got?
    ensures var prev := Merge(keywords[0], Plan(keywords), fetch, j).value;
            var r := fetch(Plan(keywords)[j]);
            && (forall c :: c in r.t.data && c != Partial && c != keywords[0] ==> c in keywords)
            && (prev.total.Some? ==> (r.t.data.Keys - {Partial, keywords[0]}) !! prev.total.value.data.Keys)
  {
    var batches := Plan(keywords);
    var r := fetch(batches[j]);
    PlanShape(keywords, j);
    var slice := keywords[Lo(j) .. Min(Lo(j) + 4, |keywords|)];
    assert batches[j] == [keywords[0]] + slice;
    forall c | c in r.t.data && c != Partial && c != keywords[0] ensures c in slice {
      assert c in batches[j];
    }
    var prev := Merge(keywords[0], batches, fetch, j).value;
    if prev.total.Some? {
      forall c | c in r.t.data.Keys - {Partial, keywords[0]} ensures c !in prev.total.value.data {
        KeyAbsentBefore(keywords, fetch, j, c, j);
      }
    }
  }

  /**
   * A keyword of a later batch whose reply was skipped (no data, or no anchor
   * column) never becomes a column of the accumulated table: with distinct
   * keywords and an honest oracle, no other reply has a column for it.
   */
  lemma {:induction false} SkippedKeyAbsent(keywords: seq<string>, fetch: Oracle, j: nat, k: string, n: nat)
    requires |keywords| > MaxPerBatch && Distinct(keywords) && Honest(fetch, Plan(keywords))
    requires 0 < j < |Plan(keywords)| && Lo(j) < |keywords| && k in keywords[Lo(j) .. Min(Lo(j) + 4, |keywords|)]
    requires var r := fetch(Plan(keywords)[j]);
             !HasData(r) || keywords[0] !in r.t.data || keywords[0] == Partial
    requires n <= |Plan(keywords)| && Merge(keywords[0], Plan(keywords), fetch, n).Some?
    ensures var acc := Merge(keywords[0], Plan(keywords), fetch, n).value;
            acc.total.Some? ==> k !in acc.total.value.data
  {
    var batches := Plan(keywords);
    var anchor := keywords[0];
    if n <= j {
      KeyAbsentBefore(keywords, fetch, j, k, n);
    } else {
      var prev := Merge(anchor, batches, fetch, n - 1).value;
      MergeUnfold(anchor, batches, fetch, n);
      SkippedKeyAbsent(keywords, fetch, j, k, n - 1);
      if n - 1 == j {
        SkippedBatchChangesNothing(anchor, j, prev, fetch(batches[j]));
      } else {
        StepAddsNotK(keywords, fetch, j, k, n - 1, prev);
      }
    }
  }
}
