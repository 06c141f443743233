/**
 * Batch planning of `get_netflix_trends` (utils/trends.py:39-48). Google
 * Trends compares at most five keywords per request, so a longer keyword list
 * is split: the first batch is the first five keywords, and every later batch
 * is the anchor `keywords[0]` followed by the next (up to) four keywords.
 */
module Planning {
  /** Keywords per request the trends API accepts. */
  const MaxPerBatch: nat := 5

  function Min(a: int, b: int): int {
    if a <= b then a else b
  }

  /** The later batches for the keywords `s` still to be covered. */
  function Chunks(anchor: string, s: seq<string>): seq<seq<string>>
    decreases |s|
  {
    if s == [] then []
    else
      var m := Min(4, |s|);
      [[anchor] + s[..m]] + Chunks(anchor, s[m..])
  }

  /** The plan: the first five keywords, then the anchored chunks of the rest. */
  function Plan(keywords: seq<string>): seq<seq<string>>
    requires |keywords| > MaxPerBatch
  {
    [keywords[..5]] + Chunks(keywords[0], keywords[5..])
  }

  /** The new keywords of each later batch, in order: every batch minus its anchor. */
  function Tails(batches: seq<seq<string>>): seq<string> {
    if batches == [] then []
    else (if batches[0] == [] then [] else batches[0][1..]) + Tails(batches[1..])
  }

  /** First index of `keywords` that later batch `j` (counting from 1) covers. */
  function Lo(j: nat): nat {
    if j == 0 then 0 else 5 + 4 * (j - 1)
  }

  lemma {:induction false} ChunksCount(anchor: string, s: seq<string>)
    ensures |Chunks(anchor, s)| == (|s| + 3) / 4
  {
    if s != [] {
      ChunksCount(anchor, s[Min(4, |s|)..]);
    }
  }

  lemma {:induction false} ChunksShape(anchor: string, s: seq<string>, j: nat)
    requires j < |Chunks(anchor, s)|
    ensures 4 * j < |s|
    ensures Chunks(anchor, s)[j] == [anchor] + s[4 * j .. Min(4 * j + 4, |s|)]
  {
    var m := Min(4, |s|);
    if j > 0 {
      ChunksShape(anchor, s[m..], j - 1);
      assert s[m..][4 * (j - 1) .. Min(4 * (j - 1) + 4, |s| - m)]
          == s[4 * j .. Min(4 * j + 4, |s|)];
    }
  }

  lemma {:induction false} ChunksRebuild(anchor: string, s: seq<string>)
    ensures Tails(Chunks(anchor, s)) == s
  {
    if s != [] {
      var m := Min(4, |s|);
      var c := Chunks(anchor, s);
      assert c[1..] == Chunks(anchor, s[m..]);
      ChunksRebuild(anchor, s[m..]);
      assert ([anchor] + s[..m])[1..] == s[..m];
      assert s[..m] + s[m..] == s;
    }
  }

  /** For N > 5 keywords the plan has 1 + ceil((N - 5) / 4) batches. */
  lemma PlanCount(keywords: seq<string>)
    requires |keywords| > MaxPerBatch
    ensures |Plan(keywords)| == 1 + (|keywords| - 5 + 3) / 4
  {
    ChunksCount(keywords[0], keywords[5..]);
  }

  /**
   * The first batch is `keywords[0:5]`; batch j > 0 is the anchor followed by
   * `keywords[Lo(j) : Lo(j) + 4]` (clipped), so it has between 2 and 5
   * entries and starts with the anchor.
   */
  lemma PlanShape(keywords: seq<string>, j: nat)
    requires |keywords| > MaxPerBatch && j < |Plan(keywords)|
    ensures j == 0 ==> Plan(keywords)[j] == keywords[..5]
    ensures j > 0 ==>
      && Lo(j) < |keywords|
      && Plan(keywords)[j] == [keywords[0]] + keywords[Lo(j) .. Min(Lo(j) + 4, |keywords|)]
    ensures 2 <= |Plan(keywords)[j]| <= MaxPerBatch
    ensures Plan(keywords)[j][0] == keywords[0]
  {
    if j > 0 {
      var s := keywords[5..];
      ChunksShape(keywords[0], s, j - 1);
      assert s[4 * (j - 1) .. Min(4 * (j - 1) + 4, |s|)]
          == keywords[Lo(j) .. Min(Lo(j) + 4, |keywords|)];
    }
  }

  /**
   * No keyword is lost, repeated or reordered: the first batch followed by
   * every later batch without its anchor is `keywords` itself.
   */
  lemma PlanRebuilds(keywords: seq<string>)
    requires |keywords| > MaxPerBatch
    ensures Plan(keywords)[0] + Tails(Plan(keywords)[1..]) == keywords
  {
    var p := Plan(keywords);
    assert p[1..] == Chunks(keywords[0], keywords[5..]);
    ChunksRebuild(keywords[0], keywords[5..]);
    assert keywords[..5] + keywords[5..] == keywords;
  }

  /**
   * The planning loop of utils/trends.py:41-48: `idx` starts at 5 and grows
   * by 4 per pass; each pass appends `[anchor] + keywords[idx:idx+4]`.
   */
  method PlanBatches(keywords: seq<string>) returns (batches: seq<seq<string>>)
    requires |keywords| > MaxPerBatch
    ensures batches == Plan(keywords)
    ensures |batches| == 1 + (|keywords| - 5 + 3) / 4
    ensures forall b :: b in batches ==> 0 < |b| <= MaxPerBatch && b[0] == keywords[0]
  {
    var anchor := keywords[0];
    batches := [keywords[..5]];
    var idx := 5;
    while idx < |keywords|
      invariant 5 <= idx <= |keywords| + 3
      invariant batches + Chunks(anchor, keywords[Min(idx, |keywords|)..]) == Plan(keywords)
      decreases |keywords| - idx
    {
      var hi := Min(idx + 4, |keywords|);
      var batch := [anchor] + keywords[idx..hi];
      assert keywords[idx..][..hi - idx] == keywords[idx..hi];
      assert keywords[idx..][hi - idx..] == keywords[Min(hi, |keywords|)..];
      batches := batches + [batch];
      idx := idx + 4;
    }
    assert keywords[Min(idx, |keywords|)..] == [];
    PlanCount(keywords);
    forall b | b in batches ensures 0 < |b| <= MaxPerBatch && b[0] == keywords[0] {
      var j :| 0 <= j < |batches| && batches[j] == b;
      PlanShape(keywords, j);
    }
  }
}
