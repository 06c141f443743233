/**
 * Trend tables: the pandas DataFrames that `utils/trends.py` receives from
 * Google Trends and reshapes. A table has a row count (one row per timestamp
 * of a shared index), an ordered list of distinct column names and, for every
 * name, one column of cells. A cell is a number or NaN (a value pandas treats
 * as missing).
 *
 * Inside the merge loop the column order does not matter (the result is
 * reindexed to the keyword order at the end), so the loop accumulates a
 * `Grid`: a row count and a map from column name to cells.
 */
module Frames {
  import opened Wrappers

  /** The flag column Google Trends adds to every reply and the fetcher drops. */
  const Partial: string := "isPartial"

  datatype Cell = Num(v: real) | NaN

  predicate Distinct<T(==)>(s: seq<T>) {
    forall i, j :: 0 <= i < j < |s| ==> s[i] != s[j]
  }

  datatype Frame = Frame(rows: nat, names: seq<string>, data: map<string, seq<Cell>>) {
    /** What every DataFrame is: rectangular, with unique column labels. */
    predicate Valid() {
      && Distinct(names)
      && (forall k :: k in names ==> k in data)
      && (forall k :: k in data ==> k in names)
      && (forall k :: k in data ==> |data[k]| == rows)
    }
  }

  type Table = f: Frame | f.Valid() witness Frame(0, [], map[])

  /** `DataFrame.empty`: true when either axis has length zero. */
  predicate Empty(t: Table) {
    t.rows == 0 || t.data == map[]
  }

  /** `names` with every occurrence of `c` removed, order kept. */
  function Without(s: seq<string>, c: string): (r: seq<string>)
    ensures forall x :: x in r <==> x in s && x != c
  {
    if s == [] then []
    else if s[0] == c then Without(s[1..], c)
    else [s[0]] + Without(s[1..], c)
  }

  lemma {:induction false} WithoutDistinct(s: seq<string>, c: string)
    requires Distinct(s)
    ensures Distinct(Without(s, c))
  {
    if s != [] {
      assert forall i, j :: 0 <= i < j < |s[1..]| ==> s[1..][i] == s[i + 1] && s[1..][j] == s[j + 1];
      WithoutDistinct(s[1..], c);
      var rest := Without(s[1..], c);
      assert s[0] !in s[1..];
      if s[0] != c {
        var r := [s[0]] + rest;
        forall i, j | 0 <= i < j < |r| ensures r[i] != r[j] {
          if i == 0 {
            assert r[j] == rest[j - 1];
          } else {
            assert r[i] == rest[i - 1] && r[j] == rest[j - 1];
          }
        }
      }
    }
  }

  lemma {:induction false} WithoutAbsent(s: seq<string>, c: string)
    requires c !in s
    ensures Without(s, c) == s
  {
    if s != [] {
      WithoutAbsent(s[1..], c);
    }
  }

  /** `df.drop(columns=[c], errors='ignore')`. */
  function Drop(t: Table, c: string): (r: Table)
    ensures r.rows == t.rows && r.names == Without(t.names, c)
    ensures forall k :: k in r.data <==> k in t.data && k != c
    ensures forall k :: k in r.data ==> r.data[k] == t.data[k]
  {
    WithoutDistinct(t.names, c);
    Frame(t.rows, Without(t.names, c), t.data - {c})
  }

  // ---------------------------------------------------------------------------
  // Means, with pandas' skipna semantics: NaN cells are ignored and a column
  // with no number in it has mean NaN (here None).
  // ---------------------------------------------------------------------------

  function Sum(s: seq<Cell>): real {
    if s == [] then 0.0 else (if s[0].Num? then s[0].v else 0.0) + Sum(s[1..])
  }

  function Count(s: seq<Cell>): nat {
    if s == [] then 0 else (if s[0].Num? then 1 else 0) + Count(s[1..])
  }

  function Mean(s: seq<Cell>): (m: Option<real>)
    ensures m.None? <==> forall i :: 0 <= i < |s| ==> s[i] == NaN
  {
    CountZero(s);
    if Count(s) == 0 then None else Some(Sum(s) / Count(s) as real)
  }

  lemma {:induction false} CountZero(s: seq<Cell>)
    ensures Count(s) == 0 <==> forall i :: 0 <= i < |s| ==> s[i] == NaN
  {
    if s != [] {
      CountZero(s[1..]);
      assert forall i :: 1 <= i < |s| ==> s[i] == s[1..][i - 1];
    }
  }

  /** A column of `n` numbers all equal to `x` has mean `x`, if `n > 0`. */
  lemma {:induction false} MeanOfConstant(s: seq<Cell>, x: real)
    requires |s| > 0 && forall i :: 0 <= i < |s| ==> s[i] == Num(x)
    ensures Mean(s) == Some(x)
  {
    ConstantSumCount(s, x);
    var n := |s| as real;
    assert Count(s) as real == n;
    assert Sum(s) / n == x;
    assert Mean(s) == Some(Sum(s) / n);
  }

  lemma {:induction false} ConstantSumCount(s: seq<Cell>, x: real)
    requires forall i :: 0 <= i < |s| ==> s[i] == Num(x)
    ensures Count(s) == |s| && Sum(s) == |s| as real * x
  {
    if s != [] {
      assert forall i :: 0 <= i < |s[1..]| ==> s[1..][i] == s[i + 1];
      ConstantSumCount(s[1..], x);
    }
  }

  // ---------------------------------------------------------------------------
  // Grids: tables without a column order.
  // ---------------------------------------------------------------------------

  datatype Cols = Cols(rows: nat, data: map<string, seq<Cell>>) {
    predicate Rectangular() {
      forall k :: k in data ==> |data[k]| == rows
    }
  }

  type Grid = g: Cols | g.Rectangular() witness Cols(0, map[])

  /** The table's columns, forgetting their order. */
  function GridOf(t: Table): (g: Grid)
    ensures g.rows == t.rows && g.data == t.data
  {
    Cols(t.rows, t.data)
  }

  /** `DataFrame.empty` for a grid: no rows or no columns. */
  predicate GridEmpty(g: Grid) {
    g.rows == 0 || g.data == map[]
  }

  /** `drop(columns=[c], errors='ignore')` on a grid. */
  function Remove(g: Grid, c: string): (r: Grid)
    ensures r.rows == g.rows
    ensures forall k :: k in r.data <==> k in g.data && k != c
    ensures forall k :: k in r.data ==> r.data[k] == g.data[k]
  {
    Cols(g.rows, g.data - {c})
  }

  // ---------------------------------------------------------------------------
  // Scaling (`df.multiply(scale)`). A scale is a number or NaN (None).
  // ---------------------------------------------------------------------------

  function MulCell(c: Cell, scale: Option<real>): Cell {
    if c.Num? && scale.Some? then Num(c.v * scale.value) else NaN
  }

  function MulCells(s: seq<Cell>, scale: Option<real>): (r: seq<Cell>)
    ensures |r| == |s|
    ensures forall i :: 0 <= i < |s| ==> r[i] == MulCell(s[i], scale)
  {
    seq(|s|, i requires 0 <= i < |s| => MulCell(s[i], scale))
  }

  /** `df.multiply(scale)`: every cell of every column times the scale. */
  function Multiply(g: Grid, scale: Option<real>): (r: Grid)
    ensures r.rows == g.rows && r.data.Keys == g.data.Keys
    ensures forall k :: k in g.data ==> r.data[k] == MulCells(g.data[k], scale)
  {
    Cols(g.rows, map k | k in g.data :: MulCells(g.data[k], scale))
  }

  /** Scaling by a number scales the mean by that number; a NaN mean stays NaN. */
  lemma {:induction false} MeanOfScaled(s: seq<Cell>, k: real)
    ensures Mean(MulCells(s, Some(k))) ==
            (if Mean(s).Some? then Some(k * Mean(s).value) else None)
  {
    SumCountOfScaled(s, k);
    var m := MulCells(s, Some(k));
    if Count(s) != 0 {
      var c := Count(s) as real;
      assert c != 0.0;
      assert (k * Sum(s)) / c == k * (Sum(s) / c);
      assert Mean(m) == Some(Sum(m) / c);
      assert Mean(s) == Some(Sum(s) / c);
      assert Mean(s).value == Sum(s) / c;
      assert Sum(m) / c == k * Mean(s).value;
      assert Mean(m) == Some(k * Mean(s).value);
    }
  }

  lemma {:induction false} SumCountOfScaled(s: seq<Cell>, k: real)
    ensures Count(MulCells(s, Some(k))) == Count(s)
    ensures Sum(MulCells(s, Some(k))) == k * Sum(s)
  {
    if s != [] {
      var m := MulCells(s, Some(k));
      assert m[1..] == MulCells(s[1..], Some(k));
      SumCountOfScaled(s[1..], k);
    }
  }

  /**
   * The scale factor of utils/trends.py:72-75: 0 when the batch's anchor mean
   * is 0, otherwise the baseline mean divided by the batch's anchor mean, NaN
   * when either mean is NaN.
   */
  function Scale(baseline: Option<real>, batch: Option<real>): (r: Option<real>)
    ensures batch == Some(0.0) ==> r == Some(0.0)
    ensures batch.Some? && batch != Some(0.0) && baseline == batch ==> r == Some(1.0)
    ensures r.Some? <==> batch == Some(0.0) || (baseline.Some? && batch.Some?)
    ensures r.Some? && batch.Some? && batch.value != 0.0 ==> r.value * batch.value == baseline.value
  {
    if batch == Some(0.0) then Some(0.0)
    else if baseline.Some? && batch.Some? then
      var q := baseline.value / batch.value;
      assert q * batch.value == baseline.value;
      assert baseline == batch ==> q == 1.0;
      Some(q)
    else None
  }

  /**
   * What anchor rescaling is for: once a batch is multiplied by its scale,
   * its anchor column has the baseline's mean, so its other columns are on
   * the first batch's scale.
   */
  lemma ScaledAnchorMatchesBaseline(anchor: seq<Cell>, baseline: real)
    requires Mean(anchor).Some? && Mean(anchor).value != 0.0
    ensures Mean(MulCells(anchor, Scale(Some(baseline), Mean(anchor)))) == Some(baseline)
  {
    var k := Scale(Some(baseline), Mean(anchor)).value;
    MeanOfScaled(anchor, k);
    MeanAfterScale(anchor, Mean(anchor).value, k, baseline);
  }

  lemma MeanAfterScale(s: seq<Cell>, m: real, k: real, b: real)
    requires Mean(s) == Some(m) && k * m == b
    ensures Mean(MulCells(s, Some(k))) == Some(b)
  {
    MeanOfScaled(s, k);
    var p := k * Mean(s).value;
    assert p == b;
    assert Mean(MulCells(s, Some(k))) == Some(p);
  }

  /** Scaling by 1 changes nothing. */
  lemma UnitScaleIsIdentity(s: seq<Cell>)
    ensures MulCells(s, Some(1.0)) == s
  {
  }

  // ---------------------------------------------------------------------------
  // Concatenation along columns, coercion and reindexing.
  // ---------------------------------------------------------------------------

  /**
   * A column brought onto an index of `n` rows. The model assumes every reply
   * shares one timestamp index; when lengths still differ, the column is cut
   * or padded with NaN positionally.
   */
  function Fit(s: seq<Cell>, n: nat): (r: seq<Cell>)
    ensures |r| == n
    ensures forall i :: 0 <= i < n ==> r[i] == (if i < |s| then s[i] else NaN)
  {
    seq(n, i requires 0 <= i < n => if i < |s| then s[i] else NaN)
  }

  /** `pd.concat([a, b], axis=1)` for grids with no column name in common. */
  function Concat(a: Grid, b: Grid): (r: Grid)
    requires a.data.Keys !! b.data.Keys
    ensures r.rows == a.rows && r.data.Keys == a.data.Keys + b.data.Keys
    ensures forall k :: k in a.data ==> r.data[k] == a.data[k]
    ensures forall k :: k in b.data ==> r.data[k] == Fit(b.data[k], a.rows)
  {
    Cols(a.rows, map k | k in a.data.Keys + b.data.Keys ::
                   if k in a.data then a.data[k] else Fit(b.data[k], a.rows))
  }

  /** `pd.to_numeric(col, errors='coerce').fillna(0)`: every NaN becomes 0. */
  function ZeroNaN(s: seq<Cell>): (r: seq<Cell>)
    ensures |r| == |s|
    ensures forall i :: 0 <= i < |s| ==> r[i] == (if s[i].Num? then s[i] else Num(0.0))
  {
    seq(|s|, i requires 0 <= i < |s| => if s[i].Num? then s[i] else Num(0.0))
  }

  /** The grid after every column has been coerced as `ZeroNaN` does. */
  function ZeroFill(g: Grid): (r: Grid)
    ensures r.rows == g.rows && r.data.Keys == g.data.Keys
    ensures forall k :: k in g.data ==> r.data[k] == ZeroNaN(g.data[k])
  {
    Cols(g.rows, map k | k in g.data :: ZeroNaN(g.data[k]))
  }

  function Zeros(n: nat): (r: seq<Cell>)
    ensures |r| == n && forall i :: 0 <= i < n ==> r[i] == Num(0.0)
  {
    seq(n, i => Num(0.0))
  }

  /** A column scaled by 0, fitted to `n` rows and coerced, is all zeros. */
  lemma ZeroScaleGivesZeros(s: seq<Cell>, n: nat)
    ensures ZeroNaN(Fit(MulCells(s, Some(0.0)), n)) == Zeros(n)
  {
    var z := ZeroNaN(Fit(MulCells(s, Some(0.0)), n));
    forall i | 0 <= i < n ensures z[i] == Num(0.0) {
      if i < |s| && s[i].Num? {
        assert MulCells(s, Some(0.0))[i] == Num(s[i].v * 0.0);
      }
    }
  }

  /**
   * `df.reindex(columns=keywords, fill_value=0)`: a table with exactly the
   * columns `keywords`, in that order; a column the grid has keeps its
   * cells, any other is all zero, and columns not in `keywords` are gone.
   */
  function Reindex(g: Grid, keywords: seq<string>): (r: Table)
    requires Distinct(keywords)
    ensures r.rows == g.rows && r.names == keywords
    ensures forall k :: k in r.data <==> k in keywords
    ensures forall k :: k in keywords && k in g.data ==> r.data[k] == g.data[k]
    ensures forall k :: k in keywords && k !in g.data ==> r.data[k] == Zeros(g.rows)
  {
    Frame(g.rows, keywords, map k | k in keywords :: if k in g.data then g.data[k] else Zeros(g.rows))
  }
}
