# Netflix trends fetcher, modelled in Dafny

This project models `get_netflix_trends` in `utils/trends.py` of the Netflix
prediction dashboard, and the ranking the overview tab builds from its
result. The fetcher asks Google Trends for the interest over the last seven
days in a list of show titles. The trends API compares at most five keywords
per request, so a longer list is split into batches:

- the first batch is the first five keywords;
- every later batch is the anchor `keywords[0]` followed by the next (up to) four; the last one may be shorter.

The anchor's column in the first reply is the baseline. Each later reply is
multiplied by a scale: the baseline mean divided by that reply's anchor mean,
or 0 when that reply's anchor mean is 0. The reply then loses its anchor
column and is appended column-wise. Finally every cell is coerced to a number
(NaN becomes 0), and the columns are reindexed to exactly the keywords, in
their order, with missing keywords filled with 0. With at most five keywords
there is a single request, and its table is returned with the `isPartial`
column dropped. Any exception makes the fetch return `None`.

Modules:

- `Frames` (`frames.dfy`) has the data model.
  - A `Table` is a DataFrame of replies and results: a row count, distinct column names in order, and one column of cells per name.
  - A cell is a number or NaN.
  - A `Grid` is the same without a column order; the merge accumulates one, because the final reindex discards the order.
  - It also holds the pandas operations the fetcher uses: the skipna mean, `multiply`, `drop`, `concat`, the numeric coercion and `reindex`.
- `Planning` (`planning.dfy`) has the batch plan and the planning loop.
- `Merging` (`merging.dfy`) has the merge loop and its properties.
  - The trends API is an oracle from a batch to a reply: an exception (`Raised`), no table (`NoFrame`), or a table.
- `Trends` (`trends.dfy`) has the whole fetcher, its finalisation and the end-to-end properties.
- `Ranking` (`ranking.dfy`) has the latest-score ranking.

Each loop of the source is a method, proved against a function that specifies it:

- the planning `while` loop (lines 43-48): `PlanBatches` against `Plan`;
- the merge `for` loop (lines 53-82): `MergeBatches` against `Merge`;
- the column coercion loop (lines 89-90): `CoerceNumeric` against `ZeroFill`.

The fetcher as a whole, `GetNetflixTrends`, has no loop of its own. It
calls these three methods and is proved against `NetflixTrends`.

The behaviour itself is carried by these definitions, which the lemmas in
the table below are about:

- `Planning.Plan` (utils/trends.py:39-48): the batch plan, the first five keywords and then the anchored chunks of four.
- `Merging.Step` (utils/trends.py:53-82): one pass of the merge loop for one reply: abort on an exception, skip, take the first batch, or absorb a rescaled later batch.
- `Merging.First` (utils/trends.py:60-64): the first batch's table becomes the accumulated table, and its anchor column becomes the baseline.
- `Merging.Rescaled` (utils/trends.py:70-79): a later reply multiplied by the scale, without its anchor column.
- `Merging.Absorb` (utils/trends.py:82): the column-wise concatenation, recording a duplicated column name.
- `Merging.Merge` (utils/trends.py:50-82): the loop state after the first n batches.
- `Trends.SmallResult` (utils/trends.py:31-36): the single-request result.
- `Trends.Finalise` (utils/trends.py:84-93): the empty check, the coercion and the reindex.
- `Trends.NetflixTrends` (utils/trends.py:23-97): what the fetcher returns for an oracle.
- `Ranking.Ranking` (utils/trends.py:156-167): the ranking table built from the latest scores.

## Model

| member | source | states |
|---|---|---|
| Frames.Drop | utils/trends.py:35 | `drop(columns=[c], errors='ignore')`: the columns are the table's except `c`, in their order, with their cells unchanged; a missing `c` is no error |
| Frames.WithoutDistinct | utils/trends.py:35 | dropping a column from a table with distinct column names leaves them distinct |
| Frames.WithoutAbsent | utils/trends.py:35 | dropping a column the table does not have leaves the column list as it was |
| Frames.Mean | utils/trends.py:72-75 | pandas' skipna mean is NaN exactly when every cell is NaN |
| Frames.MeanOfConstant | utils/trends.py:72-75 | a non-empty column whose cells all equal x has mean x |
| Frames.MeanOfScaled | utils/trends.py:78 | multiplying a column by k multiplies its mean by k; a NaN mean stays NaN |
| Frames.Scale | utils/trends.py:72-75 | the scale is 0 when the batch anchor mean is 0; otherwise it is NaN when a mean is NaN, and scale × batch mean = baseline mean; equal non-zero means give 1 |
| Frames.ScaledAnchorMatchesBaseline | utils/trends.py:70-78 | after rescaling, a batch's anchor column has the baseline's mean, whenever its own mean is a non-zero number |
| Frames.UnitScaleIsIdentity | utils/trends.py:78 | multiplying by 1 changes no cell |
| Frames.Multiply | utils/trends.py:78 | `df.multiply(scale)` keeps the columns and rows and multiplies every cell; NaN stays NaN |
| Frames.Remove | utils/trends.py:79 | dropping the anchor removes exactly that column and keeps the others' cells |
| Frames.Concat | utils/trends.py:82 | `concat(axis=1)` of tables with disjoint columns has the union of the columns; old columns keep their cells, and new ones are brought onto the table's rows |
| Frames.ZeroNaN | utils/trends.py:90 | `to_numeric(errors='coerce').fillna(0)`: numbers stay, NaN becomes 0 |
| Frames.ZeroFill | utils/trends.py:89-90 | every column is coerced as `ZeroNaN` does; the columns and rows are kept |
| Frames.Reindex | utils/trends.py:92 | the columns are exactly the keywords, in order; a present column keeps its cells, a missing one is all zero |
| Planning.PlanCount | utils/trends.py:39-48 | N > 5 keywords give 1 + ceil((N − 5) / 4) batches |
| Planning.PlanShape | utils/trends.py:39-48 | batch 0 is `keywords[:5]`; batch j > 0 is the anchor plus `keywords[5+4(j−1) : 5+4j]`; every batch has 2 to 5 entries and starts with the anchor |
| Planning.PlanRebuilds | utils/trends.py:42-48 | the first batch followed by every later batch minus its anchor is exactly `keywords`, in order |
| Planning.PlanBatches | utils/trends.py:39-48 | the planning loop terminates and builds the plan; each batch has at most 5 entries and starts with the anchor |
| Merging.MergeBatches | utils/trends.py:50-82 | the merge loop computes `Merge` over all batches; it requests each batch once, in order, and stops at the first request that raised |
| Merging.RaiseIsFinal | utils/trends.py:95-97 | once a request raised, the fetch has failed, whatever later batches would return |
| Merging.MergeFailsIffRaised | utils/trends.py:53-97 | the merge fails exactly when some request raised |
| Merging.SkippedBatchChangesNothing | utils/trends.py:56-69 | a later batch that is empty, lacks the anchor, or comes with no baseline leaves the state unchanged |
| Merging.NoFirstBatchNoTable | utils/trends.py:56-69 | if the first batch has no data, there is never an accumulated table or a baseline |
| Merging.BaselineFromFirstBatch | utils/trends.py:60-64 | the baseline is the first reply's anchor column or nothing, and never changes; there is an accumulated table exactly when the first reply had data |
| Merging.ZeroAnchorMeanGivesZeros | utils/trends.py:72-79 | a batch whose anchor mean is 0 keeps its columns other than the anchor, cell for cell: every number becomes 0 and every NaN stays NaN |
| Merging.EqualMeansPassThrough | utils/trends.py:74-79 | a batch whose anchor mean equals the baseline mean, a non-zero number, passes through unscaled, minus its anchor (equal means of 0 give scale 0, equal NaN means scale NaN) |
| Merging.AcceptedBatchAppends | utils/trends.py:70-82 | an accepted later batch adds exactly its non-anchor, non-`isPartial` columns, scaled and fitted to the table's rows; old columns, rows and baseline are kept |
| Merging.ClashingBatchRecorded | utils/trends.py:82 | a later batch that repeats a column the table already has is recorded as a duplicate-column clash |
| Merging.ColumnsWereReturned | utils/trends.py:53-82 | every accumulated column came from some reply |
| Merging.ColumnsAreStable | utils/trends.py:53-82 | a column, once accumulated, keeps its cells and the table keeps its rows to the end |
| Merging.SlicesDisjoint | utils/trends.py:45-48 | with distinct keywords, the keywords a later batch adds are not among the earlier ones |
| Merging.SlicesApart | utils/trends.py:45-48 | with distinct keywords, a keyword of one slice is in no later slice |
| Merging.StepAddsOnlyReplyColumns | utils/trends.py:53-82 | a later pass adds no column other than the reply's own, minus the anchor and `isPartial` |
| Merging.HonestStepWithin | utils/trends.py:53-82 | one pass with an honest reply does not clash, and it keeps the columns within the keywords planned so far |
| Merging.HonestRepliesNeverClash | utils/trends.py:77-82 | with distinct keywords and an honest oracle, no column is ever duplicated (the anchor included), and the columns are keywords of the batches sent so far |
| Merging.LaterReplyFresh | utils/trends.py:45-82 | with distinct keywords and an honest oracle, the columns a later reply brings, other than the anchor and `isPartial`, are keywords not yet in the accumulated table |
| Merging.KeyAbsentBefore | utils/trends.py:45-82 | with distinct keywords and an honest oracle, before batch j is merged no keyword of its slice is a column |
| Merging.StepAddsNotK | utils/trends.py:45-82 | with distinct keywords and an honest oracle, a pass over a batch after batch j adds no keyword of batch j's slice |
| Merging.SkippedKeyAbsent | utils/trends.py:56-69 | with distinct keywords and an honest oracle, a keyword of a later batch whose reply was skipped (no data, or no anchor column) is never a column of the accumulated table |
| Trends.CoerceNumeric | utils/trends.py:89-90 | the column-by-column coercion loop produces `ZeroFill` of the table |
| Trends.GetNetflixTrends | utils/trends.py:23-97 | the fetcher returns `NetflixTrends` of the resolved keywords; it makes one request for at most 5 keywords; otherwise it issues a prefix of the plan (all of it when it succeeds) and no request has more than 5 keywords |
| Trends.SmallListIsOneReply | utils/trends.py:31-36 | with at most 5 keywords the result exists exactly when the reply has data; it is the reply minus `isPartial`, with nothing reordered or zero-filled |
| Trends.FirstBatchWithoutDataGivesNone | utils/trends.py:56-85 | if the first batch has no data, the result is `None` |
| Trends.FinaliseShape | utils/trends.py:84-93 | a finalised table has exactly the keyword columns, in order, at least one row, and only numbers; a present column has NaN replaced by 0, a missing one is all zero |
| Trends.BatchedResultShape | utils/trends.py:84-93 | a batched result has the keyword columns, in order, at least one row and only numbers; a keyword no reply had a column for is all zero |
| Trends.SkippedBatchKeywordsZero | utils/trends.py:56-92 | with distinct keywords and an honest oracle, every keyword of a later batch whose reply was skipped (no data, or no anchor column) is all zero in the result, even when that reply had a column for it |
| Trends.FirstReplyColumnsKept | utils/trends.py:60-92 | a keyword column of the first reply reaches the result with NaN replaced by 0 |
| Trends.LaterBatchMerged | utils/trends.py:66-82 | with an honest oracle, an accepted later batch's column is a keyword of that batch and enters the table multiplied by the scale the two anchor means fix (0 when the batch anchor mean is 0, NaN when a mean is NaN), fitted to the table's rows |
| Trends.LaterReplyColumnsScaled | utils/trends.py:70-92 | with an honest oracle, a later reply's column reaches the result multiplied by the scale its anchor mean fixes, fitted to the rows, with NaN replaced by 0 |
| Trends.ZeroAnchorMeanReachesResultAsZeros | utils/trends.py:72-90 | a later reply whose anchor mean is 0 contributes only zeros to the result |
| Frames.ZeroScaleGivesZeros | utils/trends.py:73-90 | a column scaled by 0, then coerced, is all zeros: the NaN cells that survive scaling by 0 become 0 |
| Trends.NoBaselineFreezes | utils/trends.py:66-69 | without a baseline from the first batch, every later batch is skipped |
| Trends.HonestResultIff | utils/trends.py:53-93 | with distinct keywords and an honest oracle, the batched fetch succeeds exactly when no request raised and the first reply had data with a column other than `isPartial` |
| Ranking.LatestScores | utils/trends.py:156 | `iloc[-1].reindex(keywords).fillna(0)`: one entry per keyword, in keyword order, whose score is the last cell (NaN or a missing column count as 0) |
| Ranking.InsertPermutes | utils/trends.py:156 | inserting into the sorted list adds exactly that entry |
| Ranking.InsertSorted | utils/trends.py:156 | inserting keeps the list in non-increasing score order |
| Ranking.SortDescSorted | utils/trends.py:156 | `sort_values(ascending=False)` yields non-increasing scores |
| Ranking.SortDescPermutes | utils/trends.py:156 | the sort is a permutation of its input |
| Ranking.SortDescKeepsTitles | utils/trends.py:156 | the sort keeps every title, as often as it occurs |
| Ranking.RankingCorrect | utils/trends.py:163-167 | the ranking has one row per keyword, ranks 1..n, non-increasing scores, and each row's score is its title's latest score (0 when missing) |
| Ranking.ResultHasRows | utils/trends.py:154-156 | every result the fetcher returns has a last row to rank |

## Left out

- Streamlit rendering, spinners, tabs, charts and the `st.error` message: these are UI. An exception only shows up as the `None` result.
- The `st.cache_data` time-to-live cache: a framework memoisation that does not change any result.
- pytrends (`TrendReq`, `build_payload`, `interest_over_time`) is a foreign library and the network. It is an oracle parameter, one reply per batch. The fixed `timeframe='now 7-d'`, `hl` and `tz` arguments are therefore not parameters.
- `get_show_trend_score`, `utils/bigquery_data.py`, `utils/sidebar.py`, the pages and `app.py`'s placeholder formulas are not part of this model. They are UI, SQL or float arithmetic that feeds only the UI.
- Frames.Concat: lines columns up by position (cutting or padding with NaN) rather than by pandas' timestamp index. Every reply is assumed to share one index.
- Merging.AcceptedBatchAppends: says which columns the table gains, not in what order. The accumulated grid has no column order, because the reindex at line 92 discards it.
- Merging.ClashingBatchRecorded: records a duplicate column as a clash flag rather than as a duplicated pandas column. The finalisation raises on such a table, so the fetch returns `None`.
- Cells are `real`, not IEEE floats. `to_numeric(errors='coerce')` can turn a non-numeric string into NaN. The model's cells are already numbers or NaN, so it has no separate unparseable-string case.
- Ranking.SortDescSorted: the sort is stable; pandas' default sort is not, so nothing is claimed about the order of equal scores.
- Trends.GetNetflixTrends: needs distinct keywords when there are more than five. Repeated keywords would create duplicate pandas columns, whose behaviour is not modelled.
