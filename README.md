# ESG IPA classifier — a Dafny model

This project models the computational core of an ESG survey dashboard. The dashboard performs an
Importance-Performance Analysis (IPA). An uploaded sheet lists survey items. Each item has an
`Importance` score and a `Performance` score. The dashboard does the following:

- It takes the mean of each score column over all rows.
- It places every item in one of four quadrant strategies relative to those means: 유지 (Retain),
  개선 우선 (ImproveFirst), 과잉 노력 (Overinvested) and 저우선순위 (LowPriority). A score equal to
  its mean counts as high.
- It attaches a fixed recommendation message to each row according to its strategy.
- It lists the items strategy by strategy in the fixed order ImproveFirst, Retain, Overinvested,
  LowPriority. Each list shows its item count, and a strategy without items is skipped.
- For the radar chart, it computes the mean scores of each strategy over that strategy's own rows.

Scores are Dafny `real`s, so the means are exact. The code computes them in floating point, and
rounding can move a mean across the scores that equal it (see "## Left out"). The data frame
the script extends column by column is modelled as a sequence of values. The strategy column
(`Ipa.LabelRows`) and the recommendation column (`Ipa.AttachAdvice`) each produce a new
sequence. `Ipa.Annotate` is the frame once both columns are in place. The strategy view is a
loop over the fixed display order (`Grouping.GroupForDisplay`), and its invariants carry order,
non-emptiness and the count sum.

Files:

- `stats.dfy` (module `Stats`): `Sum` and `Mean` of real scores. It also has the bounds every mean
  obeys: scores all at least `lo` have a mean of at least `lo`, scores all below `hi` have a mean
  below `hi`, and some score is at or above the mean while some score is at or below it.
- `ipa.dfy` (module `Ipa`): records, the means of the columns, the classification, the
  recommendations and the two added columns.
- `grouping.dfy` (module `Grouping`): filtering by strategy, the strategy view and the radar
  data (the per-strategy means).
- `scenarios.dfy` (module `Scenarios`): two small datasets worked through the whole analysis.

The main proved results are these:

- The four quadrants partition every pair of scores, with the closed-high boundary.
- Each strategy gets a different recommendation.
- The strategy view has the properties listed above: display order, no empty groups, exact
  members in input order, and counts that add up to the row count.

Three more results hold for exact means. Floating-point means can break them when a score ties
with its mean (see "## Left out"):

- Some row always lies on the high side of each axis.
- A dataset whose rows all have the same scores is retained entirely.
- Each strategy's mean point lies in that strategy's own quadrant of the global means. This holds
  because the radar means are taken over each strategy's own rows only.

## Model

| member | source | states |
|---|---|---|
| `Ipa.Means` | app.py:29-30 | each mean is the arithmetic mean of its whole column; some row is at or above and some row at or below each mean |
| `Ipa.MeansAreSumOverCount` | app.py:29-30 | each mean times the row count equals its column's sum |
| `Ipa.Classify` | app.py:33-41 | the strategy is on the high importance side exactly when importance >= the importance mean, and on the high performance side exactly when performance >= the performance mean |
| `Ipa.QuadrantsDisjoint` | app.py:33-41 | the two sides determine the strategy, so no two strategies share a quadrant |
| `Ipa.ClassifyTable` | app.py:34-41 | the decision table: each of the four strategies holds exactly when its pair of comparisons holds (>= high, < low) |
| `Ipa.OnBothMeansIsRetain` | app.py:34-35 | a row lying exactly on both means is Retain |
| `Ipa.LabelRows` | app.py:43 | the strategy column has one entry per row, in row order; row i keeps its record and gets the strategy of row i against the means |
| `Ipa.NamesDistinct` | app.py:35-41 | the four labels written into the 전략 column are pairwise distinct, so a label determines its strategy |
| `Ipa.SuggestDistinguishes` | app.py:92-100 | the recommendation messages of two strategies' labels are equal exactly when the strategies are equal |
| `Ipa.SuggestCatchAll` | app.py:92-100 | a label gets the low-priority message exactly when it is none of the three labels 유지, 개선 우선, 과잉 노력, so any other string falls through to it |
| `Ipa.AttachAdvice` | app.py:102 | the recommendation column has one entry per row, in row order; each row keeps its record and strategy and gets the message for its strategy label |
| `Ipa.Annotate` | app.py:29-43 | the frame after both columns are added has the input rows in order, each labelled against the means of the current rows and given its strategy's message |
| `Ipa.HighSidesOccupied` | app.py:29-41 | some row is on the high importance side and some row is on the high performance side |
| `Ipa.UniformDatasetIsRetained` | app.py:29-43 | when all rows have the same scores, every row is Retain |
| `Grouping.Rank` | app.py:104 | every strategy has a position in the display order ImproveFirst, Retain, Overinvested, LowPriority |
| `Grouping.RowsWith` | app.py:105 | the filtered rows are never more than the rows |
| `Grouping.RowsWithExactly` | app.py:105 | a row is in a strategy's filter exactly when it is in the frame and carries that strategy |
| `Grouping.RowsWithAppend` | app.py:105 | filtering distributes over concatenation, so it keeps the input order |
| `Grouping.StrategiesPartitionRows` | app.py:104-105 | the four strategy filters together hold exactly as many rows as the frame |
| `Grouping.GroupForDisplay` | app.py:104-109 | groups come in display order; each holds exactly its strategy's rows in input order, with count = its length > 0; a strategy has a group exactly when some row carries it; counts sum to the row count |
| `Grouping.GroupMeans` | app.py:114 | the radar data has a key exactly for each strategy some row carries; its value is the column means of that strategy's own rows |
| `Grouping.MembersClassifiedAs` | app.py:105 | in rows classified against some means, every record of a strategy's filter classifies as that strategy |
| `Grouping.MeansOfOneQuadrant` | app.py:114 | records that all lie in one strategy's quadrant have their mean point in that quadrant too |
| `Grouping.GroupMeanInOwnQuadrant` | app.py:114 | for rows classified against the global means, a strategy some row carries has radar data, and its mean point is on that strategy's side of each global mean |
| `Grouping.GroupMeansInOwnQuadrants` | app.py:114 | every strategy present has its mean point in its own quadrant of the global means |
| `Scenarios.CornersScenario` | app.py:29-43 | items at (5,5), (1,1), (5,1), (1,5) give means (3,3) and the labels Retain, LowPriority, ImproveFirst, Overinvested |
| `Scenarios.SkewedGroupMeans` | app.py:114 | rows (5,5) Retain, (4,4) Retain, (0,0) LowPriority give radar means (4.5,4.5) and (0,0), with no key for the two absent strategies |
| `Scenarios.SkewedScenario` | app.py:29-114 | the dataset (5,5), (4,4), (0,0) has global means (3,3) but a Retain radar mean of (4.5,4.5) |

## Left out

- Page setup, title, captions, tabs, metrics, markdown, expanders and the final table are
  rendering only (app.py:15-23, 53-59, 71-90, 107, 109, 112, 135-136).
- The expander's initial expanded state is rendering only, so it is not modelled.
- Reading the spreadsheet (app.py:26) is I/O through a library. The model starts from an
  already parsed sequence of `Record`s.
- The scatter plot, the radar drawing and the font setup are presentation (app.py:8-12, 60-69,
  116-132). The radar angles are floating-point geometry.
- The colour map (app.py:45-50) and the two-decimal display of the means (app.py:73-74) are
  display only.
- Floating point and NaN are not modelled. The code never checks for an empty sheet, and pandas
  then yields NaN means. A NaN comparison falls through to 저우선순위. The model uses `real`
  and excludes an empty dataset by a `requires` on `Ipa.Means` and `Ipa.Annotate`. A text cell
  in a score column makes pandas' mean raise at app.py:29-30, which stops the script; that
  failure is not modelled, and neither are missing cells.
- Ipa.UniformDatasetIsRetained: holds only for exact means. Three rows at (3.7, 3.7) have the
  floating-point mean 3.7000000000000006, so the code labels all three 저우선순위.
- Ipa.HighSidesOccupied: holds only for exact means. For the same three rows at (3.7, 3.7) no
  row is at or above either floating-point mean.
- Grouping.GroupMeansInOwnQuadrants: holds only for exact means. For the same three rows the
  저우선순위 radar point equals the global mean point, which lies in the 유지 quadrant.
- Grouping.GroupMeanInOwnQuadrant: holds only for exact means, for the same reason and with the
  same three rows at (3.7, 3.7).
- Integer scores of ordinary size (such as a 1-to-5 survey scale) are not affected by this
  rounding: their sums are exact in floating point and each mean is the correctly rounded
  quotient. Rounding is monotone and leaves an integer unchanged, so each score compares with a
  mean as in the exact model. Two rounded means (a radar point against a global mean) also
  compare as in the exact model as long as distinct exact means differ by more than a rounding
  step, which they do for survey-sized data.
- The data frame is updated in place by adding columns (app.py:43, 102). The model passes values
  instead, so the sharing of one frame object between the tabs is not captured.
- `groupby` sorts its keys, and that order only affects the drawing order of the radar chart.
  `Grouping.GroupMeans` is a map, so it has no order.
- The strategy labels are Korean strings in the code. The model uses the enumeration `Strategy`,
  and `Ipa.Name` gives each strategy's label. The recommendation lookup (`Ipa.Suggest`) works on
  the label string, as the code does, so its catch-all branch is kept.
