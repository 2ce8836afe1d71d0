/** Two small datasets worked through the whole analysis. */
module Scenarios {
  import opened Stats
  import opened Ipa
  import opened Grouping

  /** One item in each corner of a 1-to-5 scale. */
  function Corners(): seq<Record>
  {
    [Record("A", 5.0, 5.0), Record("B", 1.0, 1.0), Record("C", 5.0, 1.0), Record("D", 1.0, 5.0)]
  }

  /** Both means are 3, and A, B, C and D fall into Retain, LowPriority, ImproveFirst and
      Overinvested respectively. */
  lemma CornersScenario(recs: seq<Record>)
    requires recs == Corners()
    ensures Means(recs) == AxisMeans(3.0, 3.0)
    ensures Annotate(recs)[0].strategy == Retain
    ensures Annotate(recs)[1].strategy == LowPriority
    ensures Annotate(recs)[2].strategy == ImproveFirst
    ensures Annotate(recs)[3].strategy == Overinvested
  {
    var imps, perfs := Importances(recs), Performances(recs);
    assert imps == [5.0, 1.0, 5.0, 1.0] && perfs == [5.0, 1.0, 1.0, 5.0];
    assert imps[3..][1..] == [] && Sum(imps[3..]) == 1.0;
    assert imps[2..][1..] == imps[3..] && Sum(imps[2..]) == 6.0;
    assert imps[1..][1..] == imps[2..] && Sum(imps[1..]) == 7.0;
    assert Sum(imps) == 12.0;
    assert perfs[3..][1..] == [] && Sum(perfs[3..]) == 5.0;
    assert perfs[2..][1..] == perfs[3..] && Sum(perfs[2..]) == 6.0;
    assert perfs[1..][1..] == perfs[2..] && Sum(perfs[1..]) == 7.0;
    assert Sum(perfs) == 12.0;
    assert Means(recs) == AxisMeans(3.0, 3.0);
  }

  /** Two strong items and one weak one: the global means are (3, 3). */
  function Skewed(): seq<Record>
  {
    [Record("A", 5.0, 5.0), Record("B", 4.0, 4.0), Record("C", 0.0, 0.0)]
  }

  /** A and B are retained and C is low priority. */
  lemma SkewedLabels(recs: seq<Record>)
    requires recs == Skewed()
    ensures Means(recs) == AxisMeans(3.0, 3.0)
    ensures Annotate(recs)[0].strategy == Retain
    ensures Annotate(recs)[1].strategy == Retain
    ensures Annotate(recs)[2].strategy == LowPriority
  {
  }

  /** Rows labelled as in the skewed dataset. */
  ghost predicate LabelledLikeSkewed(rows: seq<Row>)
  {
    && |rows| == 3
    && rows[0].rec.imp == 5.0 && rows[0].rec.perf == 5.0 && rows[0].strategy == Retain
    && rows[1].rec.imp == 4.0 && rows[1].rec.perf == 4.0 && rows[1].strategy == Retain
    && rows[2].rec.imp == 0.0 && rows[2].rec.perf == 0.0 && rows[2].strategy == LowPriority
  }

  /** Filtering such rows by strategy, one step at a time. */
  lemma SkewedFilters(rows: seq<Row>)
    requires LabelledLikeSkewed(rows)
    ensures RowsWith(rows, Retain) == [rows[0], rows[1]]
    ensures RowsWith(rows, LowPriority) == [rows[2]]
    ensures RowsWith(rows, ImproveFirst) == [] && RowsWith(rows, Overinvested) == []
  {
    var last := rows[2..];
    assert last[1..] == [];
    assert RowsWith(last, Retain) == [] && RowsWith(last, LowPriority) == [rows[2]];
    assert RowsWith(last, ImproveFirst) == [] && RowsWith(last, Overinvested) == [];
    var mid := rows[1..];
    assert mid[1..] == last;
    assert RowsWith(mid, Retain) == [rows[1]] && RowsWith(mid, LowPriority) == [rows[2]];
    assert RowsWith(mid, ImproveFirst) == [] && RowsWith(mid, Overinvested) == [];
  }

  /** For such rows the retained group's own means are (4.5, 4.5), not the global (3, 3),
      and the low-priority group's are (0, 0). */
  lemma SkewedGroupMeans(rows: seq<Row>)
    requires LabelledLikeSkewed(rows)
    ensures Retain in GroupMeans(rows) && LowPriority in GroupMeans(rows)
    ensures ImproveFirst !in GroupMeans(rows) && Overinvested !in GroupMeans(rows)
    ensures GroupMeans(rows)[Retain] == AxisMeans(4.5, 4.5)
    ensures GroupMeans(rows)[LowPriority] == AxisMeans(0.0, 0.0)
  {
    SkewedFilters(rows);
    var retained, low := Records([rows[0], rows[1]]), Records([rows[2]]);
    assert Importances(retained) == [5.0, 4.0] && Performances(retained) == [5.0, 4.0];
    assert Importances(low) == [0.0] && Performances(low) == [0.0];
    assert [5.0, 4.0][1..] == [4.0];
    assert Mean([5.0, 4.0]) == 4.5;
    assert Mean([0.0]) == 0.0;
  }

  /** The skewed dataset's global means are (3, 3), yet its radar data uses each group's own
      rows: the retained group's point is (4.5, 4.5). */
  lemma SkewedScenario(recs: seq<Record>)
    requires recs == Skewed()
    ensures Means(recs) == AxisMeans(3.0, 3.0)
    ensures var gm := GroupMeans(Annotate(recs));
            Retain in gm && gm[Retain] == AxisMeans(4.5, 4.5)
            && LowPriority in gm && gm[LowPriority] == AxisMeans(0.0, 0.0)
  {
    var rows := Annotate(recs);
    SkewedLabels(recs);
    assert rows[0].rec == recs[0] && rows[1].rec == recs[1] && rows[2].rec == recs[2];
    assert LabelledLikeSkewed(rows);
    SkewedGroupMeans(rows);
  }
}
