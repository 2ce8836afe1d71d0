/** Importance-Performance Analysis of ESG survey items: the axis means of a dataset,
    the quadrant strategy of each item, and the fixed recommendation per strategy. */
module Ipa {
  import opened Stats

  /** One parsed survey row: the `Item` code and its `Importance` and `Performance` scores. */
  datatype Record = Record(item: string, imp: real, perf: real)

  /** The two reference lines of the quadrant chart. */
  datatype AxisMeans = AxisMeans(imp: real, perf: real)

  /** The four quadrant strategies, labelled 유지, 개선 우선, 과잉 노력 and 저우선순위. */
  datatype Strategy = Retain | ImproveFirst | Overinvested | LowPriority
  {
    /** The strategy sits on the high side of the importance axis. */
    predicate HighImportance()
    {
      this == Retain || this == ImproveFirst
    }

    /** The strategy sits on the high side of the performance axis. */
    predicate HighPerformance()
    {
      this == Retain || this == Overinvested
    }
  }

  /** A row once the strategy column has been added. */
  datatype Classified = Classified(rec: Record, strategy: Strategy)

  /** A row once the recommendation column has been added as well. */
  datatype Row = Row(rec: Record, strategy: Strategy, advice: string)

  /** The strategy label written into the data frame. */
  function Name(s: Strategy): string
  {
    match s
    case Retain => "유지"
    case ImproveFirst => "개선 우선"
    case Overinvested => "과잉 노력"
    case LowPriority => "저우선순위"
  }

  /** The `Importance` column. */
  function Importances(recs: seq<Record>): seq<real>
  {
    seq(|recs|, i requires 0 <= i < |recs| => recs[i].imp)
  }

  /** The `Performance` column. */
  function Performances(recs: seq<Record>): seq<real>
  {
    seq(|recs|, i requires 0 <= i < |recs| => recs[i].perf)
  }

  /** The column means over all rows: each is the arithmetic mean of its whole column, and
      each lies within its column's range (some row is at or above it, some at or below). */
  function Means(recs: seq<Record>): (m: AxisMeans)
    requires |recs| > 0
    ensures m.imp == Mean(Importances(recs)) && m.perf == Mean(Performances(recs))
    ensures exists i :: 0 <= i < |recs| && Importances(recs)[i] >= m.imp
    ensures exists i :: 0 <= i < |recs| && Importances(recs)[i] <= m.imp
    ensures exists i :: 0 <= i < |recs| && Performances(recs)[i] >= m.perf
    ensures exists i :: 0 <= i < |recs| && Performances(recs)[i] <= m.perf
  {
    var imps := Importances(recs);
    var perfs := Performances(recs);
    MeanWithinRange(imps);
    MeanWithinRange(perfs);
    AxisMeans(Mean(imps), Mean(perfs))
  }

  /** Each column mean is the column's sum divided by the row count. */
  lemma MeansAreSumOverCount(recs: seq<Record>)
    requires |recs| > 0
    ensures Means(recs).imp * (|recs| as real) == Sum(Importances(recs))
    ensures Means(recs).perf * (|recs| as real) == Sum(Performances(recs))
  {
  }

  /** The cascade of comparisons against the two means. Its result is the strategy whose
      quadrant holds the row, a value equal to a mean counting as high on that axis. */
  function Classify(r: Record, m: AxisMeans): (s: Strategy)
    ensures s.HighImportance() <==> r.imp >= m.imp
    ensures s.HighPerformance() <==> r.perf >= m.perf
  {
    if r.imp >= m.imp && r.perf >= m.perf then Retain
    else if r.imp >= m.imp && r.perf < m.perf then ImproveFirst
    else if r.imp < m.imp && r.perf >= m.perf then Overinvested
    else LowPriority
  }

  /** The two sides determine the strategy: the four quadrants do not overlap. */
  lemma QuadrantsDisjoint(s: Strategy, t: Strategy)
    ensures s.HighImportance() == t.HighImportance() && s.HighPerformance() == t.HighPerformance()
            <==> s == t
  {
  }

  /** The decision table, one row per strategy. */
  lemma ClassifyTable(r: Record, m: AxisMeans)
    ensures Classify(r, m) == Retain <==> r.imp >= m.imp && r.perf >= m.perf
    ensures Classify(r, m) == ImproveFirst <==> r.imp >= m.imp && r.perf < m.perf
    ensures Classify(r, m) == Overinvested <==> r.imp < m.imp && r.perf >= m.perf
    ensures Classify(r, m) == LowPriority <==> r.imp < m.imp && r.perf < m.perf
  {
  }

  /** A row exactly on both means is retained. */
  lemma OnBothMeansIsRetain(item: string, m: AxisMeans)
    ensures Classify(Record(item, m.imp, m.perf), m) == Retain
  {
  }

  /** The strategy column: one label per row, in row order, each from its own row and the means. */
  function LabelRows(recs: seq<Record>, m: AxisMeans): (rows: seq<Classified>)
    ensures |rows| == |recs|
    ensures forall i :: 0 <= i < |recs| ==> rows[i].rec == recs[i] && rows[i].strategy == Classify(recs[i], m)
  {
    if recs == [] then []
    else [Classified(recs[0], Classify(recs[0], m))] + LabelRows(recs[1..], m)
  }

  /** The recommendation for a strategy label; any label other than the first three gets the
      low-priority message. */
  function Suggest(strategy: string): string
  {
    if strategy == "유지" then "✅ 현재 수준을 유지하세요. 잘 관리되고 있습니다."
    else if strategy == "개선 우선" then "🔺 중요도가 높지만 수행도가 낮습니다. 빠른 개선이 필요합니다."
    else if strategy == "과잉 노력" then "🟠 중요도에 비해 과도한 자원이 투입되고 있습니다. 자원 재배치를 고려하세요."
    else "⚪ 현재는 우선순위가 낮습니다. 자원을 집중하지 않아도 됩니다."
  }

  /** Distinct strategies get distinct labels, so the strategy column determines the strategy. */
  lemma NamesDistinct(s: Strategy, t: Strategy)
    ensures Name(s) == Name(t) <==> s == t
  {
  }

  /** Distinct strategies get distinct recommendations. */
  lemma SuggestDistinguishes(s: Strategy, t: Strategy)
    ensures Suggest(Name(s)) == Suggest(Name(t)) <==> s == t
  {
  }

  /** A label gets the low-priority message exactly when it is none of the first three labels. */
  lemma SuggestCatchAll(strategy: string)
    ensures Suggest(strategy) == Suggest(Name(LowPriority))
            <==> strategy != Name(Retain) && strategy != Name(ImproveFirst) && strategy != Name(Overinvested)
  {
  }

  /** The recommendation column: the row's recommendation, in row order, rows unchanged. */
  function AttachAdvice(rows: seq<Classified>): (out: seq<Row>)
    ensures |out| == |rows|
    ensures forall i :: 0 <= i < |rows| ==>
              out[i].rec == rows[i].rec && out[i].strategy == rows[i].strategy
              && out[i].advice == Suggest(Name(rows[i].strategy))
  {
    if rows == [] then []
    else [Row(rows[0].rec, rows[0].strategy, Suggest(Name(rows[0].strategy)))] + AttachAdvice(rows[1..])
  }

  /** Every row carries the strategy of its scores against `m` and that strategy's recommendation. */
  ghost predicate ClassifiedBy(rows: seq<Row>, m: AxisMeans)
  {
    forall i :: 0 <= i < |rows| ==>
      rows[i].strategy == Classify(rows[i].rec, m) && rows[i].advice == Suggest(Name(rows[i].strategy))
  }

  /** The data frame after both columns are added: means taken over the current rows,
      then every row labelled against them and given its recommendation. */
  function Annotate(recs: seq<Record>): (rows: seq<Row>)
    requires |recs| > 0
    ensures |rows| == |recs|
    ensures forall i :: 0 <= i < |recs| ==> rows[i].rec == recs[i]
    ensures ClassifiedBy(rows, Means(recs))
  {
    AttachAdvice(LabelRows(recs, Means(recs)))
  }

  /** Some row is on the high side of each axis, so Retain or ImproveFirst is always present,
      and so is Retain or Overinvested. */
  lemma HighSidesOccupied(recs: seq<Record>)
    requires |recs| > 0
    ensures exists i :: 0 <= i < |recs| && Annotate(recs)[i].strategy.HighImportance()
    ensures exists i :: 0 <= i < |recs| && Annotate(recs)[i].strategy.HighPerformance()
  {
    var m := Means(recs);
    var rows := Annotate(recs);
    var i :| 0 <= i < |recs| && Importances(recs)[i] >= m.imp;
    var j :| 0 <= j < |recs| && Performances(recs)[j] >= m.perf;
    assert rows[i].strategy.HighImportance();
    assert rows[j].strategy.HighPerformance();
  }

  /** When every row has the same scores, every row sits on both means and is retained. */
  lemma UniformDatasetIsRetained(recs: seq<Record>, imp: real, perf: real)
    requires |recs| > 0
    requires forall i :: 0 <= i < |recs| ==> recs[i].imp == imp && recs[i].perf == perf
    ensures forall i :: 0 <= i < |recs| ==> Annotate(recs)[i].strategy == Retain
  {
  }
}
