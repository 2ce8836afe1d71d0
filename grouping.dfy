/** The strategy view and the radar data: rows grouped by strategy in a fixed display order,
    and the mean scores of each strategy computed over that strategy's own rows. */
module Grouping {
  import opened Stats
  import opened Ipa

  /** One entry of the strategy view: a strategy, its rows in input order, and the item count
      shown beside it. */
  datatype Group = Group(strategy: Strategy, members: seq<Row>, count: nat)

  /** The order in which the strategy view lists the strategies. */
  const DisplayOrder: seq<Strategy> := [ImproveFirst, Retain, Overinvested, LowPriority]

  /** A strategy's position in the display order; every strategy has one. */
  function Rank(s: Strategy): (k: nat)
    ensures k < |DisplayOrder| && DisplayOrder[k] == s
  {
    match s
    case ImproveFirst => 0
    case Retain => 1
    case Overinvested => 2
    case LowPriority => 3
  }

  /** The rows whose strategy column equals `s`, kept in input order. */
  function RowsWith(rows: seq<Row>, s: Strategy): (r: seq<Row>)
    ensures |r| <= |rows|
  {
    if rows == [] then []
    else (if rows[0].strategy == s then [rows[0]] else []) + RowsWith(rows[1..], s)
  }

  /** The filtered rows are exactly the rows that carry `s`. */
  lemma {:induction false} RowsWithExactly(rows: seq<Row>, s: Strategy)
    ensures forall x :: x in RowsWith(rows, s) <==> x in rows && x.strategy == s
  {
    if rows != [] {
      RowsWithExactly(rows[1..], s);
      assert rows == [rows[0]] + rows[1..];
    }
  }

  /** Filtering distributes over concatenation, so it never reorders rows. */
  lemma {:induction false} RowsWithAppend(a: seq<Row>, b: seq<Row>, s: Strategy)
    ensures RowsWith(a + b, s) == RowsWith(a, s) + RowsWith(b, s)
  {
    if a == [] {
      assert a + b == b;
    } else {
      var head := if a[0].strategy == s then [a[0]] else [];
      assert (a + b)[0] == a[0] && (a + b)[1..] == a[1..] + b;
      RowsWithAppend(a[1..], b, s);
      assert RowsWith(a + b, s) == head + (RowsWith(a[1..], s) + RowsWith(b, s));
      assert RowsWith(a, s) == head + RowsWith(a[1..], s);
    }
  }

  /** Every row lands in exactly one strategy's rows, so the four filters together hold
      as many rows as the data frame. */
  lemma {:induction false} StrategiesPartitionRows(rows: seq<Row>)
    ensures |RowsWith(rows, ImproveFirst)| + |RowsWith(rows, Retain)|
            + |RowsWith(rows, Overinvested)| + |RowsWith(rows, LowPriority)| == |rows|
  {
    if rows != [] {
      StrategiesPartitionRows(rows[1..]);
    }
  }

  /** The number of rows in the first `k` strategies of the display order. */
  function CountUpTo(rows: seq<Row>, k: nat): nat
    requires k <= |DisplayOrder|
  {
    if k == 0 then 0 else CountUpTo(rows, k - 1) + |RowsWith(rows, DisplayOrder[k - 1])|
  }

  /** The sum of the counts shown for the groups. */
  function TotalCount(groups: seq<Group>): nat
  {
    if groups == [] then 0 else TotalCount(groups[..|groups| - 1]) + groups[|groups| - 1].count
  }

  /** `g` lists exactly the rows that carry its strategy, in input order, with their count,
      and is not empty. */
  ghost predicate ListsItsRows(rows: seq<Row>, g: Group)
  {
    g.members == RowsWith(rows, g.strategy) && g.count == |g.members| && g.count > 0
  }

  /** The strategies of the emitted groups, in emission order. */
  function Strategies(groups: seq<Group>): seq<Strategy>
  {
    seq(|groups|, i requires 0 <= i < |groups| => groups[i].strategy)
  }

  /** Taken over the whole display order, the per-strategy counts add up to the row count. */
  lemma CountAllRows(rows: seq<Row>)
    ensures CountUpTo(rows, |DisplayOrder|) == |rows|
  {
    assert DisplayOrder[0] == ImproveFirst && DisplayOrder[1] == Retain;
    assert DisplayOrder[2] == Overinvested && DisplayOrder[3] == LowPriority;
    assert CountUpTo(rows, 1) == |RowsWith(rows, ImproveFirst)|;
    assert CountUpTo(rows, 2) == CountUpTo(rows, 1) + |RowsWith(rows, Retain)|;
    assert CountUpTo(rows, 3) == CountUpTo(rows, 2) + |RowsWith(rows, Overinvested)|;
    assert CountUpTo(rows, 4) == CountUpTo(rows, 3) + |RowsWith(rows, LowPriority)|;
    StrategiesPartitionRows(rows);
  }

  /** Every emitted group lists exactly its strategy's rows. */
  ghost predicate AllListTheirRows(rows: seq<Row>, groups: seq<Group>)
  {
    forall i :: 0 <= i < |groups| ==> ListsItsRows(rows, groups[i])
  }

  /** The emitted groups come from the first `k` strategies, in display order. */
  ghost predicate InDisplayOrderBelow(groups: seq<Group>, k: nat)
  {
    && (forall i :: 0 <= i < |groups| ==> Rank(groups[i].strategy) < k)
    && (forall i, j :: 0 <= i < j < |groups| ==> Rank(groups[i].strategy) < Rank(groups[j].strategy))
  }

  /** Among the first `k` strategies, exactly those that some row carries have a group. */
  ghost predicate CoversBelow(rows: seq<Row>, groups: seq<Group>, k: nat)
  {
    forall s :: Rank(s) < k ==> (RowsWith(rows, s) != [] <==> s in Strategies(groups))
  }

  /** The groups after the strategy view has handled the `k`-th strategy of the display order. */
  function EmitNext(rows: seq<Row>, groups: seq<Group>, k: nat): seq<Group>
    requires k < |DisplayOrder|
  {
    var filtered := RowsWith(rows, DisplayOrder[k]);
    if filtered == [] then groups else groups + [Group(DisplayOrder[k], filtered, |filtered|)]
  }

  /** An emitted group lists its strategy's rows. */
  lemma EmitKeepsLists(rows: seq<Row>, groups: seq<Group>, k: nat)
    requires k < |DisplayOrder| && AllListTheirRows(rows, groups)
    ensures AllListTheirRows(rows, EmitNext(rows, groups, k))
  {
  }

  /** The next group comes after every earlier one in the display order. */
  lemma EmitKeepsOrder(rows: seq<Row>, groups: seq<Group>, k: nat)
    requires k < |DisplayOrder| && InDisplayOrderBelow(groups, k)
    ensures InDisplayOrderBelow(EmitNext(rows, groups, k), k + 1)
  {
  }

  /** The next strategy gets a group exactly when some row carries it. */
  lemma EmitKeepsCover(rows: seq<Row>, groups: seq<Group>, k: nat)
    requires k < |DisplayOrder| && InDisplayOrderBelow(groups, k) && CoversBelow(rows, groups, k)
    ensures CoversBelow(rows, EmitNext(rows, groups, k), k + 1)
  {
    var strategy := DisplayOrder[k];
    var after := EmitNext(rows, groups, k);
    assert Rank(strategy) == k;
    if after != groups {
      assert Strategies(after) == Strategies(groups) + [strategy];
    }
    forall s | Rank(s) == k
      ensures RowsWith(rows, s) != [] <==> s in Strategies(after)
    {
      assert s == strategy;
      if RowsWith(rows, s) == [] {
        assert s !in Strategies(groups);
      }
    }
  }

  /** The next group's count adds that strategy's rows to the total. */
  lemma EmitKeepsCount(rows: seq<Row>, groups: seq<Group>, k: nat)
    requires k < |DisplayOrder| && TotalCount(groups) == CountUpTo(rows, k)
    ensures TotalCount(EmitNext(rows, groups, k)) == CountUpTo(rows, k + 1)
  {
  }

  /** The strategy view: walks the display order, filters the rows of each strategy and emits
      a group only when that strategy has rows. The groups come in display order, each holds
      exactly its strategy's rows in input order with their count, a strategy has a group
      exactly when some row carries it, and the counts add up to the number of rows. */
  method GroupForDisplay(rows: seq<Row>) returns (groups: seq<Group>)
    ensures forall i :: 0 <= i < |groups| ==> ListsItsRows(rows, groups[i])
    ensures forall i, j :: 0 <= i < j < |groups| ==> Rank(groups[i].strategy) < Rank(groups[j].strategy)
    ensures forall s :: RowsWith(rows, s) != [] <==> s in Strategies(groups)
    ensures TotalCount(groups) == |rows|
  {
    groups := [];
    for k := 0 to |DisplayOrder|
      invariant AllListTheirRows(rows, groups)
      invariant InDisplayOrderBelow(groups, k)
      invariant CoversBelow(rows, groups, k)
      invariant TotalCount(groups) == CountUpTo(rows, k)
    {
      var strategy := DisplayOrder[k];
      var filtered := RowsWith(rows, strategy);
      ghost var before := groups;
      if filtered != [] {
        groups := groups + [Group(strategy, filtered, |filtered|)];
      }
      assert groups == EmitNext(rows, before, k);
      EmitKeepsLists(rows, before, k);
      EmitKeepsOrder(rows, before, k);
      EmitKeepsCover(rows, before, k);
      EmitKeepsCount(rows, before, k);
    }
    CountAllRows(rows);
  }

  /** The survey records of some rows. */
  function Records(rows: seq<Row>): seq<Record>
  {
    seq(|rows|, i requires 0 <= i < |rows| => rows[i].rec)
  }

  /** The radar data: for each strategy that some row carries, the column means taken over
      that strategy's own rows. */
  function GroupMeans(rows: seq<Row>): (gm: map<Strategy, AxisMeans>)
    ensures forall s :: s in gm <==> RowsWith(rows, s) != []
    ensures forall s :: s in gm ==> gm[s] == Means(Records(RowsWith(rows, s)))
  {
    var gm := map s | s in DisplayOrder && RowsWith(rows, s) != [] :: Means(Records(RowsWith(rows, s)));
    forall s | RowsWith(rows, s) != []
      ensures s in gm
    {
      assert DisplayOrder[Rank(s)] == s;
    }
    gm
  }

  /** The mean point `p` lies in the quadrant of `s` relative to the means `m`. */
  predicate InQuadrant(p: AxisMeans, m: AxisMeans, s: Strategy)
  {
    (p.imp >= m.imp <==> s.HighImportance()) && (p.perf >= m.perf <==> s.HighPerformance())
  }

  /** Each record of a strategy's rows classifies as that strategy. */
  lemma MembersClassifiedAs(rows: seq<Row>, m: AxisMeans, s: Strategy)
    requires ClassifiedBy(rows, m)
    ensures var members := Records(RowsWith(rows, s));
            forall i :: 0 <= i < |members| ==> Classify(members[i], m) == s
  {
    var members := Records(RowsWith(rows, s));
    RowsWithExactly(rows, s);
    forall i | 0 <= i < |members|
      ensures Classify(members[i], m) == s
    {
      var x := RowsWith(rows, s)[i];
      assert x in rows;
      var j :| 0 <= j < |rows| && rows[j] == x;
    }
  }

  /** Records that all classify as `s` have their mean point in the quadrant of `s`. */
  lemma MeansOfOneQuadrant(recs: seq<Record>, m: AxisMeans, s: Strategy)
    requires |recs| > 0
    requires forall i :: 0 <= i < |recs| ==> Classify(recs[i], m) == s
    ensures InQuadrant(Means(recs), m, s)
  {
    var imps, perfs := Importances(recs), Performances(recs);
    if s.HighImportance() {
      MeanAtLeast(imps, m.imp);
    } else {
      MeanBelow(imps, m.imp);
    }
    if s.HighPerformance() {
      MeanAtLeast(perfs, m.perf);
    } else {
      MeanBelow(perfs, m.perf);
    }
  }

  /** The mean point of one strategy's rows lies in that strategy's own quadrant. */
  lemma GroupMeanInOwnQuadrant(rows: seq<Row>, m: AxisMeans, s: Strategy)
    requires ClassifiedBy(rows, m)
    requires RowsWith(rows, s) != []
    ensures s in GroupMeans(rows)
    ensures InQuadrant(GroupMeans(rows)[s], m, s)
  {
    var members := Records(RowsWith(rows, s));
    MembersClassifiedAs(rows, m, s);
    MeansOfOneQuadrant(members, m, s);
    assert GroupMeans(rows)[s] == Means(members);
  }

  /** Every strategy's mean point lies in its own quadrant of the global means. */
  lemma GroupMeansInOwnQuadrants(rows: seq<Row>, m: AxisMeans)
    requires ClassifiedBy(rows, m)
    ensures forall s :: s in GroupMeans(rows) ==> InQuadrant(GroupMeans(rows)[s], m, s)
  {
    forall s | s in GroupMeans(rows)
      ensures InQuadrant(GroupMeans(rows)[s], m, s)
    {
      GroupMeanInOwnQuadrant(rows, m, s);
    }
  }
}
