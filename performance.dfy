/** Phase-conditioned performance (main.py `analyze_performance`): a left
    join of each sector's quarterly returns onto the phase labels, keyed by
    quarter, and the mean return per phase in exact arithmetic. */
module Performance {
  import opened Rows
  import opened Phases
  import opened Returns
  import Arith

  /** One row of the merged frame that carries a phase. Return rows whose
      quarter has no GDP row get a missing phase in the left join and are
      dropped by `groupby('phase')`, so they never become a joined row. */
  datatype JoinedRow = JoinedRow(value: real, phase: Phase)

  /** GDP row `j` is labelled `p` and falls in quarter `q`. */
  predicate Labelled(phased: seq<PhasedRow>, j: int, q: int, p: Phase) {
    0 <= j < |phased| && phased[j].row.quarter == q && phased[j].phase == p
  }

  /** The phases of the GDP rows in quarter `q`, in table order. */
  function PhasesIn(phased: seq<PhasedRow>, q: int): seq<Phase> {
    if phased == [] then []
    else
      var n := |phased| - 1;
      PhasesIn(phased[..n], q) + (if phased[n].row.quarter == q then [phased[n].phase] else [])
  }

  /** A phase is among those of quarter `q` exactly when a GDP row of that
      quarter carries it. */
  lemma {:induction false} PhasesInMembers(phased: seq<PhasedRow>, q: int, p: Phase)
    ensures p in PhasesIn(phased, q) <==> exists j :: Labelled(phased, j, q, p)
  {
    if phased != [] {
      var n := |phased| - 1;
      PhasesInMembers(phased[..n], q, p);
      var last := if phased[n].row.quarter == q then [phased[n].phase] else [];
      assert PhasesIn(phased, q) == PhasesIn(phased[..n], q) + last;
      if p in last {
        assert Labelled(phased, n, q, p);
      }
      if exists j :: Labelled(phased[..n], j, q, p) {
        var j :| Labelled(phased[..n], j, q, p);
        assert Labelled(phased, j, q, p);
      }
      if exists j :: Labelled(phased, j, q, p) {
        var j :| Labelled(phased, j, q, p);
        if j < n {
          assert Labelled(phased[..n], j, q, p);
        } else {
          assert p in last;
        }
      }
    }
  }

  /** The merged rows of one return: one per GDP row of its quarter. */
  function JoinOne(r: QuarterReturn, phases: seq<Phase>): seq<JoinedRow> {
    seq(|phases|, k requires 0 <= k < |phases| => JoinedRow(r.value, phases[k]))
  }

  /** `pd.merge(returns, phase, how='left')` with the rows that found no
      phase left out. */
  function Join(rets: seq<QuarterReturn>, phased: seq<PhasedRow>): seq<JoinedRow> {
    if rets == [] then []
    else JoinOne(rets[0], PhasesIn(phased, rets[0].quarter)) + Join(rets[1..], phased)
  }

  /** Return `i` meets GDP row `j` in the join, giving value `v` and phase `p`. */
  predicate Meets(rets: seq<QuarterReturn>, phased: seq<PhasedRow>, i: int, j: int, v: real, p: Phase) {
    0 <= i < |rets| && rets[i].value == v && Labelled(phased, j, rets[i].quarter, p)
  }

  /** The return values of the joined rows labelled `p`. */
  function ReturnsIn(joined: seq<JoinedRow>, p: Phase): seq<real> {
    if joined == [] then []
    else
      var n := |joined| - 1;
      ReturnsIn(joined[..n], p) + (if joined[n].phase == p then [joined[n].value] else [])
  }

  function Sum(xs: seq<real>): real {
    if xs == [] then 0.0 else Sum(xs[..|xs| - 1]) + xs[|xs| - 1]
  }

  /** The arithmetic mean of a non-empty group. */
  function Mean(xs: seq<real>): real
    requires xs != []
  {
    Sum(xs) / (|xs| as real)
  }

  /** `groupby('phase')['returns'].mean()`: a phase is a key only when some
      joined row carries it. */
  function PhaseMeans(joined: seq<JoinedRow>): map<Phase, real> {
    var e := ReturnsIn(joined, Expansion);
    var r := ReturnsIn(joined, Recession);
    (if e != [] then map[Expansion := Mean(e)] else map[])
      + (if r != [] then map[Recession := Mean(r)] else map[])
  }

  /** The performance entry of one sector. */
  function SectorPerformance(rets: seq<QuarterReturn>, phased: seq<PhasedRow>): map<Phase, real> {
    PhaseMeans(Join(rets, phased))
  }

  /** `analyze_performance`: the per-sector loop filling the `performance`
      dict, in `quarterly_returns` order. */
  method AnalyzePerformance(quarterlyReturns: seq<(string, seq<QuarterReturn>)>, phased: seq<PhasedRow>)
    returns (performance: seq<(string, map<Phase, real>)>)
    ensures |performance| == |quarterlyReturns|
    ensures forall i :: 0 <= i < |quarterlyReturns| ==>
      performance[i] == (quarterlyReturns[i].0, SectorPerformance(quarterlyReturns[i].1, phased))
  {
    performance := [];
    for i := 0 to |quarterlyReturns|
      invariant |performance| == i
      invariant forall k :: 0 <= k < i ==>
        performance[k] == (quarterlyReturns[k].0, SectorPerformance(quarterlyReturns[k].1, phased))
    {
      var sector, sectorReturns := quarterlyReturns[i].0, quarterlyReturns[i].1;
      var merged := Join(sectorReturns, phased);
      performance := performance + [(sector, PhaseMeans(merged))];
    }
  }

  /** A row is in the join exactly when some return and some GDP row of the
      same quarter produce it. */
  lemma {:induction false} JoinMembership(rets: seq<QuarterReturn>, phased: seq<PhasedRow>, v: real, p: Phase)
    ensures JoinedRow(v, p) in Join(rets, phased) <==> exists i, j :: Meets(rets, phased, i, j, v, p)
    decreases |rets|
  {
    if rets != [] {
      var tail := rets[1..];
      var phases := PhasesIn(phased, rets[0].quarter);
      var head := JoinOne(rets[0], phases);
      JoinMembership(tail, phased, v, p);
      PhasesInMembers(phased, rets[0].quarter, p);
      assert Join(rets, phased) == head + Join(tail, phased);
      if JoinedRow(v, p) in Join(rets, phased) {
        if JoinedRow(v, p) in head {
          var k :| 0 <= k < |phases| && head[k] == JoinedRow(v, p);
          assert p in phases;
          var j :| Labelled(phased, j, rets[0].quarter, p);
          assert Meets(rets, phased, 0, j, v, p);
        } else {
          var i, j :| Meets(tail, phased, i, j, v, p);
          assert Meets(rets, phased, i + 1, j, v, p);
        }
      }
      if exists i, j :: Meets(rets, phased, i, j, v, p) {
        var i, j :| Meets(rets, phased, i, j, v, p);
        if i == 0 {
          assert p in phases;
          var k :| 0 <= k < |phases| && phases[k] == p;
          assert head[k] == JoinedRow(v, p);
        } else {
          assert Meets(tail, phased, i - 1, j, v, p);
        }
      }
    }
  }

  /** A group is non-empty exactly when some joined row carries its phase. */
  lemma {:induction false} ReturnsInNonEmpty(joined: seq<JoinedRow>, p: Phase)
    ensures ReturnsIn(joined, p) != [] <==> exists v :: JoinedRow(v, p) in joined
  {
    if joined != [] {
      var n := |joined| - 1;
      ReturnsInNonEmpty(joined[..n], p);
      assert joined == joined[..n] + [joined[n]];
      if joined[n].phase == p {
        assert JoinedRow(joined[n].value, p) in joined;
      }
      if exists v :: JoinedRow(v, p) in joined {
        var v :| JoinedRow(v, p) in joined;
        if JoinedRow(v, p) != joined[n] {
          assert JoinedRow(v, p) in joined[..n];
        }
      }
    }
  }

  /** A phase is a key of a sector's entry exactly when one of the sector's
      returns falls in a quarter labelled with that phase. */
  lemma PerformanceKeys(rets: seq<QuarterReturn>, phased: seq<PhasedRow>, p: Phase)
    ensures p in SectorPerformance(rets, phased) <==>
      exists i, j :: 0 <= i < |rets| && Labelled(phased, j, rets[i].quarter, p)
  {
    var joined := Join(rets, phased);
    ReturnsInNonEmpty(joined, p);
    if exists i, j :: 0 <= i < |rets| && Labelled(phased, j, rets[i].quarter, p) {
      var i, j :| 0 <= i < |rets| && Labelled(phased, j, rets[i].quarter, p);
      JoinMembership(rets, phased, rets[i].value, p);
      assert Meets(rets, phased, i, j, rets[i].value, p);
    }
    if p in SectorPerformance(rets, phased) {
      var v :| JoinedRow(v, p) in joined;
      JoinMembership(rets, phased, v, p);
      var i, j :| Meets(rets, phased, i, j, v, p);
    }
  }

  /** A sector with no returns, or none in a quarter the GDP table labels,
      gets an empty entry rather than an error. */
  lemma NoOverlapEmpty(rets: seq<QuarterReturn>, phased: seq<PhasedRow>)
    requires forall i, j :: 0 <= i < |rets| && 0 <= j < |phased| ==> rets[i].quarter != phased[j].row.quarter
    ensures SectorPerformance(rets, phased) == map[]
  {
    PerformanceKeys(rets, phased, Expansion);
    PerformanceKeys(rets, phased, Recession);
  }

  /** The join of two runs of returns is the join of each, in order. */
  lemma {:induction false} JoinAppend(a: seq<QuarterReturn>, b: seq<QuarterReturn>, phased: seq<PhasedRow>)
    ensures Join(a + b, phased) == Join(a, phased) + Join(b, phased)
    decreases |a|
  {
    if a == [] {
      assert a + b == b;
    } else {
      assert (a + b)[1..] == a[1..] + b;
      JoinAppend(a[1..], b, phased);
    }
  }

  /** A return in a quarter the GDP table does not label leaves the sector's
      entry unchanged, wherever it sits in the series. */
  lemma UnmatchedReturnIgnored(rets: seq<QuarterReturn>, i: int, phased: seq<PhasedRow>)
    requires 0 <= i < |rets|
    requires forall j :: 0 <= j < |phased| ==> phased[j].row.quarter != rets[i].quarter
    ensures SectorPerformance(rets[..i] + rets[i + 1..], phased) == SectorPerformance(rets, phased)
  {
    var before, after := rets[..i], rets[i + 1..];
    var phases := PhasesIn(phased, rets[i].quarter);
    assert phases == [] by {
      if phases != [] {
        PhasesInMembers(phased, rets[i].quarter, phases[0]);
      }
    }
    assert rets == before + ([rets[i]] + after);
    assert ([rets[i]] + after)[1..] == after;
    assert Join([rets[i]] + after, phased) == Join(after, phased);
    JoinAppend(before, [rets[i]] + after, phased);
    JoinAppend(before, after, phased);
  }

  /** Every term at least `lo` gives a sum of at least `lo` times the count. */
  lemma {:induction false} SumAtLeast(xs: seq<real>, lo: real)
    requires forall k :: 0 <= k < |xs| ==> lo <= xs[k]
    ensures lo * (|xs| as real) <= Sum(xs)
  {
    if xs != [] {
      var n := |xs| - 1;
      var init := xs[..n];
      assert forall k :: 0 <= k < n ==> init[k] == xs[k];
      SumAtLeast(init, lo);
      var c: real := n as real;
      assert lo * (c + 1.0) == lo * c + lo;
    }
  }

  /** Every term below `hi` gives a sum below `hi` times the count. */
  lemma {:induction false} SumBelow(xs: seq<real>, hi: real)
    requires xs != []
    requires forall k :: 0 <= k < |xs| ==> xs[k] < hi
    ensures Sum(xs) < hi * (|xs| as real)
  {
    var n := |xs| - 1;
    var init := xs[..n];
    var c: real := n as real;
    assert hi * (c + 1.0) == hi * c + hi;
    if n > 0 {
      assert forall k :: 0 <= k < n ==> init[k] == xs[k];
      SumBelow(init, hi);
    } else {
      assert init == [];
    }
  }

  /** The mean of a group lies within any bounds on its members; a group of
      losses has a negative mean. */
  lemma MeanBounds(xs: seq<real>, lo: real, hi: real)
    requires xs != []
    ensures (forall k :: 0 <= k < |xs| ==> lo <= xs[k]) ==> lo <= Mean(xs)
    ensures (forall k :: 0 <= k < |xs| ==> xs[k] < hi) ==> Mean(xs) < hi
  {
    Arith.DivCompare(Sum(xs), |xs| as real, hi);
    Arith.DivCompare(Sum(xs), |xs| as real, lo);
    if forall k :: 0 <= k < |xs| ==> lo <= xs[k] {
      SumAtLeast(xs, lo);
    }
    if forall k :: 0 <= k < |xs| ==> xs[k] < hi {
      SumBelow(xs, hi);
    }
  }

  /** Every joined row of a group belongs to it: the group of phase `p` holds
      exactly the values joined to `p`. */
  lemma {:induction false} ReturnsInMembers(joined: seq<JoinedRow>, p: Phase, v: real)
    ensures v in ReturnsIn(joined, p) <==> JoinedRow(v, p) in joined
  {
    if joined != [] {
      var n := |joined| - 1;
      ReturnsInMembers(joined[..n], p, v);
      assert joined == joined[..n] + [joined[n]];
    }
  }

  /** The GDP table has one row per quarter, as a quarterly series indexed by
      quarter end does. */
  predicate OneRowPerQuarter(phased: seq<PhasedRow>) {
    forall j, k :: 0 <= j < k < |phased| ==> phased[j].row.quarter != phased[k].row.quarter
  }

  /** Some GDP row of quarter `q` is labelled `p`. */
  predicate QuarterLabelled(phased: seq<PhasedRow>, q: int, p: Phase) {
    exists j :: 0 <= j < |phased| && Labelled(phased, j, q, p)
  }

  /** The values of the returns whose quarter the GDP table labels `p`, in
      order and with repeats: the group stated without the join. */
  function ValuesInPhase(rets: seq<QuarterReturn>, phased: seq<PhasedRow>, p: Phase): seq<real> {
    if rets == [] then []
    else (if QuarterLabelled(phased, rets[0].quarter, p) then [rets[0].value] else []) + ValuesInPhase(rets[1..], phased, p)
  }

  /** Grouping distributes over concatenation. */
  lemma {:induction false} ReturnsInAppend(a: seq<JoinedRow>, b: seq<JoinedRow>, p: Phase)
    ensures ReturnsIn(a + b, p) == ReturnsIn(a, p) + ReturnsIn(b, p)
    decreases |b|
  {
    if b == [] {
      assert a + b == a;
    } else {
      var n := |b| - 1;
      assert (a + b)[..|a + b| - 1] == a + b[..n];
      ReturnsInAppend(a, b[..n], p);
    }
  }

  /** With one row per quarter, a quarter has at most one phase. */
  lemma {:induction false} PhasesInAtMostOne(phased: seq<PhasedRow>, q: int)
    requires OneRowPerQuarter(phased)
    ensures |PhasesIn(phased, q)| <= 1
  {
    if phased != [] {
      var n := |phased| - 1;
      var init := phased[..n];
      PhasesInAtMostOne(init, q);
      if phased[n].row.quarter == q && PhasesIn(init, q) != [] {
        PhasesInMembers(init, q, PhasesIn(init, q)[0]);
      }
    }
  }

  /** The group of one return's merged rows, when its quarter has at most one
      phase. */
  lemma ReturnsInJoinOne(r: QuarterReturn, phases: seq<Phase>, p: Phase)
    requires |phases| <= 1
    ensures ReturnsIn(JoinOne(r, phases), p) == if p in phases then [r.value] else []
  {
    if phases != [] {
      var rows := JoinOne(r, phases);
      assert rows == [JoinedRow(r.value, phases[0])];
      assert rows[..0] == [];
    }
  }

  /** With one GDP row per quarter, the group that `groupby('phase')` averages
      for `p` is exactly the values of the returns in quarters labelled `p`,
      in order and counted once per return. */
  lemma {:induction false} GroupsFollowReturns(rets: seq<QuarterReturn>, phased: seq<PhasedRow>, p: Phase)
    requires OneRowPerQuarter(phased)
    ensures ReturnsIn(Join(rets, phased), p) == ValuesInPhase(rets, phased, p)
    decreases |rets|
  {
    if rets != [] {
      var phases := PhasesIn(phased, rets[0].quarter);
      var head := JoinOne(rets[0], phases);
      PhasesInAtMostOne(phased, rets[0].quarter);
      PhasesInMembers(phased, rets[0].quarter, p);
      ReturnsInJoinOne(rets[0], phases, p);
      ReturnsInAppend(head, Join(rets[1..], phased), p);
      GroupsFollowReturns(rets[1..], phased, p);
    }
  }

  /** A sector's entry for phase `p` is present exactly when some return falls
      in a quarter labelled `p`, and it is then the mean of those returns'
      values, each return counted once. */
  lemma SectorPerformanceMeans(rets: seq<QuarterReturn>, phased: seq<PhasedRow>, p: Phase)
    requires OneRowPerQuarter(phased)
    ensures p in SectorPerformance(rets, phased) <==> ValuesInPhase(rets, phased, p) != []
    ensures p in SectorPerformance(rets, phased) ==>
      SectorPerformance(rets, phased)[p] == Mean(ValuesInPhase(rets, phased, p))
  {
    GroupsFollowReturns(rets, phased, p);
  }

  /** The groups of three expansion rows, two of them equal. */
  lemma RepeatedGroups()
    ensures ReturnsIn([JoinedRow(0.1, Expansion), JoinedRow(0.1, Expansion), JoinedRow(0.4, Expansion)], Expansion) == [0.1, 0.1, 0.4]
    ensures ReturnsIn([JoinedRow(0.1, Expansion), JoinedRow(0.1, Expansion), JoinedRow(0.4, Expansion)], Recession) == []
  {
    var joined := [JoinedRow(0.1, Expansion), JoinedRow(0.1, Expansion), JoinedRow(0.4, Expansion)];
    assert joined[..2][..1] == joined[..1];
    assert joined[..1][..0] == [];
    assert ReturnsIn(joined[..1], Expansion) == [0.1] && ReturnsIn(joined[..1], Recession) == [];
  }

  /** A repeated value counts twice in the mean: three expansion rows 0.1,
      0.1 and 0.4 average 0.2, not the 0.25 of the distinct values. */
  lemma RepeatedValuesCount()
    ensures PhaseMeans([JoinedRow(0.1, Expansion), JoinedRow(0.1, Expansion), JoinedRow(0.4, Expansion)])
      == map[Expansion := 0.2]
  {
    var e := [0.1, 0.1, 0.4];
    RepeatedGroups();
    assert e[..2][..1] == [0.1] && e[..2] == [0.1, 0.1];
    assert [0.1][..0] == [];
    assert Sum(e) == 0.6;
  }

  /** Appending a GDP row adds its phase when it falls in quarter `q`. */
  lemma PhasesInSnoc(phased: seq<PhasedRow>, row: PhasedRow, q: int)
    ensures PhasesIn(phased + [row], q) == PhasesIn(phased, q) + (if row.row.quarter == q then [row.phase] else [])
  {
    assert (phased + [row])[..|phased|] == phased;
  }

  /** The GDP table of the worked example: the level falls by 10% in
      quarters 2 and 3, so quarters 1 and 2 are expansion and quarter 3 is
      recession. */
  function ExampleTable(): seq<PhasedRow> {
    [PhasedRow(GdpRow(1, 100.0, Wrappers.None), Expansion),
     PhasedRow(GdpRow(2, 90.0, Wrappers.Some(-10.0)), Expansion),
     PhasedRow(GdpRow(3, 81.0, Wrappers.Some(-10.0)), Recession)]
  }

  /** The example table's labels are the classifier's. */
  lemma ExampleTableClassified()
    ensures forall i :: 0 <= i < |ExampleTable()| ==>
      ExampleTable()[i].phase == PhaseAt(seq(3, k requires 0 <= k < 3 => ExampleTable()[k].row.growth), i)
  {
    var growth := seq(3, k requires 0 <= k < 3 => ExampleTable()[k].row.growth);
    assert growth == [Wrappers.None, Wrappers.Some(-10.0), Wrappers.Some(-10.0)];
  }

  /** The quarter lookups of the worked example. */
  lemma ExampleLookups(q: int)
    requires 2 <= q <= 4
    ensures PhasesIn(ExampleTable(), q) == if q == 2 then [Expansion] else if q == 3 then [Recession] else []
  {
    var t := ExampleTable();
    PhasesInSnoc([], t[0], q);
    assert [] + [t[0]] == t[..1];
    PhasesInSnoc(t[..1], t[1], q);
    assert t[..1] + [t[1]] == t[..2];
    PhasesInSnoc(t[..2], t[2], q);
    assert t[..2] + [t[2]] == t;
  }

  /** A worked example of the join: returns for quarters 2, 3 and 4 against
      the example table; quarter 4 has no phase and drops out. */
  lemma JoinExample()
    ensures Join([QuarterReturn(2, 0.1), QuarterReturn(3, -0.05), QuarterReturn(4, 0.02)], ExampleTable())
      == [JoinedRow(0.1, Expansion), JoinedRow(-0.05, Recession)]
  {
    var r1, rest := QuarterReturn(2, 0.1), [QuarterReturn(3, -0.05), QuarterReturn(4, 0.02)];
    ExampleLookups(2);
    JoinOneSingle(r1, Expansion);
    JoinExampleTail();
    JoinCons(r1, rest, ExampleTable());
    assert [r1] + rest == [r1, rest[0], rest[1]];
  }

  /** The last two returns of the worked example: quarter 3 is recession,
      quarter 4 has no GDP row. */
  lemma JoinExampleTail()
    ensures Join([QuarterReturn(3, -0.05), QuarterReturn(4, 0.02)], ExampleTable()) == [JoinedRow(-0.05, Recession)]
  {
    var t := ExampleTable();
    var r2, r3 := QuarterReturn(3, -0.05), QuarterReturn(4, 0.02);
    ExampleLookups(3);
    ExampleLookups(4);
    JoinOneSingle(r2, Recession);
    assert JoinOne(r3, []) == [];
    JoinCons(r3, [], t);
    JoinCons(r2, [r3], t);
    assert [r3] + [] == [r3] && [r2] + [r3] == [r2, r3];
  }

  /** One return in a quarter with one phase gives one merged row. */
  lemma JoinOneSingle(r: QuarterReturn, p: Phase)
    ensures JoinOne(r, [p]) == [JoinedRow(r.value, p)]
  {
  }

  /** Joining a return followed by others: its merged rows first. */
  lemma JoinCons(r: QuarterReturn, rest: seq<QuarterReturn>, phased: seq<PhasedRow>)
    ensures Join([r] + rest, phased) == JoinOne(r, PhasesIn(phased, r.quarter)) + Join(rest, phased)
  {
    assert ([r] + rest)[1..] == rest;
  }

  /** A worked example of the grouping: two expansion rows and one
      recession row. */
  lemma GroupsExample()
    ensures ReturnsIn([JoinedRow(0.1, Expansion), JoinedRow(-0.05, Recession), JoinedRow(0.3, Expansion)], Expansion) == [0.1, 0.3]
    ensures ReturnsIn([JoinedRow(0.1, Expansion), JoinedRow(-0.05, Recession), JoinedRow(0.3, Expansion)], Recession) == [-0.05]
  {
    var joined := [JoinedRow(0.1, Expansion), JoinedRow(-0.05, Recession), JoinedRow(0.3, Expansion)];
    assert joined[..2][..1] == joined[..1];
    assert joined[..1][..0] == [];
    assert ReturnsIn(joined[..1], Expansion) == [0.1] && ReturnsIn(joined[..1], Recession) == [];
    assert ReturnsIn(joined[..2], Expansion) == [0.1] && ReturnsIn(joined[..2], Recession) == [-0.05];
  }

  /** A worked example of a group mean. */
  lemma MeanExample()
    ensures Mean([0.1, 0.3]) == 0.2
    ensures Mean([-0.05]) == -0.05
  {
    assert [0.1, 0.3][..1] == [0.1];
    assert [0.1][..0] == [];
    assert [-0.05][..0] == [];
    assert Sum([0.1, 0.3]) == 0.4;
  }

  /** A worked example of the means: the two expansion quarters average
      0.2. */
  lemma PhaseMeansExample()
    ensures PhaseMeans([JoinedRow(0.1, Expansion), JoinedRow(-0.05, Recession), JoinedRow(0.3, Expansion)])
      == map[Expansion := 0.2, Recession := -0.05]
  {
    GroupsExample();
    MeanExample();
  }
}
