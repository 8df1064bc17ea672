/** The economic-phase classifier (main.py `identify_phases`) and the
    current-phase rule of `make_recommendations`. Both compare growth values
    with zero only, and a missing (NaN) value is never negative. */
module Phases {
  import opened Wrappers
  import opened Rows
  import opened Macro

  datatype Phase = Expansion | Recession

  /** pandas' `x < 0` on a value that may be NaN: NaN is not negative. */
  predicate Negative(g: Option<real>) {
    g.Some? && g.value < 0.0
  }

  /** The label of observation `i`: recession when it and the observation
      before it both have negative growth, expansion otherwise. */
  function PhaseAt(growth: seq<Option<real>>, i: int): Phase
    requires 0 <= i < |growth|
  {
    if i >= 1 && Negative(growth[i - 1]) && Negative(growth[i]) then Recession else Expansion
  }

  /** The whole `phase` column. */
  function Labels(growth: seq<Option<real>>): (labels: seq<Phase>)
    ensures |labels| == |growth|
  {
    seq(|growth|, i requires 0 <= i < |growth| => PhaseAt(growth, i))
  }

  /** A GDP row with the `phase` column added. */
  datatype PhasedRow = PhasedRow(row: GdpRow, phase: Phase)

  /** `identify_phases`: set every row's phase to expansion, then walk rows
      1.. and mark a row recession when its and the previous row's growth are
      both present and negative. No other column changes. */
  method IdentifyPhases(gdp: seq<GdpRow>) returns (phased: seq<PhasedRow>)
    ensures |phased| == |gdp|
    ensures forall i :: 0 <= i < |gdp| ==> phased[i].row == gdp[i]
    ensures forall i :: 0 <= i < |gdp| ==> phased[i].phase == Labels(GrowthColumn(gdp))[i]
  {
    ghost var growth := GrowthColumn(gdp);
    assert forall k :: 0 <= k < |gdp| ==> growth[k] == gdp[k].growth;
    phased := seq(|gdp|, i requires 0 <= i < |gdp| => PhasedRow(gdp[i], Expansion));
    var i := 1;
    while i < |gdp|
      invariant 1 <= i
      invariant |phased| == |gdp|
      invariant forall k :: 0 <= k < |gdp| ==> phased[k].row == gdp[k]
      invariant forall k :: 0 <= k < i && k < |gdp| ==> phased[k].phase == PhaseAt(growth, k)
      invariant forall k :: i <= k < |gdp| ==> phased[k].phase == Expansion
    {
      var prev, cur := gdp[i - 1].growth, gdp[i].growth;
      if prev.Some? && cur.Some? {
        if prev.value < 0.0 && cur.value < 0.0 {
          phased := phased[i := phased[i].(phase := Recession)];
        }
      }
      i := i + 1;
    }
  }

  /** The two-observation lookback as a run property: labels `lo..hi`
      (with `lo >= 1`) are all recession exactly when growth `lo-1..hi` is
      all present and negative. A single non-negative quarter ends a run. */
  lemma RecessionRun(growth: seq<Option<real>>, lo: int, hi: int)
    requires 1 <= lo <= hi < |growth|
    ensures (forall k :: lo <= k <= hi ==> Labels(growth)[k] == Recession) <==>
            (forall k :: lo - 1 <= k <= hi ==> Negative(growth[k]))
  {
    var labels := Labels(growth);
    if forall k :: lo <= k <= hi ==> labels[k] == Recession {
      forall k | lo - 1 <= k <= hi
        ensures Negative(growth[k])
      {
        if k == lo - 1 {
          assert labels[lo] == Recession;
        } else {
          assert labels[k] == Recession;
        }
      }
    }
  }

  /** The first observation is always labelled expansion. */
  lemma FirstIsExpansion(growth: seq<Option<real>>)
    requires |growth| > 0
    ensures Labels(growth)[0] == Expansion
  {}

  /** The worked example: growth `+1, -1, -2, +3, -1` is labelled
      expansion, expansion, recession, expansion, expansion. */
  lemma ClassifierExample()
    ensures Labels([Some(1.0), Some(-1.0), Some(-2.0), Some(3.0), Some(-1.0)])
         == [Expansion, Expansion, Recession, Expansion, Expansion]
  {}

  /** `iloc[-2:]`: the last two values, or all of them when fewer. */
  function Latest(growth: seq<Option<real>>): (latest: seq<Option<real>>)
    ensures |latest| == if |growth| < 2 then |growth| else 2
  {
    if |growth| < 2 then growth else growth[|growth| - 2..]
  }

  /** `'recession' if all(latest_gdp < 0) else 'expansion'`. */
  function CurrentPhase(growth: seq<Option<real>>): Phase {
    var latest := Latest(growth);
    if forall k :: 0 <= k < |latest| ==> Negative(latest[k]) then Recession else Expansion
  }

  /** The current phase in terms of the series itself: with two or more
      values it is recession exactly when the last two are present and
      negative; with one value exactly when that value is negative; with no
      values `all` of nothing holds, so it is recession. */
  lemma CurrentPhaseRule(growth: seq<Option<real>>)
    ensures var n := |growth|;
      && (n >= 2 ==> (CurrentPhase(growth) == Recession <==> Negative(growth[n - 2]) && Negative(growth[n - 1])))
      && (n == 1 ==> (CurrentPhase(growth) == Recession <==> Negative(growth[0])))
      && (n == 0 ==> CurrentPhase(growth) == Recession)
  {
    var n := |growth|;
    if n >= 2 {
      var latest := Latest(growth);
      assert latest[0] == growth[n - 2] && latest[1] == growth[n - 1];
    } else if n == 1 {
      assert Latest(growth) == [growth[0]];
    }
  }

  /** The current phase applies the classifier's pairwise rule to the tail of
      the series: it equals the last label whenever there are two or more
      values, or one value that is not negative. */
  lemma CurrentPhaseMatchesLastLabel(growth: seq<Option<real>>)
    requires |growth| >= 2 || (|growth| == 1 && !Negative(growth[0]))
    ensures CurrentPhase(growth) == Labels(growth)[|growth| - 1]
  {
    CurrentPhaseRule(growth);
  }

  /** A single negative value is where the two rules part: the current phase
      says recession while the classifier labels the value expansion. */
  lemma CurrentPhaseSingleNegative()
    ensures CurrentPhase([Some(-1.0)]) == Recession
    ensures Labels([Some(-1.0)])[0] == Expansion
  {
    CurrentPhaseRule([Some(-1.0)]);
  }

  /** On a GDP table built by the growth step the first growth value is
      always NaN, so for any non-empty table the current phase equals the
      label of the most recent row. */
  lemma CurrentPhaseMatchesOnGdpTable(obs: seq<GdpObservation>)
    requires |obs| > 0
    ensures var growth := GrowthColumn(WithGrowth(obs));
      CurrentPhase(growth) == Labels(growth)[|growth| - 1]
  {
    var growth := GrowthColumn(WithGrowth(obs));
    assert growth[0] == WithGrowth(obs)[0].growth;
    CurrentPhaseMatchesLastLabel(growth);
  }
}
