/** The decision part of main.py `make_recommendations`: the prevailing
    phase from the last two growth values, each sector's 90-observation
    momentum, and the inclusion rule over the performance table. */
module Recommendations {
  import opened Wrappers
  import opened Rows
  import opened Phases
  import opened Returns
  import opened Performance

  /** `avg_returns.get('expansion', 0)`: a sector with no expansion quarter
      counts as breaking even. */
  function ExpansionMean(avg: map<Phase, real>): real {
    if Expansion in avg then avg[Expansion] else 0.0
  }

  /** `recent_returns.get(sector, 0)`. */
  function RecentOf(recent: map<string, real>, sector: string): real {
    if sector in recent then recent[sector] else 0.0
  }

  /** The inclusion rule: the expansion mean is not negative and the recent
      momentum is positive. */
  predicate Qualifies(avg: map<Phase, real>, momentum: real) {
    ExpansionMean(avg) >= 0.0 && momentum > 0.0
  }

  /** The `recent_returns` dict, in `sector_data` order. */
  function RecentReturns(sectorData: seq<(string, seq<Candle>)>): seq<(string, real)> {
    seq(|sectorData|, i requires 0 <= i < |sectorData| => (sectorData[i].0, Momentum(Closes(sectorData[i].1))))
  }

  /** The recommended sectors: those of the performance table that qualify,
      in table order. */
  function Recommended(performance: seq<(string, map<Phase, real>)>, recent: map<string, real>): seq<string> {
    if performance == [] then []
    else
      var n := |performance| - 1;
      var (sector, avg) := performance[n];
      Recommended(performance[..n], recent)
        + (if Qualifies(avg, RecentOf(recent, sector)) then [sector] else [])
  }

  /** `make_recommendations`: the current phase and the recommended sectors.
      The last two growth values are scanned, the momentum dict is filled
      sector by sector, then the performance table is walked in order. */
  method MakeRecommendations(performance: seq<(string, map<Phase, real>)>,
                             sectorData: seq<(string, seq<Candle>)>,
                             growth: seq<Option<real>>)
    returns (currentPhase: Phase, recommendations: seq<string>)
    ensures currentPhase == CurrentPhase(growth)
    ensures recommendations == Recommended(performance, ToMap(RecentReturns(sectorData)))
  {
    var latest := Latest(growth);
    var allNegative := true;
    for k := 0 to |latest|
      invariant allNegative <==> forall m :: 0 <= m < k ==> Negative(latest[m])
    {
      if !Negative(latest[k]) {
        allNegative := false;
      }
    }
    currentPhase := if allNegative then Recession else Expansion;

    var recent: map<string, real> := map[];
    for i := 0 to |sectorData|
      invariant recent == ToMap(RecentReturns(sectorData[..i]))
    {
      assert RecentReturns(sectorData[..i + 1])[..i] == RecentReturns(sectorData[..i]);
      recent := recent[sectorData[i].0 := Momentum(Closes(sectorData[i].1))];
    }
    assert sectorData[..|sectorData|] == sectorData;

    recommendations := [];
    for i := 0 to |performance|
      invariant recommendations == Recommended(performance[..i], recent)
    {
      assert performance[..i + 1][..i] == performance[..i];
      var (sector, avg) := performance[i];
      if ExpansionMean(avg) >= 0.0 && RecentOf(recent, sector) > 0.0 {
        recommendations := recommendations + [sector];
      }
    }
    assert performance[..|performance|] == performance;
  }

  /** Entry `i` of the performance table is sector `s` and qualifies. */
  predicate Chosen(performance: seq<(string, map<Phase, real>)>, recent: map<string, real>, i: int, s: string) {
    0 <= i < |performance| && performance[i].0 == s && Qualifies(performance[i].1, RecentOf(recent, s))
  }

  /** A sector is recommended exactly when its performance entry qualifies. */
  lemma {:induction false} RecommendedMembership(performance: seq<(string, map<Phase, real>)>, recent: map<string, real>, s: string)
    ensures s in Recommended(performance, recent) <==> exists i :: Chosen(performance, recent, i, s)
  {
    if performance != [] {
      var n := |performance| - 1;
      RecommendedMembership(performance[..n], recent, s);
      var last := if Qualifies(performance[n].1, RecentOf(recent, performance[n].0)) then [performance[n].0] else [];
      assert Recommended(performance, recent) == Recommended(performance[..n], recent) + last;
      if exists i :: Chosen(performance[..n], recent, i, s) {
        var i :| Chosen(performance[..n], recent, i, s);
        assert Chosen(performance, recent, i, s);
      }
      if s in last {
        assert Chosen(performance, recent, n, s);
      }
      if exists i :: Chosen(performance, recent, i, s) {
        var i :| Chosen(performance, recent, i, s);
        if i < n {
          assert Chosen(performance[..n], recent, i, s);
        }
      }
    }
  }

  /** `xs` can be read off `ys` left to right, skipping entries. */
  predicate Subsequence(xs: seq<string>, ys: seq<string>)
    decreases |ys|
  {
    if xs == [] then true
    else if ys == [] then false
    else if xs[|xs| - 1] == ys[|ys| - 1] then Subsequence(xs[..|xs| - 1], ys[..|ys| - 1])
    else Subsequence(xs, ys[..|ys| - 1])
  }

  /** The last sector of a table with distinct keys is not recommended by
      the entries before it. */
  lemma LastSectorIsNew(performance: seq<(string, map<Phase, real>)>, recent: map<string, real>)
    requires DistinctKeys(performance) && performance != []
    ensures performance[|performance| - 1].0 !in Recommended(performance[..|performance| - 1], recent)
  {
    var n := |performance| - 1;
    var sector := performance[n].0;
    RecommendedMembership(performance[..n], recent, sector);
  }

  /** The keys of a dict's first `n` entries are its first `n` keys. */
  lemma KeysPrefix<V>(entries: seq<(string, V)>, n: int)
    requires 0 <= n <= |entries|
    ensures Keys(entries)[..n] == Keys(entries[..n])
  {
  }

  /** The recommendations can be read off the performance table's sectors
      left to right. */
  lemma {:induction false} RecommendedSubsequence(performance: seq<(string, map<Phase, real>)>, recent: map<string, real>)
    requires DistinctKeys(performance)
    ensures Subsequence(Recommended(performance, recent), Keys(performance))
  {
    if performance != [] {
      var n := |performance| - 1;
      var init := performance[..n];
      var prior := Recommended(init, recent);
      var keys := Keys(performance);
      assert DistinctKeys(init);
      RecommendedSubsequence(init, recent);
      KeysPrefix(performance, n);
      LastSectorIsNew(performance, recent);
      var sector := performance[n].0;
      assert keys[|keys| - 1] == sector;
      var rec := Recommended(performance, recent);
      if Qualifies(performance[n].1, RecentOf(recent, sector)) {
        assert rec == prior + [sector];
        assert rec[..|rec| - 1] == prior;
      } else {
        assert rec == prior;
        if prior != [] {
          assert prior[|prior| - 1] in prior;
        }
      }
    }
  }

  /** The recommendations name each sector at most once. */
  lemma {:induction false} RecommendedNoRepeats(performance: seq<(string, map<Phase, real>)>, recent: map<string, real>)
    requires DistinctKeys(performance)
    ensures forall a, b :: 0 <= a < b < |Recommended(performance, recent)| ==>
      Recommended(performance, recent)[a] != Recommended(performance, recent)[b]
  {
    if performance != [] {
      var n := |performance| - 1;
      var init := performance[..n];
      var prior := Recommended(init, recent);
      assert DistinctKeys(init);
      RecommendedNoRepeats(init, recent);
      LastSectorIsNew(performance, recent);
      var sector := performance[n].0;
      var rec := Recommended(performance, recent);
      if Qualifies(performance[n].1, RecentOf(recent, sector)) {
        assert rec == prior + [sector];
        forall a, b | 0 <= a < b < |rec|
          ensures rec[a] != rec[b]
        {
          if b == |rec| - 1 {
            assert rec[a] == prior[a];
          } else {
            assert rec[a] == prior[a] && rec[b] == prior[b];
          }
        }
      } else {
        assert rec == prior;
      }
    }
  }

  /** The recommendations keep the order of the performance table and name
      each sector at most once. */
  lemma RecommendedInOrder(performance: seq<(string, map<Phase, real>)>, recent: map<string, real>)
    requires DistinctKeys(performance)
    ensures Subsequence(Recommended(performance, recent), Keys(performance))
    ensures forall a, b :: 0 <= a < b < |Recommended(performance, recent)| ==>
      Recommended(performance, recent)[a] != Recommended(performance, recent)[b]
  {
    RecommendedSubsequence(performance, recent);
    RecommendedNoRepeats(performance, recent);
  }

  /** The qualification examples: expansion mean 0.02 with momentum 0.01 is
      in; expansion mean -0.01 is out whatever the momentum; no expansion
      quarters with momentum 0.05 is in. */
  lemma QualifiesExamples(momentum: real)
    ensures Qualifies(map[Expansion := 0.02], 0.01)
    ensures !Qualifies(map[Expansion := -0.01, Recession := 0.3], momentum)
    ensures Qualifies(map[Recession := -0.2], 0.05)
  {}

  /** A sector whose every return joined to an expansion quarter was a loss
      (and that has at least one) has a negative expansion mean, so it is
      never recommended. */
  lemma ExpansionLossesExclude(rets: seq<QuarterReturn>, phased: seq<PhasedRow>, momentum: real)
    requires exists i, j :: 0 <= i < |rets| && Labelled(phased, j, rets[i].quarter, Expansion)
    requires forall i, j :: 0 <= i < |rets| && Labelled(phased, j, rets[i].quarter, Expansion) ==> rets[i].value < 0.0
    ensures ExpansionMean(SectorPerformance(rets, phased)) < 0.0
    ensures !Qualifies(SectorPerformance(rets, phased), momentum)
  {
    var joined := Join(rets, phased);
    var e := ReturnsIn(joined, Expansion);
    PerformanceKeys(rets, phased, Expansion);
    ReturnsInNonEmpty(joined, Expansion);
    forall k | 0 <= k < |e|
      ensures e[k] < 0.0
    {
      ReturnsInMembers(joined, Expansion, e[k]);
      JoinMembership(rets, phased, e[k], Expansion);
      var i, j :| Meets(rets, phased, i, j, e[k], Expansion);
    }
    MeanBounds(e, 0.0, 0.0);
  }

  /** The momentum looked up for a sector of the price data is that
      sector's own. */
  lemma RecentOfSector(sectorData: seq<(string, seq<Candle>)>, i: int)
    requires DistinctKeys(sectorData) && 0 <= i < |sectorData|
    ensures RecentOf(ToMap(RecentReturns(sectorData)), sectorData[i].0) == Momentum(Closes(sectorData[i].1))
  {
    var recent := RecentReturns(sectorData);
    assert DistinctKeys(recent) by {
      assert forall a :: 0 <= a < |recent| ==> recent[a].0 == sectorData[a].0;
    }
    ToMapHolds(recent, i);
  }

  /** Only a sector with price data, more than 90 rows of it and a latest
      close above the close 90 rows earlier can be recommended. */
  lemma MomentumRequired(performance: seq<(string, map<Phase, real>)>, sectorData: seq<(string, seq<Candle>)>, s: string)
    requires DistinctKeys(sectorData)
    requires s in Recommended(performance, ToMap(RecentReturns(sectorData)))
    ensures exists i :: 0 <= i < |sectorData| && sectorData[i].0 == s && Rising(sectorData[i].1)
  {
    var entries := RecentReturns(sectorData);
    var recent := ToMap(entries);
    RecommendedMembership(performance, recent, s);
    assert RecentOf(recent, s) > 0.0;
    var keys := Keys(entries);
    assert s in keys;
    var i :| 0 <= i < |keys| && keys[i] == s;
    assert entries[i].0 == sectorData[i].0;
    RecentOfSector(sectorData, i);
    RisingIffMomentum(sectorData[i].1);
  }

  /** `Returns.MomentumSign` restated on a sector frame: positive momentum
      exactly when the frame is rising. */
  lemma RisingIffMomentum(candles: seq<Candle>)
    ensures Momentum(Closes(candles)) > 0.0 <==> Rising(candles)
  {
    var closes := Closes(candles);
    MomentumSign(closes);
    var n := |candles|;
    if n > MomentumWindow {
      assert closes[n - 1] == candles[n - 1].close;
      assert closes[n - 1 - MomentumWindow] == candles[n - 1 - MomentumWindow].close;
    }
  }

  /** More than 90 rows, and the latest close above the close 90 rows earlier. */
  predicate Rising(candles: seq<Candle>) {
    var n := |candles|;
    n > MomentumWindow && candles[n - 1].close > candles[n - 1 - MomentumWindow].close
  }
}
