/** The GDP series and its derived `growth_rate` column
    (main.py `fetch_economic_data`, the `pct_change() * 100` step). */
module Macro {
  import opened Wrappers
  import opened Rows
  import Arith

  /** Quarter-over-quarter growth in percent. */
  function PercentChange(prev: Level, cur: Level): real {
    (cur - prev) / prev * 100.0
  }

  /** The GDP table with the `growth_rate` column added: pandas' `pct_change`
      leaves the first row NaN and compares every later row with the one
      before it. */
  function WithGrowth(obs: seq<GdpObservation>): (rows: seq<GdpRow>)
    ensures |rows| == |obs|
    ensures |obs| > 0 ==> rows[0].growth.None?
    ensures forall i :: 1 <= i < |obs| ==> rows[i].growth.Some?
  {
    seq(|obs|, i requires 0 <= i < |obs| =>
      GdpRow(obs[i].quarter, obs[i].level,
             if i == 0 then None else Some(PercentChange(obs[i - 1].level, obs[i].level))))
  }

  /** Adding the growth column keeps the provider's quarters and levels. */
  lemma WithGrowthKeepsColumns(obs: seq<GdpObservation>, i: int)
    requires 0 <= i < |obs|
    ensures WithGrowth(obs)[i].quarter == obs[i].quarter && WithGrowth(obs)[i].level == obs[i].level
  {}

  /** Row `i >= 1` carries the percentage change from row `i - 1`. */
  lemma GrowthAt(obs: seq<GdpObservation>, i: int)
    requires 1 <= i < |obs|
    ensures WithGrowth(obs)[i].growth == Some(PercentChange(obs[i - 1].level, obs[i].level))
  {}

  /** Growth is negative exactly when the GDP level fell from the previous
      quarter, and zero exactly when it stayed put. */
  lemma GrowthSign(obs: seq<GdpObservation>, i: int)
    requires 1 <= i < |obs|
    ensures WithGrowth(obs)[i].growth.value < 0.0 <==> obs[i].level < obs[i - 1].level
    ensures WithGrowth(obs)[i].growth.value == 0.0 <==> obs[i].level == obs[i - 1].level
  {
    GrowthAt(obs, i);
    PercentChangeSign(obs[i - 1].level, obs[i].level);
  }

  /** The sign of a percentage change is the sign of the difference. */
  lemma PercentChangeSign(prev: Level, cur: Level)
    ensures PercentChange(prev, cur) < 0.0 <==> cur < prev
    ensures PercentChange(prev, cur) == 0.0 <==> cur == prev
  {
    var diff: real := cur - prev;
    Arith.DivSign(diff, prev);
    var q := diff / prev;
    assert PercentChange(prev, cur) == q * 100.0;
  }

  /** Applying a percentage change to the earlier level gives the later one. */
  lemma PercentChangeInverse(prev: Level, cur: Level)
    ensures cur == prev * (1.0 + PercentChange(prev, cur) / 100.0)
  {
    var diff: real := cur - prev;
    Arith.DivMul(diff, prev);
    var change := diff / prev;
    assert PercentChange(prev, cur) / 100.0 == change;
    assert prev * (1.0 + change) == prev + change * prev;
  }

  /** The growth column determines each level from the previous one: applying
      the percentage to the previous level gives back the current level. */
  lemma GrowthReconstructsLevel(obs: seq<GdpObservation>, i: int)
    requires 1 <= i < |obs|
    ensures obs[i].level == obs[i - 1].level * (1.0 + WithGrowth(obs)[i].growth.value / 100.0)
  {
    GrowthAt(obs, i);
    PercentChangeInverse(obs[i - 1].level, obs[i].level);
  }
}
