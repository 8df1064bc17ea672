/** The record types that flow through the pipeline. Dates are day numbers
    (days since 1970-01-01); calendar quarters are integer keys. */
module Rows {
  import opened Wrappers

  /** An index level or close price. Index levels are strictly positive, so a
      percentage change never divides by zero. */
  type Price = r: real | r > 0.0 witness 1.0

  /** A real GDP level, likewise strictly positive. */
  type Level = r: real | r > 0.0 witness 1.0

  /** One daily candle as the broker's historical-data call returns it. */
  datatype Candle = Candle(day: int, open: real, high: real, low: real, close: Price, volume: int)

  /** One observation of the GDP series as the macro-data provider returns it. */
  datatype GdpObservation = GdpObservation(quarter: int, level: Level)

  /** One row of the persisted GDP table: the provider's level plus the derived
      `growth_rate` column (None where pandas leaves NaN). */
  datatype GdpRow = GdpRow(quarter: int, level: Level, growth: Option<real>)

  /** The `close` column of a sector frame. */
  function Closes(candles: seq<Candle>): seq<Price> {
    seq(|candles|, i requires 0 <= i < |candles| => candles[i].close)
  }

  /** The `growth_rate` column of the GDP table. */
  function GrowthColumn(rows: seq<GdpRow>): seq<Option<real>> {
    seq(|rows|, i requires 0 <= i < |rows| => rows[i].growth)
  }

  /** The keys of an ordered Python dict, modelled as a sequence of pairs. */
  function Keys<V>(entries: seq<(string, V)>): seq<string> {
    seq(|entries|, i requires 0 <= i < |entries| => entries[i].0)
  }

  /** Dict keys are unique. */
  predicate DistinctKeys<V>(entries: seq<(string, V)>) {
    forall i, j :: 0 <= i < j < |entries| ==> entries[i].0 != entries[j].0
  }

  /** Reading an ordered dict as a map: a later entry for a key overrides an
      earlier one, as assigning `d[k] = v` again does. */
  function ToMap<V>(entries: seq<(string, V)>): (m: map<string, V>)
    ensures forall k :: k in m <==> k in Keys(entries)
  {
    if entries == [] then map[]
    else
      var n := |entries| - 1;
      var init := ToMap(entries[..n]);
      assert Keys(entries) == Keys(entries[..n]) + [entries[n].0];
      init[entries[n].0 := entries[n].1]
  }

  /** With distinct keys, the map holds every entry's value. */
  lemma {:induction false} ToMapHolds<V>(entries: seq<(string, V)>, i: int)
    requires DistinctKeys(entries) && 0 <= i < |entries|
    ensures entries[i].0 in ToMap(entries) && ToMap(entries)[entries[i].0] == entries[i].1
  {
    var n := |entries| - 1;
    if i < n {
      ToMapHolds(entries[..n], i);
    }
  }
}
