/** Quarterly returns and recent momentum (main.py
    `calculate_quarterly_returns` and the 90-observation `pct_change` of
    `make_recommendations`). The pandas calendar is abstracted as a given
    function from day number to quarter key. */
module Returns {
  import opened Wrappers
  import opened Rows
  import Arith

  /** A close labelled with its calendar quarter. */
  datatype QuarterClose = QuarterClose(quarter: int, close: Price)

  /** The fractional change of a quarter's last close over the previous
      quarter's. */
  datatype QuarterReturn = QuarterReturn(quarter: int, value: real)

  /** The number of observations the momentum return looks back. */
  const MomentumWindow: nat := 90

  /** The `close` column labelled with each row's quarter. */
  function TagQuarters(candles: seq<Candle>, quarterOf: int -> int): seq<QuarterClose> {
    seq(|candles|, i requires 0 <= i < |candles| => QuarterClose(quarterOf(candles[i].day), candles[i].close))
  }

  /** Rows in time order: quarter keys never go down. */
  predicate TimeOrdered(obs: seq<QuarterClose>) {
    forall i, j :: 0 <= i < j < |obs| ==> obs[i].quarter <= obs[j].quarter
  }

  /** Row `i` is the last row of its quarter. */
  predicate EndsQuarter(obs: seq<QuarterClose>, i: int) {
    0 <= i < |obs| && (i == |obs| - 1 || obs[i + 1].quarter != obs[i].quarter)
  }

  /** `resample('QE').last()['close']`: the last row of each quarter, in
      order. */
  function QuarterEnds(obs: seq<QuarterClose>): seq<QuarterClose> {
    if obs == [] then []
    else (if EndsQuarter(obs, 0) then [obs[0]] else []) + QuarterEnds(obs[1..])
  }

  /** The fractional change from `prev` to `cur`. */
  function Change(prev: Price, cur: Price): real {
    var before: real := prev;
    var after: real := cur;
    (after - before) / before
  }

  /** `pct_change().dropna()`: the change of each quarter's close over the
      previous one, labelled with the later quarter; the first quarter has no
      return. */
  function PctChange(closes: seq<QuarterClose>): (rets: seq<QuarterReturn>)
    ensures |rets| == if |closes| == 0 then 0 else |closes| - 1
  {
    if |closes| < 2 then []
    else [QuarterReturn(closes[1].quarter, Change(closes[0].close, closes[1].close))] + PctChange(closes[1..])
  }

  /** Return `i` belongs to quarter `i + 1` and is its close's change over
      quarter `i`'s. */
  lemma {:induction false} PctChangeAt(closes: seq<QuarterClose>, i: int)
    requires 0 <= i < |closes| - 1
    ensures PctChange(closes)[i] == QuarterReturn(closes[i + 1].quarter, Change(closes[i].close, closes[i + 1].close))
    decreases |closes|
  {
    if i > 0 {
      PctChangeAt(closes[1..], i - 1);
    }
  }

  /** The quarterly returns of one sector frame. */
  function SectorReturns(candles: seq<Candle>, quarterOf: int -> int): seq<QuarterReturn> {
    PctChange(QuarterEnds(TagQuarters(candles, quarterOf)))
  }

  /** `calculate_quarterly_returns`: the per-sector loop filling the
      `quarterly_returns` dict, in `sector_data` order. */
  method CalculateQuarterlyReturns(sectorData: seq<(string, seq<Candle>)>, quarterOf: int -> int)
    returns (quarterlyReturns: seq<(string, seq<QuarterReturn>)>)
    ensures |quarterlyReturns| == |sectorData|
    ensures forall i :: 0 <= i < |sectorData| ==>
      quarterlyReturns[i] == (sectorData[i].0, SectorReturns(sectorData[i].1, quarterOf))
  {
    quarterlyReturns := [];
    for i := 0 to |sectorData|
      invariant |quarterlyReturns| == i
      invariant forall k :: 0 <= k < i ==>
        quarterlyReturns[k] == (sectorData[k].0, SectorReturns(sectorData[k].1, quarterOf))
    {
      var sector, frame := sectorData[i].0, sectorData[i].1;
      var quarterly := QuarterEnds(TagQuarters(frame, quarterOf));
      var rets := PctChange(quarterly);
      quarterlyReturns := quarterlyReturns + [(sector, rets)];
    }
  }

  /** Every resampled close is the last row of its quarter in the input. */
  lemma {:induction false} QuarterEndsAreQuarterEnds(obs: seq<QuarterClose>, k: int)
    requires 0 <= k < |QuarterEnds(obs)|
    ensures exists i :: EndsQuarter(obs, i) && obs[i] == QuarterEnds(obs)[k]
    decreases |obs|
  {
    var head := if EndsQuarter(obs, 0) then [obs[0]] else [];
    var rest := QuarterEnds(obs[1..]);
    assert QuarterEnds(obs) == head + rest;
    if k < |head| {
      assert EndsQuarter(obs, 0) && obs[0] == QuarterEnds(obs)[k];
    } else {
      QuarterEndsAreQuarterEnds(obs[1..], k - |head|);
      var i :| EndsQuarter(obs[1..], i) && obs[1..][i] == rest[k - |head|];
      assert EndsQuarter(obs, i + 1) && obs[i + 1] == QuarterEnds(obs)[k];
    }
  }

  /** The last row of every quarter appears in the resampled series. */
  lemma {:induction false} QuarterEndsKeepLastClose(obs: seq<QuarterClose>, i: int)
    requires EndsQuarter(obs, i)
    ensures obs[i] in QuarterEnds(obs)
    decreases |obs|
  {
    if i > 0 {
      assert EndsQuarter(obs[1..], i - 1);
      QuarterEndsKeepLastClose(obs[1..], i - 1);
    }
  }

  /** Every quarter that has a row appears in the resampled series: the last
      row of that quarter at or after row `i` ends it. */
  lemma {:induction false} QuarterEndsCoverQuarters(obs: seq<QuarterClose>, i: int)
    requires 0 <= i < |obs|
    ensures exists k :: 0 <= k < |QuarterEnds(obs)| && QuarterEnds(obs)[k].quarter == obs[i].quarter
    decreases |obs| - i
  {
    if EndsQuarter(obs, i) {
      QuarterEndsKeepLastClose(obs, i);
    } else {
      QuarterEndsCoverQuarters(obs, i + 1);
    }
  }

  /** On time-ordered rows the resampled quarters strictly increase: one
      close per quarter. */
  lemma {:induction false} QuarterEndsIncreasing(obs: seq<QuarterClose>)
    requires TimeOrdered(obs)
    ensures OneClosePerQuarter(QuarterEnds(obs))
    decreases |obs|
  {
    if obs != [] {
      var rest := QuarterEnds(obs[1..]);
      var q := QuarterEnds(obs);
      QuarterEndsIncreasing(obs[1..]);
      if EndsQuarter(obs, 0) {
        assert q == [obs[0]] + rest;
        forall k | 0 <= k < |rest|
          ensures obs[0].quarter < rest[k].quarter
        {
          QuarterEndsAreQuarterEnds(obs[1..], k);
          var i :| EndsQuarter(obs[1..], i) && obs[1..][i] == rest[k];
          assert obs[0].quarter <= obs[1].quarter <= obs[i + 1].quarter;
        }
        forall a, b | 0 <= a < b < |q|
          ensures q[a].quarter < q[b].quarter
        {
          assert q[b] == rest[b - 1];
          if a > 0 {
            assert q[a] == rest[a - 1];
            assert rest[a - 1].quarter < rest[b - 1].quarter;
          } else {
            assert obs[0].quarter < rest[b - 1].quarter;
          }
        }
      } else {
        assert q == rest;
      }
    }
  }

  /** Quarter keys strictly increase along the series. */
  predicate OneClosePerQuarter(q: seq<QuarterClose>) {
    forall a, b :: 0 <= a < b < |q| ==> q[a].quarter < q[b].quarter
  }

  /** The quarterly series has exactly one close per quarter that has a row,
      so the number of returns is the number of such quarters minus one. */
  lemma SectorReturnsCount(obs: seq<QuarterClose>)
    requires TimeOrdered(obs) && obs != []
    ensures |PctChange(QuarterEnds(obs))| == |set i | 0 <= i < |obs| :: obs[i].quarter| - 1
  {
    var q := QuarterEnds(obs);
    QuarterEndsIncreasing(obs);
    var fromObs := set i | 0 <= i < |obs| :: obs[i].quarter;
    var fromQ := set k | 0 <= k < |q| :: q[k].quarter;
    forall x | x in fromObs
      ensures x in fromQ
    {
      var i :| 0 <= i < |obs| && obs[i].quarter == x;
      QuarterEndsCoverQuarters(obs, i);
    }
    forall x | x in fromQ
      ensures x in fromObs
    {
      var k :| 0 <= k < |q| && q[k].quarter == x;
      QuarterEndsAreQuarterEnds(obs, k);
    }
    assert fromObs == fromQ;
    IncreasingCard(q);
    assert q != [] by {
      QuarterEndsCoverQuarters(obs, 0);
    }
  }

  /** Strictly increasing quarter keys are all distinct. */
  lemma {:induction false} IncreasingCard(q: seq<QuarterClose>)
    requires OneClosePerQuarter(q)
    ensures |set k | 0 <= k < |q| :: q[k].quarter| == |q|
  {
    if q != [] {
      var rest := q[1..];
      IncreasingCard(rest);
      var restKeys := set k | 0 <= k < |rest| :: rest[k].quarter;
      var keys := set k | 0 <= k < |q| :: q[k].quarter;
      assert keys == {q[0].quarter} + restKeys by {
        forall x | x in keys ensures x in {q[0].quarter} + restKeys {
          var k :| 0 <= k < |q| && q[k].quarter == x;
          if k > 0 { assert rest[k - 1] == q[k]; }
        }
      }
      assert q[0].quarter !in restKeys;
    }
  }

  /** Compounding: apply each return in turn to a starting price. */
  function Compound(start: real, rets: seq<QuarterReturn>): real
    decreases |rets|
  {
    if rets == [] then start else Compound(start * (1.0 + rets[0].value), rets[1..])
  }

  /** One step of compounding. */
  lemma CompoundStep(start: real, rets: seq<QuarterReturn>)
    requires rets != []
    ensures Compound(start, rets) == Compound(start * (1.0 + rets[0].value), rets[1..])
  {}

  /** Applying a fractional change to the earlier price gives the later one. */
  lemma ChangeInverse(prev: Price, cur: Price)
    ensures prev * (1.0 + Change(prev, cur)) == cur
  {
    var diff: real := (cur as real) - (prev as real);
    Arith.DivMul(diff, prev);
    assert prev * (1.0 + diff / prev) == prev + diff / prev * prev;
  }

  /** The returns are the inverse of the quarterly closes: compounding them
      from the first quarter's close reaches the last quarter's close. */
  lemma {:induction false} ReturnsCompoundToLastClose(closes: seq<QuarterClose>)
    requires |closes| >= 1
    ensures Compound(closes[0].close, PctChange(closes)) == closes[|closes| - 1].close
    decreases |closes|
  {
    if |closes| >= 2 {
      var tail := closes[1..];
      var rets := PctChange(closes);
      assert rets == [QuarterReturn(closes[1].quarter, Change(closes[0].close, closes[1].close))] + PctChange(tail);
      calc {
        Compound(closes[0].close, rets);
        { CompoundStep(closes[0].close, rets); }
        Compound(closes[0].close * (1.0 + rets[0].value), rets[1..]);
        {
          ChangeInverse(closes[0].close, closes[1].close);
          assert closes[0].close * (1.0 + rets[0].value) == tail[0].close;
          assert rets[1..] == PctChange(tail);
        }
        Compound(tail[0].close, PctChange(tail));
        { ReturnsCompoundToLastClose(tail); }
        tail[|tail| - 1].close;
      }
    }
  }

  /** The worked examples: quarter closes 100 then 110 give one return of
      +10% for the second quarter; a single quarter gives none. */
  lemma PctChangeExample()
    ensures PctChange([QuarterClose(1, 100.0), QuarterClose(2, 110.0)]) == [QuarterReturn(2, 0.1)]
    ensures PctChange([QuarterClose(1, 100.0)]) == []
  {}

  /** `df['close'].pct_change(periods=90).iloc[-1]`, with NaN (too few rows)
      and the error on an empty frame both read as 0. */
  function Momentum(closes: seq<Price>): real {
    var n := |closes|;
    if n > MomentumWindow then Change(closes[n - 1 - MomentumWindow], closes[n - 1]) else 0.0
  }

  /** Momentum is positive exactly when there are more than 90 rows and the
      latest close is above the close 90 rows earlier. */
  lemma MomentumSign(closes: seq<Price>)
    ensures Momentum(closes) > 0.0 <==>
      |closes| > MomentumWindow && closes[|closes| - 1] > closes[|closes| - 1 - MomentumWindow]
  {
    var n := |closes|;
    if n > MomentumWindow {
      var diff: real := (closes[n - 1] as real) - (closes[n - 1 - MomentumWindow] as real);
      Arith.DivSign(diff, closes[n - 1 - MomentumWindow]);
    }
  }
}
