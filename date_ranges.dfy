/** The date-range chunker: splits a request span into sub-ranges no longer
    than the broker's per-request limit (main.py `generate_date_ranges`). */
module DateRanges {

  /** An inclusive range of days `[first, last]`. */
  datatype DateRange = DateRange(first: int, last: int)

  /** The broker's per-request limit, the default `chunk_days`. */
  const ProviderChunkDays: int := 2000

  /** The end of the chunk that starts at `start`: `chunkDays - 1` days later,
      clipped to `end`. */
  function ChunkEnd(start: int, end: int, chunkDays: int): int {
    if start + chunkDays - 1 > end then end else start + chunkDays - 1
  }

  /** The chunk plan, as the loop of `generate_date_ranges` builds it: while
      `start < end`, emit `[start, ChunkEnd]` and continue the day after. */
  function Chunks(start: int, end: int, chunkDays: int): seq<DateRange>
    requires chunkDays >= 1
    decreases end - start
  {
    if start >= end then []
    else
      var chunkEnd := ChunkEnd(start, end, chunkDays);
      [DateRange(start, chunkEnd)] + Chunks(chunkEnd + 1, end, chunkDays)
  }

  /** The last day the plan covers when `start < end`: `end` itself, except
      when the span `end - start` is a positive multiple of `chunkDays`, in
      which case the loop stops one day short. */
  function CoverageEnd(start: int, end: int, chunkDays: int): int
    requires chunkDays >= 1
  {
    if (end - start) % chunkDays == 0 then end - 1 else end
  }

  /** Each range starts the day after the previous one ends. */
  predicate Contiguous(ranges: seq<DateRange>) {
    forall i :: 0 <= i < |ranges| - 1 ==> ranges[i + 1].first == ranges[i].last + 1
  }

  /** Day `d` lies in some chunk of `ranges`. */
  predicate Covered(ranges: seq<DateRange>, d: int) {
    exists i :: 0 <= i < |ranges| && ranges[i].first <= d <= ranges[i].last
  }

  /** `generate_date_ranges`: the while loop advancing `start` and appending
      to `ranges`. A `chunkDays` below one would make the source loop forever. */
  method GenerateDateRanges(startDay: int, endDay: int, chunkDays: int) returns (ranges: seq<DateRange>)
    requires chunkDays >= 1
    ensures ranges == Chunks(startDay, endDay, chunkDays)
  {
    var start := startDay;
    ranges := [];
    while start < endDay
      invariant ranges + Chunks(start, endDay, chunkDays) == Chunks(startDay, endDay, chunkDays)
      decreases endDay - start
    {
      var chunkEnd := start + chunkDays - 1;
      if chunkEnd > endDay {
        chunkEnd := endDay;
      }
      ranges := ranges + [DateRange(start, chunkEnd)];
      start := chunkEnd + 1;
    }
  }

  /** Every chunk is a well-formed range inside `[start, end]` spanning at most
      `chunkDays` days. */
  lemma {:induction false} ChunksWithinSpan(start: int, end: int, chunkDays: int)
    requires chunkDays >= 1
    ensures forall i :: 0 <= i < |Chunks(start, end, chunkDays)| ==>
      var r := Chunks(start, end, chunkDays)[i];
      start <= r.first <= r.last <= end && r.last - r.first <= chunkDays - 1
    decreases end - start
  {
    if start < end {
      var chunkEnd := ChunkEnd(start, end, chunkDays);
      ChunksWithinSpan(chunkEnd + 1, end, chunkDays);
    }
  }

  /** Consecutive chunks are contiguous: each starts the day after the previous
      one ends, so no two chunks overlap and no day between them is skipped. */
  lemma {:induction false} ChunksContiguous(start: int, end: int, chunkDays: int)
    requires chunkDays >= 1
    ensures Contiguous(Chunks(start, end, chunkDays))
    decreases end - start
  {
    if start < end {
      var chunkEnd := ChunkEnd(start, end, chunkDays);
      var c := Chunks(start, end, chunkDays);
      var rest := Chunks(chunkEnd + 1, end, chunkDays);
      assert c == [DateRange(start, chunkEnd)] + rest;
      ChunksContiguous(chunkEnd + 1, end, chunkDays);
      forall i | 0 <= i < |c| - 1
        ensures c[i + 1].first == c[i].last + 1
      {
        if i == 0 {
          assert c[1] == rest[0];
          assert chunkEnd + 1 < end;
          assert rest[0].first == chunkEnd + 1;
        } else {
          assert c[i] == rest[i - 1] && c[i + 1] == rest[i];
        }
      }
    }
  }

  /** A product of a divisor `k >= 1` with a non-zero integer is at least `k`
      in size. */
  lemma MulAtLeast(k: int, m: int)
    requires k >= 1 && m != 0
    ensures m > 0 ==> k * m >= k
    ensures m < 0 ==> k * m <= -k
    decreases if m > 0 then m else -m
  {
    if m > 0 {
      assert k * m == k * (m - 1) + k;
      if m > 1 { MulAtLeast(k, m - 1); }
    } else {
      assert k * m == k * (m + 1) - k;
      if m < -1 { MulAtLeast(k, m + 1); }
    }
  }

  /** Subtracting the divisor lowers the Euclidean quotient by one and keeps
      the remainder. */
  lemma DivModShift(x: int, k: int)
    requires k >= 1
    ensures (x - k) % k == x % k
    ensures (x - k) / k == x / k - 1
  {
    var q, r := x / k, x % k;
    var q', r' := (x - k) / k, (x - k) % k;
    assert x == k * q + r && 0 <= r < k;
    assert x - k == k * q' + r' && 0 <= r' < k;
    var m := q - 1 - q';
    assert k * m == k * q - k - k * q';
    assert k * m == r' - r;
    if m != 0 {
      MulAtLeast(k, m);
    }
    assert m == 0;
  }

  /** The plan is empty exactly when `start >= end` (no error is raised);
      otherwise it starts at `start` and its last chunk ends at
      `CoverageEnd`: at `end`, unless the span is a multiple of `chunkDays`. */
  lemma {:induction false} ChunksEdges(start: int, end: int, chunkDays: int)
    requires chunkDays >= 1
    ensures var c := Chunks(start, end, chunkDays);
      && (c == [] <==> start >= end)
      && (start < end ==> c[0].first == start && c[|c| - 1].last == CoverageEnd(start, end, chunkDays))
    decreases end - start
  {
    if start < end {
      var chunkEnd := ChunkEnd(start, end, chunkDays);
      if chunkEnd == end {
        assert 0 < end - start < chunkDays;
        assert (end - start) % chunkDays == end - start;
      } else {
        var next := start + chunkDays;
        DivModShift(end - start, chunkDays);
        if next < end {
          ChunksEdges(next, end, chunkDays);
        } else {
          assert end - start == chunkDays;
        }
      }
    }
  }

  /** The days the plan covers are exactly `[start, CoverageEnd]`; in
      particular day `end` is left out when the span is a multiple of
      `chunkDays`, and nothing is covered when `start >= end`. */
  lemma {:induction false} ChunksCoverage(start: int, end: int, chunkDays: int, d: int)
    requires chunkDays >= 1
    ensures Covered(Chunks(start, end, chunkDays), d) <==>
      start < end && start <= d <= CoverageEnd(start, end, chunkDays)
    decreases end - start
  {
    var c := Chunks(start, end, chunkDays);
    if start < end {
      var chunkEnd := ChunkEnd(start, end, chunkDays);
      var rest := Chunks(chunkEnd + 1, end, chunkDays);
      assert c == [DateRange(start, chunkEnd)] + rest;
      ChunksCoverage(chunkEnd + 1, end, chunkDays, d);
      ChunksEdges(start, end, chunkDays);
      ChunksEdges(chunkEnd + 1, end, chunkDays);
      ChunksWithinSpan(chunkEnd + 1, end, chunkDays);
      if Covered(c, d) {
        var i :| 0 <= i < |c| && c[i].first <= d <= c[i].last;
        if i > 0 {
          assert rest[i - 1] == c[i];
          assert Covered(rest, d);
        }
      }
      if start <= d <= CoverageEnd(start, end, chunkDays) {
        if d <= chunkEnd {
          assert c[0].first <= d <= c[0].last;
        } else {
          assert c[|c| - 1] == rest[|rest| - 1];
          assert Covered(rest, d);
          var i :| 0 <= i < |rest| && rest[i].first <= d <= rest[i].last;
          assert c[i + 1] == rest[i];
        }
      }
    }
  }

  /** A number below the divisor has quotient zero. */
  lemma DivSmall(y: int, k: int)
    requires 0 <= y < k
    ensures y / k == 0
  {
  }

  /** The number of chunks is the span divided by `chunkDays`, rounded up. */
  lemma {:induction false} ChunksCount(start: int, end: int, chunkDays: int)
    requires chunkDays >= 1
    ensures |Chunks(start, end, chunkDays)| ==
      if start >= end then 0 else (end - start + chunkDays - 1) / chunkDays
    decreases end - start
  {
    if start < end {
      var chunkEnd := ChunkEnd(start, end, chunkDays);
      var x := end - start + chunkDays - 1;
      ChunksCount(chunkEnd + 1, end, chunkDays);
      DivModShift(x, chunkDays);
      if chunkEnd == end {
        DivSmall(x - chunkDays, chunkDays);
      }
    }
  }

  /** With the default 2000-day limit, a span of 4000 days (day 0 to day 3999)
      takes two full chunks, while the span from day 0 to day 4000 takes the
      same two chunks and leaves day 4000 uncovered. */
  lemma FourThousandDays()
    ensures Chunks(0, 3999, ProviderChunkDays) == [DateRange(0, 1999), DateRange(2000, 3999)]
    ensures Chunks(0, 4000, ProviderChunkDays) == [DateRange(0, 1999), DateRange(2000, 3999)]
    ensures !Covered(Chunks(0, 4000, ProviderChunkDays), 4000)
  {
    assert Chunks(4000, 4000, ProviderChunkDays) == [];
    ChunksCoverage(0, 4000, ProviderChunkDays, 4000);
  }
}
