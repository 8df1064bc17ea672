/** The cache-or-fetch stage: the persisted CSV files, the GDP download and
    the chunked per-sector download (main.py `fetch_economic_data`,
    `fetch_sector_data`). */
module SeriesCache {
  import opened Wrappers
  import opened Rows
  import opened DateRanges
  import opened Macro

  /** 2005-01-01 as a day number (days since 1970-01-01): the first day of
      sector history requested. */
  const SectorHistoryStart: int := 12784

  /** The broker's historical-data call for one instrument token and one
      chunk: `None` when the call raises, otherwise the rows it returned
      (possibly none). */
  type Broker = (int, DateRange) -> Option<seq<Candle>>

  /** A chunk call that contributes to the series: it succeeded and returned
      at least one row (`if data:`). */
  predicate Delivered(outcome: Option<seq<Candle>>) {
    outcome.Some? && outcome.value != []
  }

  /** `df_list` after walking the chunk plan in order: the rows of every
      delivered chunk, one frame per chunk. */
  function KeptChunks(token: int, plan: seq<DateRange>, broker: Broker): seq<seq<Candle>> {
    if plan == [] then []
    else
      var n := |plan| - 1;
      var outcome := broker(token, plan[n]);
      KeptChunks(token, plan[..n], broker) + (if Delivered(outcome) then [outcome.value] else [])
  }

  /** `pd.concat`: the frames' rows one after another. */
  function Concat(frames: seq<seq<Candle>>): seq<Candle> {
    if frames == [] then [] else Concat(frames[..|frames| - 1]) + frames[|frames| - 1]
  }

  /** The rows each chunk call produced, a failed call counting as no rows. */
  function ChunkRows(token: int, plan: seq<DateRange>, broker: Broker): seq<seq<Candle>> {
    seq(|plan|, j requires 0 <= j < |plan| => broker(token, plan[j]).GetOr([]))
  }

  lemma {:induction false} ConcatAppend(a: seq<seq<Candle>>, b: seq<seq<Candle>>)
    ensures Concat(a + b) == Concat(a) + Concat(b)
    decreases |b|
  {
    if b == [] {
      assert a + b == a;
    } else {
      var n := |b| - 1;
      assert (a + b)[..|a + b| - 1] == a + b[..n];
      assert (a + b)[|a + b| - 1] == b[n];
      ConcatAppend(a, b[..n]);
    }
  }

  /** Walking a plan in two parts keeps the chunks of each part, in order. */
  lemma {:induction false} KeptChunksAppend(token: int, p1: seq<DateRange>, p2: seq<DateRange>, broker: Broker)
    ensures KeptChunks(token, p1 + p2, broker) == KeptChunks(token, p1, broker) + KeptChunks(token, p2, broker)
    decreases |p2|
  {
    if p2 == [] {
      assert p1 + p2 == p1;
    } else {
      var n := |p2| - 1;
      assert (p1 + p2)[..|p1 + p2| - 1] == p1 + p2[..n];
      assert (p1 + p2)[|p1 + p2| - 1] == p2[n];
      KeptChunksAppend(token, p1, p2[..n], broker);
    }
  }

  /** `df_list` stays empty exactly when no chunk call delivered rows. */
  lemma {:induction false} KeptChunksEmptyIff(token: int, plan: seq<DateRange>, broker: Broker)
    ensures KeptChunks(token, plan, broker) == [] <==>
      forall j :: 0 <= j < |plan| ==> !Delivered(broker(token, plan[j]))
  {
    if plan != [] {
      var n := |plan| - 1;
      KeptChunksEmptyIff(token, plan[..n], broker);
      assert forall j :: 0 <= j < n ==> plan[..n][j] == plan[j];
    }
  }

  /** Every kept frame has rows, so the concatenation is empty only when
      nothing was kept. */
  lemma {:induction false} KeptChunksNonEmpty(token: int, plan: seq<DateRange>, broker: Broker)
    ensures forall k :: 0 <= k < |KeptChunks(token, plan, broker)| ==> KeptChunks(token, plan, broker)[k] != []
    ensures Concat(KeptChunks(token, plan, broker)) == [] <==> KeptChunks(token, plan, broker) == []
  {
    if plan != [] {
      var n := |plan| - 1;
      KeptChunksNonEmpty(token, plan[..n], broker);
      var kept := KeptChunks(token, plan, broker);
      if kept != [] {
        assert kept[..|kept| - 1] == KeptChunks(token, plan[..n], broker) || kept == KeptChunks(token, plan[..n], broker);
      }
    }
  }

  /** Dropping failed and empty chunks loses no rows: the kept frames
      concatenate to the same rows as all chunk results with failures read as
      empty. */
  lemma {:induction false} KeptRowsIgnoreFailures(token: int, plan: seq<DateRange>, broker: Broker)
    ensures Concat(KeptChunks(token, plan, broker)) == Concat(ChunkRows(token, plan, broker))
  {
    if plan != [] {
      var n := |plan| - 1;
      KeptRowsIgnoreFailures(token, plan[..n], broker);
      var rows := ChunkRows(token, plan, broker);
      assert rows[..n] == ChunkRows(token, plan[..n], broker);
      var outcome := broker(token, plan[n]);
      var init := KeptChunks(token, plan[..n], broker);
      assert Concat(rows) == Concat(rows[..n]) + rows[n];
      if Delivered(outcome) {
        ConcatAppend(init, [outcome.value]);
        assert Concat([outcome.value]) == outcome.value by {
          assert [outcome.value][..0] == [];
        }
      } else {
        assert rows[n] == [];
        assert KeptChunks(token, plan, broker) == init;
        assert Concat(rows[..n]) + rows[n] == Concat(rows[..n]);
      }
    }
  }

  /** The inner loop of `fetch_sector_data` for one sector: one broker call
      per chunk, in plan order, keeping the frames of delivered chunks. */
  method FetchChunks(token: int, plan: seq<DateRange>, broker: Broker)
    returns (dfList: seq<seq<Candle>>, calls: seq<DateRange>)
    ensures dfList == KeptChunks(token, plan, broker)
    ensures calls == plan
  {
    dfList, calls := [], [];
    for i := 0 to |plan|
      invariant dfList == KeptChunks(token, plan[..i], broker)
      invariant calls == plan[..i]
    {
      var data := broker(token, plan[i]);
      calls := calls + [plan[i]];
      if data.Some? && data.value != [] {
        dfList := dfList + [data.value];
      }
      assert plan[..i + 1][..i] == plan[..i];
    }
    assert plan[..|plan|] == plan;
  }

  /** What `fetch_sector_data` yields for one sector given the cache files:
      the cached rows on a hit; on a miss the concatenated delivered chunks,
      or nothing when no chunk delivered. */
  function SectorOutcome(files: map<string, seq<Candle>>, sector: string, token: int,
                         plan: seq<DateRange>, broker: Broker): Option<seq<Candle>> {
    if sector in files then Some(files[sector])
    else
      var dfList := KeptChunks(token, plan, broker);
      if dfList == [] then None else Some(Concat(dfList))
  }

  /** A cache hit returns the stored rows. A miss yields nothing exactly when
      no chunk call delivered rows; otherwise it yields the non-empty,
      in-order concatenation of all chunk results, failures read as empty. */
  lemma SectorOutcomeSpec(files: map<string, seq<Candle>>, sector: string, token: int,
                          plan: seq<DateRange>, broker: Broker)
    ensures var r := SectorOutcome(files, sector, token, plan, broker);
      && (sector in files ==> r == Some(files[sector]))
      && (sector !in files ==>
            (r.None? <==> forall j :: 0 <= j < |plan| ==> !Delivered(broker(token, plan[j]))))
      && (sector !in files && r.Some? ==>
            r.value != [] && r.value == Concat(ChunkRows(token, plan, broker)))
  {
    KeptChunksEmptyIff(token, plan, broker);
    KeptChunksNonEmpty(token, plan, broker);
    KeptRowsIgnoreFailures(token, plan, broker);
  }

  /** The `sector_data` dict returned for the first `|sectorTokens|` sectors:
      one entry per sector with data, in token-table order. */
  function SectorTable(files: map<string, seq<Candle>>, sectorTokens: seq<(string, int)>,
                       plan: seq<DateRange>, broker: Broker): seq<(string, seq<Candle>)> {
    if sectorTokens == [] then []
    else
      var n := |sectorTokens| - 1;
      var init := SectorTable(files, sectorTokens[..n], plan, broker);
      var outcome := SectorOutcome(files, sectorTokens[n].0, sectorTokens[n].1, plan, broker);
      init + (if outcome.Some? then [(sectorTokens[n].0, outcome.value)] else [])
  }

  /** The broker calls made for the first `|sectorTokens|` sectors: the whole
      plan for each sector without a cache file, none for the others. */
  function CallLog(files: map<string, seq<Candle>>, sectorTokens: seq<(string, int)>,
                   plan: seq<DateRange>): seq<(string, DateRange)> {
    if sectorTokens == [] then []
    else
      var n := |sectorTokens| - 1;
      var sector := sectorTokens[n].0;
      CallLog(files, sectorTokens[..n], plan) + (if sector in files then [] else Tagged(sector, plan))
  }

  /** The table is no longer than the token table and names only listed
      sectors. */
  lemma {:induction false} SectorTableKeys(files: map<string, seq<Candle>>, sectorTokens: seq<(string, int)>,
                                          plan: seq<DateRange>, broker: Broker)
    ensures |SectorTable(files, sectorTokens, plan, broker)| <= |sectorTokens|
    ensures forall k :: 0 <= k < |SectorTable(files, sectorTokens, plan, broker)| ==>
      SectorTable(files, sectorTokens, plan, broker)[k].0 in Keys(sectorTokens)
  {
    if sectorTokens != [] {
      var n := |sectorTokens| - 1;
      SectorTableKeys(files, sectorTokens[..n], plan, broker);
      assert Keys(sectorTokens) == Keys(sectorTokens[..n]) + [sectorTokens[n].0];
    }
  }

  /** Each chunk of `plan`, labelled with the sector it is fetched for. */
  function Tagged(sector: string, plan: seq<DateRange>): seq<(string, DateRange)> {
    seq(|plan|, j requires 0 <= j < |plan| => (sector, plan[j]))
  }

  /** Entry `j` of the token table is sector `s` and yields the rows `v`. */
  predicate Serves(files: map<string, seq<Candle>>, sectorTokens: seq<(string, int)>,
                   plan: seq<DateRange>, broker: Broker, j: int, s: string, v: seq<Candle>) {
    0 <= j < |sectorTokens| && sectorTokens[j].0 == s
    && SectorOutcome(files, s, sectorTokens[j].1, plan, broker) == Some(v)
  }

  /** The table holds `(s, v)` exactly when some listed sector `s` yields `v`:
      its cache file on a hit, its fetched rows on a miss that delivered. */
  lemma {:induction false} SectorTableMembership(files: map<string, seq<Candle>>, sectorTokens: seq<(string, int)>,
                                                plan: seq<DateRange>, broker: Broker, s: string, v: seq<Candle>)
    ensures (s, v) in SectorTable(files, sectorTokens, plan, broker) <==>
      exists j :: Serves(files, sectorTokens, plan, broker, j, s, v)
  {
    if sectorTokens != [] {
      var n := |sectorTokens| - 1;
      var init := sectorTokens[..n];
      var table := SectorTable(files, sectorTokens, plan, broker);
      var initTable := SectorTable(files, init, plan, broker);
      var outcome := SectorOutcome(files, sectorTokens[n].0, sectorTokens[n].1, plan, broker);
      var last := if outcome.Some? then [(sectorTokens[n].0, outcome.value)] else [];
      assert table == initTable + last;
      SectorTableMembership(files, init, plan, broker, s, v);
      if (s, v) in table {
        if (s, v) in initTable {
          var j :| Serves(files, init, plan, broker, j, s, v);
          assert init[j] == sectorTokens[j];
          assert Serves(files, sectorTokens, plan, broker, j, s, v);
        } else {
          assert (s, v) in last;
          assert Serves(files, sectorTokens, plan, broker, n, s, v);
        }
      }
      forall j | Serves(files, sectorTokens, plan, broker, j, s, v)
        ensures (s, v) in table
      {
        if j < n {
          assert init[j] == sectorTokens[j];
          assert Serves(files, init, plan, broker, j, s, v);
          assert (s, v) in initTable;
          var k :| 0 <= k < |initTable| && initTable[k] == (s, v);
          assert table[k] == (s, v);
        } else {
          assert last == [(s, v)];
        }
      }
    }
  }

  /** The broker is called for sector `s` and chunk `r` exactly when `s` is a
      listed sector without a cache file and `r` is in the plan; in
      particular a cache hit makes no call for that sector. */
  lemma {:induction false} CallLogMembership(files: map<string, seq<Candle>>, sectorTokens: seq<(string, int)>,
                                            plan: seq<DateRange>, s: string, r: DateRange)
    ensures (s, r) in CallLog(files, sectorTokens, plan) <==>
      s !in files && r in plan && s in Keys(sectorTokens)
  {
    if sectorTokens != [] {
      var n := |sectorTokens| - 1;
      CallLogMembership(files, sectorTokens[..n], plan, s, r);
      assert Keys(sectorTokens) == Keys(sectorTokens[..n]) + [sectorTokens[n].0];
      if s == sectorTokens[n].0 && s !in files && r in plan {
        var j :| 0 <= j < |plan| && plan[j] == r;
        assert Tagged(s, plan)[j] == (s, r);
      }
    }
  }

  /** Distinct sectors give a table with distinct keys. */
  lemma {:induction false} SectorTableDistinct(files: map<string, seq<Candle>>, sectorTokens: seq<(string, int)>,
                                              plan: seq<DateRange>, broker: Broker)
    requires DistinctKeys(sectorTokens)
    ensures DistinctKeys(SectorTable(files, sectorTokens, plan, broker))
  {
    if sectorTokens != [] {
      var n := |sectorTokens| - 1;
      SectorTableDistinct(files, sectorTokens[..n], plan, broker);
      SectorTableKeys(files, sectorTokens[..n], plan, broker);
      var init := SectorTable(files, sectorTokens[..n], plan, broker);
      assert sectorTokens[n].0 !in Keys(sectorTokens[..n]);
      assert forall k :: 0 <= k < |init| ==> init[k].0 != sectorTokens[n].0;
    }
  }

  /** Running the fetch again against the files the first run wrote serves
      every sector that got data from the cache: it returns the same rows
      whatever the broker now does, and calls the broker only for sectors
      that got no data the first time. */
  lemma RerunServesFromCache(files: map<string, seq<Candle>>, sectorTokens: seq<(string, int)>,
                             plan: seq<DateRange>, broker: Broker, plan2: seq<DateRange>, broker2: Broker)
    requires DistinctKeys(sectorTokens)
    ensures var table := SectorTable(files, sectorTokens, plan, broker);
      var files2 := files + ToMap(table);
      && (forall e :: e in table ==> e in SectorTable(files2, sectorTokens, plan2, broker2))
      && (forall c :: c in CallLog(files2, sectorTokens, plan2) ==> c.0 !in ToMap(table))
  {
    var table := SectorTable(files, sectorTokens, plan, broker);
    var files2 := files + ToMap(table);
    SectorTableDistinct(files, sectorTokens, plan, broker);
    forall e | e in table
      ensures e in SectorTable(files2, sectorTokens, plan2, broker2)
    {
      var i :| 0 <= i < |table| && table[i] == e;
      ToMapHolds(table, i);
      SectorTableMembership(files, sectorTokens, plan, broker, e.0, e.1);
      var j :| Serves(files, sectorTokens, plan, broker, j, e.0, e.1);
      assert Serves(files2, sectorTokens, plan2, broker2, j, e.0, e.1);
      SectorTableMembership(files2, sectorTokens, plan2, broker2, e.0, e.1);
    }
    forall c | c in CallLog(files2, sectorTokens, plan2)
      ensures c.0 !in ToMap(table)
    {
      CallLogMembership(files2, sectorTokens, plan2, c.0, c.1);
    }
  }

  /** While walking the token table, the sector at position `i` has no entry
      yet in the table built from the sectors before it, so the files written
      so far do not affect its cache test. */
  lemma NotYetFetched(files: map<string, seq<Candle>>, sectorTokens: seq<(string, int)>, i: int,
                      plan: seq<DateRange>, broker: Broker)
    requires DistinctKeys(sectorTokens) && 0 <= i < |sectorTokens|
    ensures var written := ToMap(SectorTable(files, sectorTokens[..i], plan, broker));
      && sectorTokens[i].0 !in written
      && (sectorTokens[i].0 in files + written <==> sectorTokens[i].0 in files)
      && (sectorTokens[i].0 in files ==> (files + written)[sectorTokens[i].0] == files[sectorTokens[i].0])
  {
    var table := SectorTable(files, sectorTokens[..i], plan, broker);
    SectorTableKeys(files, sectorTokens[..i], plan, broker);
    assert forall k :: 0 <= k < i ==> Keys(sectorTokens[..i])[k] == sectorTokens[k].0;
    assert sectorTokens[i].0 !in Keys(sectorTokens[..i]);
    assert forall k :: 0 <= k < |table| ==> table[k].0 != sectorTokens[i].0;
    assert sectorTokens[i].0 !in Keys(table);
  }

  /** Writing one more sector's file extends the map view of the table. */
  lemma FilesAfterEntry(files: map<string, seq<Candle>>, table: seq<(string, seq<Candle>)>,
                        sector: string, rows: seq<Candle>)
    ensures files + ToMap(table + [(sector, rows)]) == (files + ToMap(table))[sector := rows]
  {
    var extended := table + [(sector, rows)];
    assert extended[..|extended| - 1] == table;
  }

  /** The persisted cache: one CSV file for the GDP series and one per sector.
      Presence of a file is the only cache-hit signal; a file is trusted as is. */
  class Cache {
    /** `gdp_data.csv`, when it exists. */
    var gdpFile: Option<seq<GdpRow>>
    /** `<sector>_data.csv` for each sector that has one. */
    var sectorFiles: map<string, seq<Candle>>

    constructor (gdp: Option<seq<GdpRow>>, sectors: map<string, seq<Candle>>)
      ensures gdpFile == gdp && sectorFiles == sectors
    {
      gdpFile := gdp;
      sectorFiles := sectors;
    }

    /** `fetch_economic_data`. `fred` is what the macro-data provider would
        return: `None` when the download raises. The provider is consulted
        only when there is no GDP file; an empty or failed download writes
        nothing and yields `None`; otherwise the table with its growth column
        is written and then read back. */
    method FetchEconomicData(fred: Option<seq<GdpObservation>>) returns (gdp: Option<seq<GdpRow>>)
      modifies this
      ensures old(gdpFile).Some? ==> gdp == old(gdpFile) && gdpFile == old(gdpFile)
      ensures old(gdpFile).None? && (fred.None? || fred.value == []) ==> gdp.None? && gdpFile.None?
      ensures old(gdpFile).None? && fred.Some? && fred.value != [] ==>
        gdp == Some(WithGrowth(fred.value)) && gdpFile == gdp
      ensures sectorFiles == old(sectorFiles)
    {
      if gdpFile.None? {
        if fred.None? || fred.value == [] {
          return None;
        }
        gdpFile := Some(WithGrowth(fred.value));
      }
      gdp := gdpFile;
    }

    /** One iteration of the sector loop of `fetch_sector_data`: read the
        cache file if there is one; otherwise fetch every chunk and, if any
        delivered, write and return their concatenation. */
    method FetchSector(sector: string, token: int, plan: seq<DateRange>, broker: Broker)
      returns (series: Option<seq<Candle>>, calls: seq<DateRange>)
      modifies this
      ensures series == SectorOutcome(old(sectorFiles), sector, token, plan, broker)
      ensures calls == if sector in old(sectorFiles) then [] else plan
      ensures sectorFiles == if sector in old(sectorFiles) || series.None? then old(sectorFiles)
                             else old(sectorFiles)[sector := series.value]
      ensures gdpFile == old(gdpFile)
    {
      if sector !in sectorFiles {
        var dfList;
        dfList, calls := FetchChunks(token, plan, broker);
        if dfList != [] {
          var sectorDf := Concat(dfList);
          sectorFiles := sectorFiles[sector := sectorDf];
          series := Some(sectorDf);
        } else {
          series := None;
        }
      } else {
        series := Some(sectorFiles[sector]);
        calls := [];
      }
    }

    /** `fetch_sector_data`: plan the chunks from 2005-01-01 to `today`, then
        serve each sector of the token table from the cache or the broker.
        Returns the `sector_data` dict and the log of broker calls made. */
    method FetchSectorData(sectorTokens: seq<(string, int)>, today: int, broker: Broker)
      returns (sectorData: seq<(string, seq<Candle>)>, calls: seq<(string, DateRange)>)
      requires DistinctKeys(sectorTokens)
      modifies this
      ensures var plan := Chunks(SectorHistoryStart, today, ProviderChunkDays);
        && sectorData == SectorTable(old(sectorFiles), sectorTokens, plan, broker)
        && calls == CallLog(old(sectorFiles), sectorTokens, plan)
      ensures sectorFiles == old(sectorFiles) + ToMap(sectorData)
      ensures gdpFile == old(gdpFile)
    {
      var plan := GenerateDateRanges(SectorHistoryStart, today, ProviderChunkDays);
      sectorData, calls := [], [];
      for i := 0 to |sectorTokens|
        invariant sectorData == SectorTable(old(sectorFiles), sectorTokens[..i], plan, broker)
        invariant calls == CallLog(old(sectorFiles), sectorTokens[..i], plan)
        invariant sectorFiles == old(sectorFiles) + ToMap(sectorData)
        invariant gdpFile == old(gdpFile)
      {
        var sector, token := sectorTokens[i].0, sectorTokens[i].1;
        ghost var done := sectorTokens[..i + 1];
        assert done[..i] == sectorTokens[..i] && done[i] == (sector, token);
        NotYetFetched(old(sectorFiles), sectorTokens, i, plan, broker);
        ghost var dataBefore, filesBefore := sectorData, sectorFiles;
        assert SectorOutcome(filesBefore, sector, token, plan, broker)
            == SectorOutcome(old(sectorFiles), sector, token, plan, broker);
        var series, sectorCalls := FetchSector(sector, token, plan, broker);
        if series.Some? {
          sectorData := sectorData + [(sector, series.value)];
          FilesAfterEntry(old(sectorFiles), dataBefore, sector, series.value);
          if sector in filesBefore {
            assert filesBefore[sector := series.value] == filesBefore;
          }
        }
        calls := calls + Tagged(sector, sectorCalls);
        assert SectorTable(old(sectorFiles), done, plan, broker)
            == dataBefore + (if series.Some? then [(sector, series.value)] else []);
        assert calls == CallLog(old(sectorFiles), done, plan);
      }
      assert sectorTokens[..|sectorTokens|] == sectorTokens;
    }
  }
}
