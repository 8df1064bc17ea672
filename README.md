# Economic-cycle sector analysis, modelled in Dafny

The analysed program pulls daily closes of five NSE sector indices (Bank, IT,
Pharma, FMCG, Auto) from a broker and India's quarterly real GDP from FRED.
It labels each GDP quarter expansion or recession. It then measures how each
sector did in each phase and recommends sectors. This project models the core
of that pipeline in `main.py`:

- **Date-range chunker** (`date_ranges.dfy`, module `DateRanges`). It splits a
  request span into chunks of at most 2000 days, the broker's per-request
  limit.
- **Instrument lookup** (`instruments.dfy`, module `Instruments`). It finds
  the first `INDICES` instrument whose trading symbol matches each sector's.
- **GDP growth column** (`macro.dfy`, module `Macro`). The quarter-over-quarter
  percentage change of the GDP level.
- **Cache-or-fetch** (`series_cache.dfy`, module `SeriesCache`). The class
  `Cache` holds the CSV files as fields: `gdpFile` and the `sectorFiles` map.
  A sector with a file is served from it. A sector without one is fetched
  chunk by chunk, failed and empty chunks are skipped, and the rows are
  concatenated and written back. The broker and FRED are inputs: a function
  from (token, chunk) to an optional frame, and an optional GDP series.
- **Phase classifier** (`phases.dfy`, module `Phases`). A quarter is a
  recession when its growth and the previous quarter's growth are both
  negative. The module also holds the "current phase" rule of
  `make_recommendations`. A missing growth value (pandas' NaN) is `None`.
- **Quarterly returns and momentum** (`returns.dfy`, module `Returns`).
  - The last close of each quarter, then quarter-over-quarter fractional
    changes, with the first quarter dropped.
  - The 90-observation momentum.
- **Phase join** (`performance.dfy`, module `Performance`). A left join of each
  sector's quarterly returns onto the phase labels, keyed by quarter, then the
  mean return per phase in exact `real` arithmetic.
- **Recommendation rule** (`recommendations.dfy`, module `Recommendations`). A
  sector is recommended when its expansion mean (0 when it has none) is not
  negative and its momentum is positive. Recommendations keep the order of the
  performance table.

Shared pieces:

- `wrappers.dfy`: `Option`.
- `rows.dfy`: the row types. Prices and GDP levels are positive reals. It also
  reads an ordered Python dict, a sequence of key/value pairs, as a map.
- `arith.dfy`: facts about real division.

Days are integers counting days since 1970-01-01, so 2005-01-01 is day 12784.
The pandas quarter calendar is a function from day to quarter key, supplied by
the caller.

Loops in the source are `method`s with loop invariants. Each method is proved
equal to a pure specification function. The properties of those functions are
lemmas.

What the code does at its edges, as the model states it:

- **Inverted span.** `generate_date_ranges` raises no error when
  `start > end`. Its `while start < end` loop simply returns an empty plan, and
  it does the same when `start == end`.
- **Last day missed.** The chunks do not always reach `end`. When `end - start`
  is a positive multiple of `chunk_days`, the loop stops one day short. For
  example, days 0..4000 give two chunks ending on day 3999 (`ChunksEdges`,
  `ChunksCoverage`, `FourThousandDays`).
- **Single growth value.** The current phase is recession when every value
  of `iloc[-2:]`, the last two growth values or fewer, is negative. So a
  series with a single negative growth value yields recession, and an empty
  one does too, because `all` of nothing is true (`CurrentPhaseRule`,
  `CurrentPhaseSingleNegative`).

## Model

| member | source | states |
|---|---|---|
| DateRanges.GenerateDateRanges | main.py:41-53 | the loop returns exactly the chunk plan: chunk after chunk from `start`, each ending `chunkDays - 1` days later or at `end`, while `start < end` |
| DateRanges.ChunksWithinSpan | main.py:46-51 | every chunk is a well-formed range inside `[start, end]` spanning at most `chunkDays` days |
| DateRanges.ChunksContiguous | main.py:47-51 | each chunk starts the day after the previous chunk ends: no gap, no overlap |
| DateRanges.ChunksEdges | main.py:46-53 | the plan is empty iff `start >= end`; otherwise it starts at `start` and its last chunk ends at `end`, or at `end - 1` when the span is a positive multiple of `chunkDays` |
| DateRanges.ChunksCoverage | main.py:46-51 | day `d` is covered iff `start < end` and `start <= d <= CoverageEnd`, so the final day is lost exactly when the span is a multiple of `chunkDays` |
| DateRanges.ChunksCount | main.py:46-51 | the number of chunks is the span divided by `chunkDays`, rounded up (0 for an empty span) |
| DateRanges.FourThousandDays | main.py:41-53 | with 2000-day chunks, days 0..3999 and 0..4000 both give [0..1999, 2000..3999], and day 4000 is not covered |
| Instruments.FindToken | main.py:79 | no token iff no instrument has the symbol in segment `INDICES`; otherwise the token of the first such instrument |
| Instruments.LookupSectorTokens | main.py:77-85 | the loop over the sector dict builds the token table in sector order |
| Instruments.TokenTableMembership | main.py:78-81 | `(sector, t)` is in the table iff the sector is listed and its first matching token is `t` and truthy (non-zero) |
| Instruments.TokenTableKeysAreSectors | main.py:77-81 | the table is no longer than the sector dict and names only listed sectors |
| Instruments.TokenTableDistinct | main.py:77-81 | distinct sector names give a token table with distinct names: one row per sector at most, as the dict assignment gives |
| Instruments.SectorTokensDistinct | main.py:65-81 | the table built from the five analysed sectors has distinct names, so it meets what the sector fetch requires |
| Macro.WithGrowth | main.py:101 | the growth column has one value per quarter, missing for the first quarter and present for every later one |
| Macro.GrowthSign | main.py:101 | growth is negative iff the GDP level fell, zero iff it stayed the same |
| Macro.GrowthReconstructsLevel | main.py:101 | the growth column is invertible: each level is the previous level times `1 + growth / 100` |
| SeriesCache.FetchChunks | main.py:119-132 | the chunk loop makes one broker call per planned chunk, in order, and keeps exactly the calls that succeeded with rows |
| SeriesCache.KeptChunksAppend | main.py:121-128 | walking a plan in two parts keeps the frames of each part, in order |
| SeriesCache.KeptChunksEmptyIff | main.py:124-134 | the frame list stays empty iff no chunk call delivered rows |
| SeriesCache.KeptChunksNonEmpty | main.py:124-135 | every kept frame has rows, so the concatenation is empty iff the frame list is |
| SeriesCache.KeptRowsIgnoreFailures | main.py:122-135 | skipping failed and empty chunks loses no rows: the concatenation equals that of every call's rows, a failure counting as none |
| SeriesCache.ConcatAppend | main.py:135 | concatenating two lists of frames is concatenating each |
| SeriesCache.SectorOutcomeSpec | main.py:118-145 | a cached sector yields its stored rows; a fetched one yields nothing iff no chunk delivered rows, and otherwise the non-empty concatenation of the delivered rows |
| SeriesCache.SectorTableKeys | main.py:117-148 | `sector_data` is no longer than the token table and names only its sectors (`SectorTableDistinct` gives one entry per sector) |
| SeriesCache.SectorTableMembership | main.py:117-148 | `(s, v)` is in `sector_data` iff `s` is in the token table and its cache-or-fetch outcome is `v` |
| SeriesCache.CallLogMembership | main.py:117-123 | the broker is called for sector `s` and chunk `r` iff `s` is in the token table, has no cache file and `r` is in the plan |
| SeriesCache.SectorTableDistinct | main.py:112-148 | distinct sectors give `sector_data` distinct keys |
| SeriesCache.RerunServesFromCache | main.py:117-148 | a second run against the files the first wrote returns every entry of the first run whatever the broker now does, and calls the broker only for sectors that got no data the first time |
| SeriesCache.Cache.FetchEconomicData | main.py:92-108 | an existing GDP file is returned unchanged; otherwise an empty or failed download yields nothing and writes nothing, and a non-empty one gets its growth column, is written and returned |
| SeriesCache.Cache.FetchSector | main.py:117-145 | one sector: a cache hit makes no call and writes nothing; a miss calls the broker for the whole plan and writes a file only when rows were delivered |
| SeriesCache.Cache.FetchSectorData | main.py:111-148 | plans chunks from 2005-01-01 to today, returns the table of cache-or-fetch outcomes and the call log, and leaves the files as the old files plus one per fetched sector |
| Phases.IdentifyPhases | main.py:151-157 | the table keeps its rows and gains the phase column of the classifier: recession iff the row and its predecessor both have negative growth |
| Phases.RecessionRun | main.py:153-156 | labels `lo..hi` are all recession iff growth values `lo - 1..hi` are all present and negative |
| Phases.FirstIsExpansion | main.py:152-153 | the first quarter is always expansion |
| Phases.ClassifierExample | main.py:151-157 | growth `+1, -1, -2, +3, -1` is labelled E, E, R, E, E |
| Phases.CurrentPhaseRule | main.py:251-252 | the current phase is recession iff every one of the last (up to two) growth values is present and negative; an empty series gives recession |
| Phases.CurrentPhaseMatchesLastLabel | main.py:251-252 | with two or more values, or a single non-negative one, the current phase is the classifier's label of the last quarter |
| Phases.CurrentPhaseSingleNegative | main.py:251-252 | a single negative value is where the rules part: current phase recession, classifier label expansion |
| Phases.CurrentPhaseMatchesOnGdpTable | main.py:251-252 | on any GDP table built by the growth step, the current phase is the last quarter's label |
| Returns.CalculateQuarterlyReturns | main.py:160-173 | the per-sector loop gives each sector, in order, the returns of its quarter-end closes |
| Returns.QuarterEndsAreQuarterEnds | main.py:166 | every resampled close is the last row of its quarter |
| Returns.QuarterEndsKeepLastClose | main.py:166 | the last row of every quarter appears among the resampled closes |
| Returns.QuarterEndsCoverQuarters | main.py:166 | every quarter that has a row appears among the resampled closes |
| Returns.QuarterEndsIncreasing | main.py:166 | on time-ordered rows the resampled quarters strictly increase: one close per quarter |
| Returns.SectorReturnsCount | main.py:166-167 | there is one return per quarter with data, except the first |
| Returns.PctChange | main.py:167 | n quarterly closes give n - 1 returns (none for one close) |
| Returns.PctChangeAt | main.py:167 | return `i` is labelled with quarter `i + 1` and is its close's fractional change over quarter `i`'s |
| Returns.ReturnsCompoundToLastClose | main.py:167 | the returns invert the closes: compounding them from the first quarter's close gives the last quarter's close |
| Returns.PctChangeExample | main.py:166-167 | closes 100 then 110 give one return of 0.1 for the second quarter; a single quarter gives none |
| Returns.MomentumSign | main.py:256-257 | momentum is positive iff there are more than 90 closes and the latest exceeds the one 90 rows earlier |
| Performance.AnalyzePerformance | main.py:176-198 | the per-sector loop gives each sector, in order, the mean return per phase of its joined returns |
| Performance.JoinMembership | main.py:181-187 | a row `(v, p)` is in the join iff some return of value `v` shares its quarter with a GDP row labelled `p` |
| Performance.JoinAppend | main.py:181-187 | the join works return by return: joining two runs is joining each, in order |
| Performance.PerformanceKeys | main.py:188-193 | phase `p` is a key of a sector's entry iff some return falls in a quarter labelled `p` |
| Performance.NoOverlapEmpty | main.py:188-193 | a sector with no return in a labelled quarter, including one with no returns, gets an empty entry and no error |
| Performance.UnmatchedReturnIgnored | main.py:181-193 | deleting a return whose quarter has no GDP row leaves the sector's entry unchanged |
| Performance.ReturnsInNonEmpty | main.py:192 | a phase's group is non-empty iff some joined row carries that phase |
| Performance.ReturnsInMembers | main.py:192 | a value is in a phase's group iff some joined row carries it with that phase (membership only; `GroupsFollowReturns` gives the multiplicities) |
| Performance.GroupsFollowReturns | main.py:181-192 | with one GDP row per quarter, the group averaged for phase `p` is the values of the returns in quarters labelled `p`, in order, each return counted once |
| Performance.SectorPerformanceMeans | main.py:181-193 | with one GDP row per quarter, phase `p` has an entry iff some return falls in a quarter labelled `p`, and the entry is the mean of exactly those returns' values |
| Performance.RepeatedValuesCount | main.py:192 | joined rows `(0.1, E), (0.1, E), (0.4, E)` have expansion mean 0.2: a repeated value counts twice |
| Performance.MeanBounds | main.py:192 | a group's mean lies within any lower bound and strict upper bound of its members |
| Performance.ExampleTableClassified | main.py:151-157 | the example GDP table, growth missing, -10, -10, carries the classifier's labels E, E, R |
| Performance.JoinExample | main.py:181-187 | returns for quarters 2, 3 and 4 against phases E, E, R for quarters 1 to 3 join to `(0.1, E), (-0.05, R)`, and quarter 4 drops out |
| Performance.PhaseMeansExample | main.py:192 | joined rows `(0.1, E), (-0.05, R), (0.3, E)` give means E 0.2 and R -0.05 |
| Recommendations.RecentOfSector | main.py:253-267 | when the sectors of `sector_data` are distinct, the momentum looked up in `recent_returns` for one of them is that sector's own 90-row momentum |
| Recommendations.MakeRecommendations | main.py:249-287 | returns the current phase of the growth column and the performance-table sectors passing the inclusion rule, using each sector's momentum (0 when it has no price data) |
| Recommendations.RecommendedMembership | main.py:265-270 | a sector is recommended iff its performance entry has expansion mean (default 0) `>= 0` and its momentum is `> 0` |
| Recommendations.RecommendedInOrder | main.py:265-270 | recommendations are a subsequence of the performance table's sectors, without repeats |
| Recommendations.QualifiesExamples | main.py:266-270 | expansion mean 0.02 with momentum 0.01 is in; mean -0.01 is out whatever the momentum; no expansion data with momentum 0.05 is in |
| Recommendations.ExpansionLossesExclude | main.py:192-270 | a sector whose every return in an expansion quarter was a loss, with at least one such return, has a negative expansion mean and is never recommended |
| Recommendations.MomentumRequired | main.py:253-270 | a recommended sector has price data with more than 90 rows and a latest close above the close 90 rows earlier |

## Left out

- `get_access_token` and the token web server (`app.py`), the broker login, and the `kite.instruments` call. The instrument list is an input, and the `exit(1)` after an error fetching it is not modelled.
- The network calls (`kite.historical_data`, `pdr.get_data_fred`). Each is an input table of outcomes. An exception and an empty answer are both "no rows", which is all the code distinguishes.
- CSV reading and writing, and date and timezone parsing. Files are the `Cache` fields, and dates are day numbers.
- The pandas quarter calendar. It is a caller-supplied function from day to quarter key, and the GDP rows carry their quarter key directly. The re-indexing of the GDP table to quarter-end timestamps inside `analyze_performance` is taken as already done.
- `time.sleep`, logging, printing, the summary table, `visualize_data`, `predict_sectors_and_mfs`, the top-level sequencing, and its `exit(1)` calls.
- The `except` branches of `calculate_quarterly_returns`, `analyze_performance` and the momentum loop, and the outer `(None, [])` path of `make_recommendations`. They catch pandas errors on malformed frames (missing columns, unparsable dates). The typed rows of the model cannot raise them.
- Empty quarters inside a price series. `resample('QE').last()` would give them a NaN close, which `pct_change` pads over. The model resamples only the quarters that have rows, which is the same whenever no quarter between the first and last is empty.
- Division by a zero GDP level or price, which pandas turns into ±inf. Levels and prices are positive by type.
- Returns.QuarterEndsIncreasing: it, and the lemmas that use it, require the rows in time order (quarter keys non-decreasing), as the broker delivers them. `QuarterEnds` keeps the last row of each run of equal quarter keys, which is `resample('QE').last()` only on rows in date order.
- Unordered price rows. `resample` sorts rows by date before taking each quarter's last close; the model does not sort. Rows in quarters 1, 2, 1 give three closes in the model where pandas gives two.
- DateRanges.GenerateDateRanges: it requires `chunkDays >= 1`. The code's only caller passes the default 2000. With `chunk_days <= 0` the source loops forever.
