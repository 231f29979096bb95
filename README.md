# Stability rollups and the client-offset index, in Dafny

This project models two parts of the Mozilla telemetry data pipeline.

**The stability rollup engine** (`reports/stability-summary/rollup.py`).
For each target day it runs three SQL rollups over day-sharded tables: Counts, daily Actives and Crashes. Each rollup is written to S3 as a CSV artifact, and then `summarize(date)` is called. That much is `put_daily`. The command-line driver turns its arguments into a range of days:

- it optionally moves the start back by the latency interval (10 days);
- it clamps the end to the cutoff (yesterday);
- it rejects an empty range;
- it runs `put_daily` on each day in ascending order.

The model covers:

- **Dates.** `date_range`, the proleptic-Gregorian conversion behind `date.year` and `strftime('%Y%m%d')`, and the window of shards each step reads.
- **Queries.** The `UNION ALL` of one sub-select per shard and its row filter. What the three queries compute is a pure model over the union's rows: `SUM … GROUP BY`, `COUNT(*) GROUP BY`, and `DENSE_RANK`/`ROW_NUMBER` per client keeping `rownumber = 1`.
- **Outputs.** The headers, and the S3 key scheme.
- **Execution.** A class that writes each artifact row by row and runs the day loop.

The database is a value: the shard tables by name. S3 and `summarize` are an event log.

**The offset index** (`heka/cmd/get-clients/main.go`).

- `OffsetCache` maps each client id to an append-only list of message locations and keeps a running count.
- `readOffsets` fills it from a tab-separated file and stops at the first bad line.
- `makeInt` parses a decimal string into the `uint32` range, on top of `strconv.ParseInt`, which is modelled too.
- Each location is fetched with a `Range: bytes=o-(o+l-1)` header computed in `uint32`.
- The `-workers` flag is validated.

Files:

| file | module | contents |
|---|---|---|
| wrappers.dfy | Wrappers | `Option` |
| digits.dfy | Digits | decimal rendering and reading of digit strings |
| dates.dfy | Dates | ordinals, civil dates, `%Y%m%d` |
| date_window.dfy | DateWindow | `date_range` |
| grouping.dfy | Grouping | `GROUP BY` with `SUM`/`COUNT(*)` and its conservation law |
| rollup_semantics.dfy | RollupSemantics | the Counts, Crashes and Actives rollups over rows |
| rollup_queries.dfy | RollupQueries | windows, filters, shard names, union plans, headers, paths |
| rollup_driver.dfy | RollupDriver | executing a step, `put_daily`, the range driver, `CsvUpload`, `Rollup` |
| go_numbers.dfy | GoNumbers | `uint32` arithmetic, `strconv.ParseUint`/`ParseInt`, `makeInt` |
| go_strings.dfy | GoStrings | `strings.Split` and `strings.Join` |
| offset_cache.dfy | OffsetIndex | `MessageLocation`, `OffsetCache` |
| offsets_file.dfy | OffsetsFile | `readOffsets` |
| get_clients.dfy | GetClients | the Range header, the worker count |

### How the model reads the code

- A date is its Python ordinal, so `date + timedelta(days=n)` is `d + n`.
- `current_cutoff` (line 14) and `date.today()` (line 372) are parameters, `cutoff` and `today`. The program's own setting is `cutoff = today - 1`, which `RollupDriver.DefaultRun` uses.
- `cur.execute` fails in two cases:
  - a union with no sub-select is invalid SQL;
  - a sub-select names a table that does not exist.

  Either exception ends the program with status 1, after the artifacts already uploaded. Because the driver clamps every day to the cutoff, only the second case can occur (`RollupDriver.DailyRunSucceeds`).
- Under the daily filter `subsessiondate = day`, every client that survives the daily Actives rollup has `activedays = 1` (`RollupSemantics.DailyActiveDaysIsOne`). The `activedays` column counts history only in the weekly rollup.
- The weekly Actives step is modelled (window, filter, path), but `put_daily` does not call it, because lines 348-349 are commented out.

## Model

| member | source | states |
|---|---|---|
| DateWindow.DateRange | reports/stability-summary/rollup.py:16-22 | yields `date + i` in strictly ascending order; at most `days` values, all ≤ cutoff; empty exactly when `days = 0` or `date > cutoff`; stops short of `days` only at the first date past the cutoff |
| DateWindow.InDateRange | reports/stability-summary/rollup.py:16-22 | `d` is yielded iff `date ≤ d < date + days` and `d ≤ cutoff` |
| DateWindow.DateRangeSplit | reports/stability-summary/rollup.py:16-22 | a window of `a + b` days is the `a`-day window followed by the `b`-day window after it |
| Dates.CivilOf | reports/stability-summary/rollup.py:109-110 | the proleptic-Gregorian calendar date of a day ordinal, always a valid date; `OrdinalOfCivilOf` and `CivilOfInjective` prove it |
| Dates.OrdinalOf | reports/stability-summary/rollup.py:109-110 | the ordinal of a valid calendar date, counted as Python's `toordinal` counts; `OrdinalOfCivilOf` proves it inverts `CivilOf` |
| Dates.Compact | reports/stability-summary/rollup.py:102 | `strftime('%Y%m%d')`: zero-padded year, month and day; `CompactInjective` and `CompactLength` prove its properties |
| Dates.OrdinalOfCivilOf | reports/stability-summary/rollup.py:109-110 | converting a day to its calendar date and back is the identity |
| Dates.CivilOfInjective | reports/stability-summary/rollup.py:109-110 | distinct days have distinct calendar dates |
| Dates.CompactInjective | reports/stability-summary/rollup.py:102 | `strftime('%Y%m%d')` never renders two days alike |
| Dates.CompactLength | reports/stability-summary/rollup.py:102 | for years 1-9999 the rendering is exactly 8 digits |
| RollupQueries.Window | reports/stability-summary/rollup.py:101-103 | the days a step reads, from `date_range(day - 1, 11, cutoff)`, or `date_range(day - 8, 18, cutoff)` for weekly Actives (lines 218-221); always ascending; `WindowMembers`, `WindowHoldsDay`, `WeeklyExtendsDaily` and `DailyWindowsAgree` prove its properties |
| RollupQueries.FilterFor | reports/stability-summary/rollup.py:148-151 | each step's `WHERE`: `subsessiondate = day` (Counts, daily Actives), the week ending on `day` (weekly Actives), or `crashdate = day` (Crashes, line 277); `FilteredDatesHaveShards` and `RollupSemantics.DailyActiveDaysIsOne` use it |
| RollupQueries.ShardName | reports/stability-summary/rollup.py:102 | `main_summary_` or `crash_summary_` followed by `%Y%m%d`; `ShardNameInjective` proves it |
| RollupQueries.ArtifactPath | reports/stability-summary/rollup.py:109-110 | `stability-rollups/{year}/{YYYYMMDD}{kind}.csv.gz` (also lines 230-236 and 319-320); `PathParts` and `ArtifactPathInjective` prove its shape |
| RollupQueries.WindowMembers | reports/stability-summary/rollup.py:218-221 | a step reads shard `d` iff `day - 8 ≤ d` (weekly Actives) or `day - 1 ≤ d` (the rest), `d ≤ day + 9` and `d ≤ cutoff` |
| RollupQueries.WindowHoldsDay | reports/stability-summary/rollup.py:103 | for a day not past the cutoff, the window holds the day itself and is never empty |
| RollupQueries.WeeklyExtendsDaily | reports/stability-summary/rollup.py:218-221 | the weekly window is the 7 days before the daily window followed by the daily window |
| RollupQueries.DailyWindowsAgree | reports/stability-summary/rollup.py:101-103 | Counts, daily Actives and Crashes read the same dates |
| RollupQueries.FilteredDatesHaveShards | reports/stability-summary/rollup.py:148-151 | every date a step's `WHERE` keeps (that day; the week ending that day) is inside the step's window |
| RollupQueries.ShardNameInjective | reports/stability-summary/rollup.py:102 | `main_summary_YYYYMMDD`/`crash_summary_YYYYMMDD` names are distinct for distinct family or date |
| RollupQueries.UnionPlan | reports/stability-summary/rollup.py:101-103 | one sub-select per window date, each with the step's filter |
| RollupQueries.UnionPlanReads | reports/stability-summary/rollup.py:101-103 | the union names shard (f, d) iff f is the step's family and d is in its window |
| RollupQueries.UnionPlanDistinct | reports/stability-summary/rollup.py:311-313 | no shard appears twice in a union |
| RollupQueries.CountsHeaderAligned | reports/stability-summary/rollup.py:115-142 | the 27 header names stand above the 27 selected columns, each naming the value below it |
| RollupQueries.CrashesHeaderAligned | reports/stability-summary/rollup.py:325-339 | the 14 header names match the 14 selected columns one for one |
| RollupQueries.ActivesHeaderAsWrittenMisaligned | reports/stability-summary/rollup.py:241-255 | the header as written has 14 names over 13 columns: `buildid` names no column and every later name sits one column to the right of its value |
| RollupQueries.ActivesHeaderAligned | reports/stability-summary/rollup.py:171-185 | the header without `buildid` matches the 13 selected columns one for one |
| RollupQueries.ArtifactPathInjective | reports/stability-summary/rollup.py:109-110 | two steps write the same S3 key iff they are the same step for the same day |
| RollupQueries.PathParts | reports/stability-summary/rollup.py:235-236 | the key is `stability-rollups/`, the four-digit year and `/` (23 characters), then `YYYYMMDD`, then the kind suffix and `.csv.gz` |
| RollupSemantics.DenseRank | reports/stability-summary/rollup.py:199 | `DENSE_RANK() OVER (PARTITION BY clientid ORDER BY subsessiondate ASC)`: the number of distinct dates of the client up to this row's date; `SurvivorIsLatest` and `SurvivorActiveDays` prove what it yields at the survivor |
| RollupSemantics.RowNumber | reports/stability-summary/rollup.py:200 | `ROW_NUMBER() OVER (PARTITION BY clientid ORDER BY subsessiondate DESC)`: 1 + the rows of the same client ahead of this one (later date, or the same date earlier in the union); `OneSurvivorPerClient` and `SurvivorClients` prove its properties |
| RollupSemantics.Survivors | reports/stability-summary/rollup.py:203 | the rows with `rownumber = 1`, as union positions; `OneSurvivorPerClient`, `SurvivorClients` and `SurvivorIsLatest` prove what they are |
| RollupSemantics.CountsRollup | reports/stability-summary/rollup.py:57-99 | one group per distinct dimension tuple: no tuple twice, every row's tuple present, no group without a row |
| RollupSemantics.CountsGroupValues | reports/stability-summary/rollup.py:71-85 | a group's `abortedsessioncount` is the number of its rows with reason `aborted-session`; each other column is the sum of that counter over its rows |
| RollupSemantics.CountsConservation | reports/stability-summary/rollup.py:71-99 | summed over all groups, every column equals its total over all rows |
| RollupSemantics.CrashesRollup | reports/stability-summary/rollup.py:279-309 | one group per distinct (dimensions, hascrashenvironment) key, covering every row |
| RollupSemantics.CrashGroupCount | reports/stability-summary/rollup.py:294 | a group's `COUNT(*)` is the number of rows with its key |
| RollupSemantics.CrashesConservation | reports/stability-summary/rollup.py:279-309 | the group counts add up to the number of rows |
| RollupSemantics.CrashesSplitOnEnvironment | reports/stability-summary/rollup.py:293 | two rows that differ only in `hascrashenvironment` form two groups of 1 |
| RollupSemantics.OneSurvivorPerClient | reports/stability-summary/rollup.py:200-203 | no two rows with `rownumber = 1` belong to the same client |
| RollupSemantics.SurvivorIsLatest | reports/stability-summary/rollup.py:199-203 | the surviving row carries its client's latest date, and its `activedays` is the client's number of distinct dates |
| RollupSemantics.SurvivorClients | reports/stability-summary/rollup.py:200-203 | exactly one surviving row per client of the union |
| RollupSemantics.SurvivorActiveDays | reports/stability-summary/rollup.py:199 | every surviving key's `activedays` is its client's number of distinct dates |
| RollupSemantics.ActivesRollup | reports/stability-summary/rollup.py:204-216 | one group per distinct (dimensions, activedays) among the survivors |
| RollupSemantics.ActivesGroupCount | reports/stability-summary/rollup.py:185 | a group's count is the number of surviving clients with its key |
| RollupSemantics.ActivesConservation | reports/stability-summary/rollup.py:185-216 | the counts add up to the number of distinct clients |
| RollupSemantics.DailyActiveDaysIsOne | reports/stability-summary/rollup.py:151 | under the daily filter every survivor has `activedays = 1` |
| RollupSemantics.WeeklyActiveDaysInWeek | reports/stability-summary/rollup.py:149 | under the weekly filter `activedays` lies between 1 and 7 |
| RollupDriver.Union | reports/stability-summary/rollup.py:101-107 | `cur.execute` of the `UNION ALL`: each sub-select's kept rows in order, or the first missing table; `UnionFailure`, `UnionRows` and `UnionCopies` prove its properties |
| RollupDriver.RunStep | reports/stability-summary/rollup.py:101-145 | one step's query: the union, then the Counts, Actives or Crashes rollup rendered as rows; `StepOutcome` and `AnswerMatchesHeader` prove its properties |
| RollupDriver.Header | reports/stability-summary/rollup.py:115-142 | the header line each step writes: Counts, Actives as written (lines 241-255) and Crashes (lines 325-339); `AnswerMatchesHeader` and the `RollupQueries` alignment lemmas prove how it sits over the rows |
| RollupDriver.DailyRun | reports/stability-summary/rollup.py:345-351 | `put_daily`: the three steps, then `summarize(date)`, stopping at the first exception; `DailyOrder`, `DailyFailure`, `DailyPartial`, `DailySummarized` and `DailyRunSucceeds` prove its behaviour |
| RollupDriver.RangeRun | reports/stability-summary/rollup.py:396-401 | the `itertools.count` loop over `start .. end`, stopping at the first failing day; `RangeRunStops` and `RangeDays` prove its behaviour |
| RollupDriver.RangePlan | reports/stability-summary/rollup.py:371-390 | the argument handling: usage error, the latency shift, the clamp to the cutoff, and the empty-range check; `RangePlanBounds`, `DefaultRun`, `TooManyArguments` and `LatencyRecomputes` prove its behaviour |
| RollupDriver.ExitCode | reports/stability-summary/rollup.py:380-401 | status 0 when the loop completes, 1 for `sys.exit(1)` and for an uncaught exception; `OutcomeDays` states it for every run |
| RollupDriver.Outcome | reports/stability-summary/rollup.py:371-401 | the whole `__main__` block: its exit and its uploads; `OutcomeDays` proves its behaviour and `Rollup.RunRange` is proved equal to it |
| RollupDriver.Keep | reports/stability-summary/rollup.py:55 | a kept row comes from the table and passes the `WHERE`, and every passing row of the table is kept |
| RollupDriver.KeepCopies | reports/stability-summary/rollup.py:55 | a sub-select returns every passing row as many times as its table holds it, and no other row |
| RollupDriver.UnionFailure | reports/stability-summary/rollup.py:107 | the union fails iff a sub-select names a missing table, and then reports the first such table |
| RollupDriver.UnionRows | reports/stability-summary/rollup.py:101-103 | a row is in the union iff some sub-select's table holds it and it passes that sub-select's filter |
| RollupDriver.UnionCopies | reports/stability-summary/rollup.py:101-103 | `UNION ALL` keeps multiplicity: each row appears as many times as the sub-selects together return it, summed table by table, so no row is lost or counted twice |
| RollupDriver.PlanTablesPresent | reports/stability-summary/rollup.py:101-107 | the union yields rows iff every window date's shard exists |
| RollupDriver.StepOutcome | reports/stability-summary/rollup.py:101-107 | a step for a day not past the cutoff answers iff all its shards exist, and otherwise fails on a missing table |
| RollupDriver.AnswerMatchesHeader | reports/stability-summary/rollup.py:115-145 | every Counts or Crashes row is as wide as the header written above it; every Actives row is one cell narrower than its 14-name header (lines 241-258) |
| RollupDriver.DailyOrder | reports/stability-summary/rollup.py:345-351 | a successful `put_daily` uploads Counts, then daily Actives, then Crashes, then summarizes the day |
| RollupDriver.DailyFailure | reports/stability-summary/rollup.py:345-351 | `put_daily` fails iff one of its three queries fails, and reports that query's error |
| RollupDriver.DailyPartial | reports/stability-summary/rollup.py:345-351 | a failed `put_daily` has uploaded fewer than three artifacts and has not summarized |
| RollupDriver.DailySummarized | reports/stability-summary/rollup.py:351 | `put_daily` summarizes its own day exactly when it succeeds |
| RollupDriver.DailyRunSucceeds | reports/stability-summary/rollup.py:345-351 | a day not past the cutoff succeeds iff every `main_summary` and `crash_summary` shard in its window exists; a failure is always a missing table |
| RollupDriver.RangeRunStops | reports/stability-summary/rollup.py:396-401 | after a failing day, no later day is processed |
| RollupDriver.RangeDays | reports/stability-summary/rollup.py:396-401 | a run over `start..end` without failure summarizes exactly those days in ascending order; after a failure it summarizes the days before the failing day, whose error it reports |
| RollupDriver.RangePlanBounds | reports/stability-summary/rollup.py:371-390 | the range starts `latency_interval` days before the first requested day when latency is on and ends at `min(last, cutoff)`; it is rejected exactly when it is empty |
| RollupDriver.DefaultRun | reports/stability-summary/rollup.py:371-390 | with no arguments and a cutoff of yesterday, latency processes the last 10 days up to yesterday; without latency there is nothing to do |
| RollupDriver.TooManyArguments | reports/stability-summary/rollup.py:380-382 | more than two arguments print the usage and exit with status 1 |
| RollupDriver.LatencyRecomputes | reports/stability-summary/rollup.py:384-385 | with latency on, every day from 10 days before the first requested day through the last is processed |
| RollupDriver.OutcomeDays | reports/stability-summary/rollup.py:371-401 | a usage error or empty range processes no day and exits with 1; otherwise a completed run summarizes every day of the range in order, and a crash is a missing table |
| RollupDriver.RerunIdempotent | reports/stability-summary/rollup.py:109-112 | S3 keeps the last write per key, so replaying the same uploads again is a no-op; a rerun on changed shards writes different contents, and the lemma says nothing about that case |
| RollupDriver.CsvUpload.constructor | reports/stability-summary/rollup.py:112 | a new writer for a bucket and key holds no line |
| RollupDriver.CsvUpload.WriteRow | reports/stability-summary/rollup.py:115 | appends one line |
| RollupDriver.CsvUpload.WriteRows | reports/stability-summary/rollup.py:144-145 | appends every row of the cursor, in order |
| RollupDriver.Rollup.constructor | reports/stability-summary/rollup.py:392-393 | the program starts with its database, its cutoff and nothing done |
| RollupDriver.Rollup.Upload | reports/stability-summary/rollup.py:112-145 | the artifact uploaded under the step's key is the header line the program writes (for Actives, the 14 names of lines 241-255), followed by the rows |
| RollupDriver.Rollup.PutStep | reports/stability-summary/rollup.py:107-145 | a failing query uploads nothing and returns its error; an answer is uploaded |
| RollupDriver.Rollup.PutDaily | reports/stability-summary/rollup.py:345-351 | does what `DailyRun` describes, event for event, with its error |
| RollupDriver.Rollup.RunDays | reports/stability-summary/rollup.py:396-401 | the day loop does what `RangeRun` describes, stopping at the first error |
| RollupDriver.Rollup.RunRange | reports/stability-summary/rollup.py:371-401 | the `__main__` block ends with the exit and the uploads that `Outcome` describes |
| GoNumbers.ParseUintFrom | heka/cmd/get-clients/main.go:185 | the digit loop of `strconv.ParseUint` in base 10 with 64 bits, from an accumulated value; `ParseUintFromMeaning` proves it |
| GoNumbers.ParseUint | heka/cmd/get-clients/main.go:185 | `strconv.ParseUint(s, 10, 64)`; `ParseUintMeaning` proves it |
| GoNumbers.ParseInt | heka/cmd/get-clients/main.go:185 | `strconv.ParseInt(numstr, 10, 64)`: an optional sign, then the digits, range-checked to `int64`; `ParseIntMeaning` proves it |
| GoNumbers.MakeInt | heka/cmd/get-clients/main.go:184-193 | `makeInt`: ParseInt's error, or the value when it lies in `0 .. math.MaxUint32`, and 0 otherwise; `MakeIntMeaning`, `MakeIntDecimal` and `MakeIntSigned` prove it |
| GoNumbers.AddUint32 | heka/cmd/get-clients/main.go:211 | `uint32` addition is exact when the sum fits and otherwise congruent modulo 2^32 |
| GoNumbers.ParseUintFromMeaning | heka/cmd/get-clients/main.go:185 | the digit loop succeeds iff the rest is all digits and the value fits in 64 bits; it then returns that value, and returns the maximum on overflow |
| GoNumbers.ParseUintMeaning | heka/cmd/get-clients/main.go:185 | `ParseUint(s, 10, 64)` succeeds iff `s` is non-empty, all digits and below 2^64, and returns its value |
| GoNumbers.ParseIntMeaning | heka/cmd/get-clients/main.go:185 | `ParseInt(s, 10, 64)` succeeds iff `s` is an optionally signed decimal in the `int64` range, and returns its value |
| GoNumbers.MakeIntMeaning | heka/cmd/get-clients/main.go:184-193 | `makeInt` succeeds iff the string is a decimal integer in 0..4294967295 and returns it; on any error it returns 0 |
| GoNumbers.MakeIntDecimal | heka/cmd/get-clients/main.go:184-193 | `makeInt` reads back the `%d` rendering of every `uint32` |
| GoNumbers.MakeIntSigned | heka/cmd/get-clients/main.go:185-189 | a leading `+` is accepted; a leading `-` only on zero |
| GoStrings.Join | heka/cmd/get-clients/main.go:321 | `strings.Join`, the inverse of the `strings.Split` line 321 calls; `SplitJoin` and `JoinSplit` prove the round trips |
| GoStrings.Split | heka/cmd/get-clients/main.go:321 | at least one piece, and no piece holds the separator |
| GoStrings.SplitJoin | heka/cmd/get-clients/main.go:321 | joining the pieces with the separator gives back the line |
| GoStrings.JoinSplit | heka/cmd/get-clients/main.go:321 | splitting joined separator-free pieces gives back the pieces |
| GoStrings.SplitCount | heka/cmd/get-clients/main.go:321-324 | a line has one more field than it has tabs |
| OffsetIndex.Index | heka/cmd/get-clients/main.go:46-54 | the map of per-client lists that a sequence of `Add` calls builds on a new cache; `IndexLists` and `TotalLength` prove what it holds, and `OffsetCache.Valid` ties the cache to it |
| OffsetIndex.LocationsFor | heka/cmd/get-clients/main.go:56-62 | the reference for `Get`: the calls read front to back, keeping the locations added for the client; `IndexLists` proves the map agrees with it, and `LocationsForAdd` and `LocationsForCount` prove its properties |
| OffsetIndex.IndexLists | heka/cmd/get-clients/main.go:46-62 | after any sequence of `Add` calls, each client's list is exactly its locations in call order; a client is in the map iff it was added |
| OffsetIndex.LocationsForAdd | heka/cmd/get-clients/main.go:46-54 | `Add` appends to its client's list and leaves every other list unchanged |
| OffsetIndex.LocationsForCount | heka/cmd/get-clients/main.go:46-54 | a client's list is as long as the number of `Add` calls for it |
| OffsetIndex.TotalLength | heka/cmd/get-clients/main.go:53 | the list lengths, over the map's keys taken once each, add up to the number of `Add` calls |
| OffsetIndex.OffsetCache.constructor | heka/cmd/get-clients/main.go:42-44 | a new cache is empty, with count 0 |
| OffsetIndex.OffsetCache.Add | heka/cmd/get-clients/main.go:46-54 | appends the location to its client's list (starting one if need be), adds exactly 1 to the count, leaves other clients alone |
| OffsetIndex.OffsetCache.Get | heka/cmd/get-clients/main.go:56-62 | returns the client's locations in the order they were added, the empty list for an unknown client, and changes nothing |
| OffsetIndex.OffsetCache.Size | heka/cmd/get-clients/main.go:64-66 | the number of `Add` calls, which is the total length of all lists |
| OffsetsFile.ParseLine | heka/cmd/get-clients/main.go:321-334 | one line of the loop: split on tabs, check for 4 fields, `makeInt` the offset and then the length; `ParseLineMeaning` and `FormatParse` prove it |
| OffsetsFile.Collect | heka/cmd/get-clients/main.go:320-335 | the loop over the line results: every `Add` call in order, or the first error; `FailedStays`, `CollectLoaded` and `CollectFailed` prove it |
| OffsetsFile.ParseOffsets | heka/cmd/get-clients/main.go:320-337 | what reading an opened file yields; `LoadedLines`, `FailedLine` and `FormatRead` prove it, and `ReadOffsets` is proved to build it |
| OffsetsFile.ParseLineMeaning | heka/cmd/get-clients/main.go:321-334 | a line is accepted iff it has 4 tab-separated fields whose last two are integers in 0..4294967295; it adds `{pieces[0], o, l}` for `pieces[1]`; a wrong field count fails with the line's number and the count found |
| OffsetsFile.FormatParse | heka/cmd/get-clients/main.go:321-334 | a line written as `key, client, offset, length` with tabs reads back as the same entry |
| OffsetsFile.FailedStays | heka/cmd/get-clients/main.go:323-333 | once a line has failed, later lines change nothing |
| OffsetsFile.CollectLoaded | heka/cmd/get-clients/main.go:320-335 | the loop succeeds iff every line does, and then holds every line's entry in file order |
| OffsetsFile.CollectFailed | heka/cmd/get-clients/main.go:320-335 | a failed loop reports the error of its first failed line |
| OffsetsFile.LoadedLines | heka/cmd/get-clients/main.go:320-337 | reading succeeds iff every line parses, and then yields one `Add` per line in file order |
| OffsetsFile.FailedLine | heka/cmd/get-clients/main.go:320-334 | a failed read reports the first bad line's error, every earlier line being good |
| OffsetsFile.FormatRead | heka/cmd/get-clients/main.go:320-337 | writing any list of entries out and reading it back gives the list |
| OffsetsFile.ReadOffsets | heka/cmd/get-clients/main.go:307-338 | an unopenable file is an error; a bad line returns no cache and that line's error; otherwise a fresh cache holding exactly the file's `Add` calls in order |
| GetClients.RangeHeader | heka/cmd/get-clients/main.go:211 | `fmt.Sprintf("bytes=%d-%d", o.Offset, o.Offset+o.Length-1)` in `uint32`; `RangeHeaderReads`, `RangeCoversMessage` and `RangeWraps` prove what it asks for |
| GetClients.WorkersAsWritten | heka/cmd/get-clients/main.go:89-97 | the worker decision as written, the `< math.MaxUint32` test first; `ZeroWorkersAsWritten` and `WorkerCountAgrees` prove its behaviour |
| GetClients.RangeEnd | heka/cmd/get-clients/main.go:211 | for a non-empty message that fits below 2^32, the last byte is `Offset + Length - 1` |
| GetClients.RangeHeaderReads | heka/cmd/get-clients/main.go:211 | the header read by section 2.1 of RFC 7233 asks for `Offset` through the `uint32` value of `Offset + Length - 1` |
| GetClients.RangeCoversMessage | heka/cmd/get-clients/main.go:211 | a message that fits asks for exactly its `Length` bytes |
| GetClients.RangeWraps | heka/cmd/get-clients/main.go:211 | otherwise the end wraps below the start; a zero-length message at offset 0 asks for bytes 0-4294967295 |
| GetClients.ZeroWorkersAsWritten | heka/cmd/get-clients/main.go:89-97 | as written, a flag of 0 runs with 0 workers and the warning branch is never taken |
| GetClients.WorkerCount | heka/cmd/get-clients/main.go:89-97 | always at least one worker; warns iff the flag is 0; exits with 8 iff the flag is at least `MaxUint32` |
| GetClients.WorkerCountAgrees | heka/cmd/get-clients/main.go:89-97 | the corrected decision differs from the written one on 0 only |

## Left out

- The database connection (`psycopg2`, `getpass`, the cursor) is left out: the shard tables are a `Warehouse` value and each query's answer is computed from it. Network and server failures are not modelled, only missing tables and the empty union.
- SQL text is not modelled beyond the shard names, the union structure and the filters. `NULL` values are not modelled: every cell is a string or an integer.
- The SQL engine returns groups in no particular order. The model lists them in order of first occurrence, and every property stated is independent of that order.
- `ROW_NUMBER` ties are left to the model: when a client has several rows on its latest date, PostgreSQL keeps an arbitrary one, and the model keeps the one that comes first in the union's order. The properties above hold for any choice (one survivor per client, carrying the client's latest date).
- `RollupDriver.UnionFailure`: reports the first missing table in union order. PostgreSQL's message names the table it fails on, and only the kind of error matters to the program.
- `S3CompressedWriter` (gzip, the upload) and `csv.writer` (quoting) are left out. An upload is recorded as one `Put` event holding all lines. Nothing can fail while the rows are written.
- `summarize(date)` is an external module; it is recorded as a `Summarize` event.
- Argument parsing beyond the argument count is left out (`OptionParser`, `datetime.strptime`): arguments arrive already as dates. A malformed date makes `strptime` raise, and that case is not modelled.
- Python 2's `strftime` raises for years before 1900; `Dates.Compact` is total instead. The path lemmas assume years 1900-9999 (`RollupQueries.Printable`), the only years the program can print.
- `print` output (progress lines, "No data to process!") is left out; only exit codes are modelled.
- The weekly Actives step is not called by `put_daily` (lines 348-349 are commented out). Its window, filter, path and semantics are modelled; its scheduling is not.
- In heka/cmd/get-clients/main.go everything concurrent is left out: goroutines, channels, `waitForClients`, the throttling at 1000 pending ids (lines 151-169).
- Also left out are the foreign calls: S3 (`getClientRecord`), `proto.Unmarshal`, the message matcher, JSON and heka framing in `saveRecords`, and the float MB statistic.
- The `-max-message-size` check (lines 81-87) and the other flags are not modelled. Its guard has the same shape as the worker check, minus the zero branch.
- `os.Open` is modelled only by whether it fails. `bufio.Scanner`'s splitting of the file into lines is left out: the file arrives as its lines. So are its 64 KiB line limit and `scanner.Err()`, which the source ignores anyway.
- Error messages are not modelled, only their kinds. That includes `fmt.Errorf("Error parsing %d as uint32")`, which lacks its argument and prints `%!d(MISSING)`.
- `OffsetIndex.OffsetCache.Size`: the count is an unbounded integer. Go's `int` would wrap only after 2^63 additions.
- `OffsetIndex.OffsetCache.Get`: returns the list as a value. In Go the slice shares its backing array with the map entry, and that aliasing is not modelled.
- heka/plugins/lz/lzma_decoder.go and heka/plugins/lz/lzma_encoder.go wrap an external compression library and hold no logic of their own; they are not part of this model.

## Findings

| source | as written | input that shows it | evidently intended | confidence | as-written member | corrected member |
|---|---|---|---|---|---|---|
| reports/stability-summary/rollup.py:241-255 | the Actives header lists 14 names including `buildid`, but the query (lines 171-185) selects 13 columns without `buildid` | any Actives row: `buildid` stands above the `buildarchitecture` value, every later name one column right of its value, and `active_users` above no column | the header without `buildid`, 13 names over 13 columns | not executed | RollupQueries.ActivesHeaderAsWrittenMisaligned | RollupQueries.ActivesHeaderAligned |
| heka/cmd/get-clients/main.go:89-97 | the guard `*flagWorkers < math.MaxUint32` comes before `== 0`, so 0 is taken as the worker count and the "Using 1" branch is dead | `-workers 0`: no worker goroutine starts, no client is fetched: `main` and `saveRecords` block on their channels, and the program stalls until the Go runtime's deadlock check aborts it | test for 0 first and run with one worker after the warning | not executed | GetClients.ZeroWorkersAsWritten | GetClients.WorkerCount |
