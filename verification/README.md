# Verified model of the refleks worker

This project models the worker's data-bearing components in Dafny and proves what they promise. `dafny verify
dfyconfig.toml` checks all of it. It has six parts.

**Run files** (`Codec`, `Primitives`, `Fields`, `Wire`, `Tree`, `Layout`, `Parser`). The `.refleks` decoder is a class
that moves a cursor over the payload, reader by reader, as the parser does. Beside it stands an encoder over a wire tree
that keeps everything a file says (stats as a list of entries, booleans as raw bytes, floats as their 64 bits). The two
undo each other, and from that follows exactly which byte strings `Parse` accepts and what it returns for them, said
byte by byte and field by field.

**Scenario statistics** (`Sorting`, `Percentile`, `Histogram`, `Summary`, `SummaryMeaning`, `ScenarioStats`). The
grouping loop with its reused buffers is a class; its updates are those of the grouped rows, and the job as a whole
leaves in every scenario's cache what that scenario's runs call for. The summary itself is proved monotone in the
sample, indifferent to order, stable under a change of unit, and never to lose a sample.

**Benchmark sync** (`BenchmarkSource`, `Placement`, `BenchmarkParse`, `Tables`, `Sync`, `SyncRun`, `SyncImage`,
`SyncCounts`, `SyncRows`, `SyncDatabase`, `SyncProperties`, `ViewRenaming`). The tables are maps under the keys, unique
constraints and cascades of the schema. A table state *means* the set of its rows with every generated id replaced by
the natural key it stands for. The nested deletes, upserts and inserts are proved to take any valid state to the image
of the input tree, the image is also said row by row of the tables and the tree's own fields, and the counters kept on
the way are the sizes of the tables. Valid states mean the same exactly when they differ by a renaming of generated ids.

**The fingerprint protocol** (`Protocol`, `Shortfalls`). One run of the job end to end, and a state machine over all
interleavings of file changes, failures, commits and lost fingerprint writes; every series of runs is one of its
histories. A commit that goes through although the worker is told that it failed is a commit followed by a lost write.

**Leaderboards** (`Ordering`, `Board`, `ScenarioLeaderboard`, `DifficultyLeaderboard`, `PlayerStandings`,
`LeaderboardRun`). The two queries are executable sort-and-scan code: filter, sort, `DISTINCT ON`, join, group,
`ROW_NUMBER`, cut-off. They refine a specification in which a board gives each player a standing and a place is one more
than the players strictly ahead, and what the tables show in the end is said of the runs themselves.

**The scheduler** (`Scheduler`). The service reconciles its registrations with the configuration while any call to the
scheduler library may fail, and is proved to converge. Every call made is in a log, and what a pass does is stated
against the calls that failed.

## Where the code falls short of what it promises

Each of these is kept as the code has it, with an input that shows it and the exact condition.

- The sync clears difficulties one benchmark at a time while their ids are unique across benchmarks. An id that moves to a
  benchmark listed before its old owner makes the run fail, now and every time after (input: `SwappedIdsAreStuck`,
  `TradedIds`; condition: `CanSyncAfter`).
- The fingerprint is written after the commit. If that write is lost and the file goes back to the content recorded
  before, the job skips although the tables hold the other source (input: `StaleSkipHappens`, `LostFingerprint`;
  condition: `SkipMeaning`).
- `Sync` of the scheduler is documented to remove disabled jobs. When a removal fails, the registration is dropped all
  the same and the job stays live for good; enabling it again makes a second one (input: `DisableTwice`, `TwoLiveJobs`;
  condition: `Service.LiveJobsNamed`: a name has one live job if it is registered and one for each failed removal).
- A first score in a new scenario of a difficulty can cost a place, even a score of zero, because it makes the composite
  later (input: `FirstScoreCanCostAPlace`; condition: `FirstScorePlace`).
- With P01 equal to P99 samples outside the bounds are counted in the one bin and not as outliers (input:
  `MiscountedSample`; condition, on the sorted sample: `OutliersMiscounted`).
- `position + take` can wrap around for a scenario count near the limit of `int`, and the slice expression then panics
  (input: `AcceptedTreeThatPanics`; condition: `ApplyProgressScenarios`).

## Model

| member | source | states |
|---|---|---|
| `Parser.ParseAcceptsExactlyFiles` | internal/worker/refleks/parser.go:86-155 | `Parse` accepts exactly the byte strings magic, version, no compression, time, encoding of a wire tree, checksum, for a tree whose file name is not blank |
| `Parser.ParseOfFileBytes` | internal/worker/refleks/parser.go:114-154 | decoding the bytes of a tree gives the tree's projection |
| `Parser.ProjectSays` | internal/worker/refleks/parser.go:146-154 | and that says what the tree says: name, time, events and trace unchanged, the 22 environment fields each under its own name, the flag true only for byte 1, and for every key the value of its last entry, by its type |
| `Layout.PutsTree` | internal/worker/refleks/parser.go:114-144 | the encoding is the format byte by byte: each field in its place, numbers least significant byte first, two's complement, texts and lists behind their lengths, one tag byte for each stat |
| `Parser.FileLaidOut` | internal/worker/refleks/parser.go:86-112 | around it stand the magic bytes, version 1, compression 0, the time of play and the checksum |
| `Parser.LimitsKept` | internal/worker/refleks/parser.go:28-33 | no tree has a name, text, list or row beyond the limits of the format |
| `Parser.LimitsSuffice` | internal/worker/refleks/parser.go:28-33 | everything within those limits is a tree |
| `Parser.FileBytesInjective` | internal/worker/refleks/parser.go:86-155 | the tree and the time of play behind a file's bytes are unique |
| `Parser.Parse` | internal/worker/refleks/parser.go:86-155 | returns what the value-level decoder `Parsed` does, error by error; accepted are exactly the bytes laid out as the format has them with a name that is not blank, the file says field by field what they say, and a fault of size, magic, version, checksum or compression is reported first, in that order |
| `Parser.ParseUncompressed` | internal/worker/refleks/parser.go:114-154 | the readers called one after another on a shared cursor decode the payload as `ParsePayload` does |
| `Parser.StatMapKeys` | internal/worker/refleks/parser.go:181-221 | the keys of the decoded stats are exactly the keys of the entries |
| `Parser.StatMapLastWins` | internal/worker/refleks/parser.go:199-217 | for a key that occurs more than once the last entry wins; a boolean is true only for byte 1 |
| `Parser.Reader.ReadFull` | internal/worker/refleks/parser.go:424-427 | reads exactly n bytes and stands behind them, or fails with one error at the end of the input and another inside |
| `Parser.Reader.ReadUint32` | internal/worker/refleks/parser.go:446-452 | four bytes as their sum with weights 1, 256, 65536 and 16777216 |
| `Primitives.EightBytes` | internal/worker/refleks/parser.go:454-460 | eight bytes as their weighted sum, the first byte the least significant |
| `Parser.Reader.ReadInt32` | internal/worker/refleks/parser.go:462-468 | the same sum, less 2^32 if the last byte is 128 or more |
| `Parser.Reader.ReadInt64` | internal/worker/refleks/parser.go:470-476 | eight bytes as their weighted sum, less 2^64 if the last byte is 128 or more |
| `Parser.Reader.ReadString` | internal/worker/refleks/parser.go:412-429 | the length, an error naming it if it is over the limit, and nothing read past it then; otherwise that many bytes |
| `Parser.Reader.ReadStat` | internal/worker/refleks/parser.go:183-220 | key, tag, and the value that the tag calls for; any other tag is an error |
| `Parser.Reader.ReadStats` | internal/worker/refleks/parser.go:172-224 | the counted loop leaves the map of the decoded entries, which says the last value of every key, or the first error; a count over 50000 is one |
| `Parser.Reader.ReadEvents` | internal/worker/refleks/parser.go:226-257 | rows of columns in order; a count of rows over 500000 is an error |
| `Parser.Reader.ReadMouseTrace` | internal/worker/refleks/parser.go:259-290 | the counted points in order; a count over 20000000 is an error |
| `Parser.Reader.ReadEnvironment` | internal/worker/refleks/parser.go:292-410 | the 22 environment fields in order, each under its own name |
| `Parser.Reader.EnsureEof` | internal/worker/refleks/parser.go:431-444 | succeeds exactly at the end of the payload |
| `Tree.TreeRoundTrip` | internal/worker/refleks/parser.go:114-144 | decoding an encoded wire tree gives the tree and leaves the bytes after it |
| `Tree.TreeReadBack` | internal/worker/refleks/parser.go:114-144 | whatever decodes is the encoding of what it decodes to, and the bytes consumed number the sizes of its parts |
| `Tree.TreeLawful` | internal/worker/refleks/parser.go:114-144 | the payload codec obeys both laws, for any bytes that follow |
| `Tree.PayloadSelfDelimiting` | internal/worker/refleks/parser.go:172-444 | the result of decoding depends only on the bytes consumed |
| `Tree.PayloadPrefixFree` | internal/worker/refleks/parser.go:142-144 | an accepted payload with bytes behind it leaves exactly those bytes over, so no proper extension and no proper prefix of it is accepted |
| `Wire.StatLawful` | internal/worker/refleks/parser.go:183-220 | a stat entry with its tag decodes to itself and encodes back |
| `Wire.PointLawful` | internal/worker/refleks/parser.go:269-286 | the same for a mouse point |
| `Wire.EnvironmentLawful` | internal/worker/refleks/parser.go:292-410 | the same for the environment record |
| `Primitives.U32Lawful` | internal/worker/refleks/parser.go:446-452 | 32-bit little-endian numbers decode to themselves and encode back |
| `Primitives.I64Lawful` | internal/worker/refleks/parser.go:470-476 | the same for 64-bit signed numbers |
| `Primitives.StrLawful` | internal/worker/refleks/parser.go:412-429 | the same for length-prefixed strings up to the limit |
| `Primitives.NameLawful` | internal/worker/refleks/parser.go:114 | the same for file names, with their shorter limit |
| `Sorting.SortIsTheSort` | internal/worker/jobs/scenariostats/service.go:275-276 | sorting has one possible result: any sorted permutation of the sample is it |
| `Sorting.SortMonotone` | internal/worker/jobs/scenariostats/service.go:275-276 | sorting keeps pointwise order between two samples |
| `Percentiles.TwoWeightForm` | internal/worker/jobs/scenariostats/service.go:378-387 | the interpolated value is the two-weight form of `PERCENTILE_CONT` (ISO/IEC 9075-2, section 10.9) |
| `Percentiles.ValueBracketed` | internal/worker/jobs/scenariostats/service.go:378-387 | it lies between the two order statistics around the position |
| `Percentiles.PercentileMonotone` | internal/worker/jobs/scenariostats/service.go:367-388 | a larger percentile never gives a smaller value |
| `Percentiles.PercentileInRange` | internal/worker/jobs/scenariostats/service.go:367-388 | every percentile lies between the least and the largest sample |
| `Percentiles.PercentileMonotoneInSample` | internal/worker/jobs/scenariostats/service.go:275-306 | raising any samples lowers no percentile |
| `Percentiles.PercentileAffine` | internal/worker/jobs/scenariostats/service.go:367-388 | x -> a*x+b with a > 0 maps every percentile the same way |
| `Histograms.IndexIsTheBin` | internal/worker/jobs/scenariostats/service.go:347-357 | for a value within the bounds, floor((v - lo) / width) is k exactly when bin k's interval holds v, so the clamps never change an index |
| `Histograms.ExactlyOneBin` | internal/worker/jobs/scenariostats/service.go:347-357 | every value within the bounds is in the bin of its index and in no other |
| `Histograms.BinsAbut` | internal/worker/jobs/scenariostats/service.go:329-338 | bins meet without gap or overlap; the last one ends at the upper bound |
| `Histograms.Conservation` | internal/worker/jobs/scenariostats/service.go:340-359 | values below, above and in the bins add up to the sample |
| `Summaries.MakeBins` | internal/worker/jobs/scenariostats/service.go:329-338 | the edges that the loop writes are those of the tiling |
| `Summaries.CountValues` | internal/worker/jobs/scenariostats/service.go:340-359 | each counter incremented in place ends as the number of samples in its interval |
| `Summaries.BuildMetricSummary` | internal/worker/jobs/scenariostats/service.go:274-365 | the summary of the buffer's live part, the buffer being left as it was |
| `SummaryMeaning.SummarySays` | internal/worker/jobs/scenariostats/service.go:274-388 | what a summary is of its sample: count, least and largest; each of the nine quantiles at its own percentile, as the two neighbours in the sorted sample weighted by nearness; bounds and thresholds are P01 and P99; 32 equal bins each holding the number of samples between its edges, and the numbers of samples outside, or one bin for all if the bounds meet |
| `Summaries.SummaryIgnoresOrder` | internal/worker/jobs/scenariostats/service.go:274-365 | the summary depends only on the multiset of the sample |
| `Summaries.SummaryConserves` | internal/worker/jobs/scenariostats/service.go:308-364 | in every branch the two outlier counts and the bin counts add up to the sample count |
| `Summaries.FewOutliers` | internal/worker/jobs/scenariostats/service.go:308-359 | each outlier count is at most ceil((n-1)/100) |
| `Summaries.OutlierCountsMeaning` | internal/worker/jobs/scenariostats/service.go:319-346 | an outlier count is the number of samples strictly outside its bound exactly when the bounds differ or none is outside; with equal bounds everything is in the one bin |
| `Percentiles.ValueFlat` | internal/worker/jobs/scenariostats/service.go:378-387 | between two positions the interpolated value is flat exactly when the sorted sample is, from the order statistic below the first to the one above the second |
| `Summaries.BoundsMeet` | internal/worker/jobs/scenariostats/service.go:297-319 | P01 equals P99 exactly when the sorted sample is flat from index floor((n-1)/100) to index ceil(99(n-1)/100) |
| `Summaries.OutliersMiscounted` | internal/worker/jobs/scenariostats/service.go:319-346 | an outlier count is wrong exactly when the sorted sample is flat between those two indices and reaches below the first, or above the second |
| `Summaries.MiscountedSample` | internal/worker/jobs/scenariostats/service.go:319-327 | one zero and a hundred ones: the zero lies below P01 and is not counted |
| `Summaries.BinsTileTheRange` | internal/worker/jobs/scenariostats/service.go:329-363 | with P01 < P99 each of the 32 counts is the number of samples in its interval, and the intervals tile [P01, P99] |
| `Summaries.QuantilesOrdered` | internal/worker/jobs/scenariostats/service.go:292-306 | Min <= P01 <= P05 <= ... <= P99 <= Max for every sample |
| `Summaries.QuantilesMonotone` | internal/worker/jobs/scenariostats/service.go:274-306 | raising any samples lowers none of the nine quantiles |
| `Summaries.SummaryAffine` | internal/worker/jobs/scenariostats/service.go:274-365 | x -> a*x+b with a > 0 maps min, max, quantiles and bin edges the same way and leaves every count as it is |
| `ScenarioStats.SampleBuffer.Append` | internal/worker/jobs/scenariostats/service.go:194-199 | the reused slice gains one value at its end |
| `ScenarioStats.SampleBuffer.Truncate` | internal/worker/jobs/scenariostats/service.go:160-162 | emptied without giving up its storage |
| `ScenarioStats.Collector.Flush` | internal/worker/jobs/scenariostats/service.go:146-164 | appends the update of exactly the rows since the last flush, and empties the buffers |
| `ScenarioStats.Collector.AddRow` | internal/worker/jobs/scenariostats/service.go:178-199 | after any prefix of ordered rows: finished scenarios flushed, the current one's samples in the buffers, totals right |
| `ScenarioStats.CollectUpdates` | internal/worker/jobs/scenariostats/service.go:133-209 | over ordered rows, the updates of the grouped rows, and totals that are sums over them |
| `ScenarioStats.IdsAreThoseOfRows` | internal/worker/jobs/scenariostats/service.go:118-209 | there is an update for exactly the scenarios that occur |
| `ScenarioStats.IdsAscend` | internal/worker/jobs/scenariostats/service.go:126 | one update each, in ascending order of id |
| `ScenarioStats.UpdateOfJoinedRows` | internal/worker/jobs/scenariostats/service.go:118-127 | an update computed from the left join's rows is what the scenario's runs call for; zero runs give zero counts |
| `ScenarioStats.JoinIsLeftJoin` | internal/worker/jobs/scenariostats/service.go:118-127 | for every set of scenarios and every list of runs, the rows joined scenario by scenario are the left join, in order |
| `ScenarioStats.Database.Query` | internal/worker/jobs/scenariostats/service.go:118-127 | the query's rows: the left join of the tables, ordered by scenario |
| `ScenarioStats.TotalsOfJoin` | internal/worker/jobs/scenariostats/service.go:190-208 | the totals counted on the way are the numbers of all runs, of runs with a score, and of runs with a sensitivity |
| `ScenarioStats.CacheSaysRuns` | internal/worker/jobs/scenariostats/service.go:118-209 | the cache of a scenario counts its runs, and its two distributions say all this of the scores and of the sensitivities in the runs of that scenario |
| `ScenarioStats.Database.Run` | internal/worker/jobs/scenariostats/service.go:111-248 | after a commit every scenario's cache says this of the table of runs, and the report counts scenarios, runs, and runs with a score or a sensitivity; without a commit nothing changes |
| `Merging.ApplyProgressScenarios` | internal/worker/jobs/benchmarksync/rank_and_scenario_merge.go:31-83 | panics exactly when some end position overflows; otherwise the result is the mapping of all scenarios |
| `Placement.MappingPlaces` | internal/worker/jobs/benchmarksync/rank_and_scenario_merge.go:31-83 | the mapping said of the input: scenario i has its trimmed name, its thresholds and sort order i; its labels are the trimmed names of the category and the subcategory whose share holds position i, the last category alone if there is none, and empty without categories |
| `Placement.SlotsList` | internal/worker/jobs/benchmarksync/rank_and_scenario_merge.go:53-72 | the slots are the subcategories of each category under its name, in order, and start where the counts before them end |
| `Placement.OverflowsMeans` | internal/worker/jobs/benchmarksync/rank_and_scenario_merge.go:56-66 | the overflow said of the counts: some subcategory's start, at most the number of scenarios, plus its count reaches 2^63 |
| `Merging.SlotAtCovers` | internal/worker/jobs/benchmarksync/rank_and_scenario_merge.go:53-72 | the slot whose prefix-sum interval holds a position is unique, and is the one that labels it |
| `Merging.SomeSlotCovers` | internal/worker/jobs/benchmarksync/rank_and_scenario_merge.go:53-80 | a position is covered exactly when it lies below the total count; the rest falls to the last category |
| `Merging.SmallCountsNeverOverflow` | internal/worker/jobs/benchmarksync/rank_and_scenario_merge.go:61-66 | no overflow while every count plus the list length stays within an `int` |
| `Merging.CollectScenarioLinks` | internal/worker/jobs/benchmarksync/rank_and_scenario_merge.go:85-113 | keeps the first entry of each name, in order, numbered anew |
| `Placement.LinksSayEntries` | internal/worker/jobs/benchmarksync/rank_and_scenario_merge.go:85-113 | there is one link for each entry with a name that no earlier entry has up to case, with that entry's trimmed name and labels and its thresholds, numbered by the links before it |
| `Merging.LinksDistinct` | internal/worker/jobs/benchmarksync/rank_and_scenario_merge.go:94-98 | no two links share a name, even up to case |
| `Merging.LinksComplete` | internal/worker/jobs/benchmarksync/rank_and_scenario_merge.go:89-111 | every non-empty name is represented |
| `Merging.MergedRanksFromSource` | internal/worker/jobs/benchmarksync/rank_and_scenario_merge.go:5-29 | the named and coloured ranks, trimmed and in order |
| `Merging.KeptRanksMeans` | internal/worker/jobs/benchmarksync/rank_and_scenario_merge.go:11-16 | the positions kept are exactly those of ranks with a name and a colour, in increasing order |
| `Merging.RanksOfSource` | internal/worker/jobs/benchmarksync/rank_and_scenario_merge.go:10-22 | the merged ranks stand for exactly the source ranks with a name and a colour, each once, in order, trimmed, with consecutive sort orders |
| `Placement.RanksSaySource` | internal/worker/jobs/benchmarksync/rank_and_scenario_merge.go:5-29 | the same said of the source: a rank for each with a name and a colour, numbered by those before it |
| `Parsing.ParseBenchmarks` | internal/worker/jobs/benchmarksync/service.go:186-248 | accepts exactly the non-empty trees that, trimmed, are sound, and trims them in place, field by field; the error otherwise names what is wrong at the first place in the document where anything is |
| `Parsing.TrimmedOnce` | internal/worker/jobs/benchmarksync/service.go:200-235 | a trimmed benchmark has every text of the field of the same name with the white space around it gone, and its numbers as they were |
| `Common.TrimMeans` | internal/worker/jobs/benchmarksync/service.go:200-205 | trimming takes away all white space before and after a text, and nothing else |
| `Parsing.AcceptedIsSound` | internal/worker/jobs/benchmarksync/service.go:195-245 | the accepted trees: no name empty or used before, no difficulty unnamed, with an id not positive or used before in the document, or with a negative count |
| `Parsing.FaultIsFirstWrong` | internal/worker/jobs/benchmarksync/service.go:195-245 | the fault reported is the first one in document order, with its kind |
| `Parsing.AcceptedTreeThatPanics` | internal/worker/jobs/benchmarksync/rank_and_scenario_merge.go:56-66 | an accepted tree whose counts overflow the end position, so that enriching it panics |
| `Parsing.OkIsAccepted` | internal/worker/jobs/benchmarksync/service.go:195-245 | checking each benchmark against the maps of what was seen accepts exactly the trees with all names and ids different, none empty or non-positive, and no negative count |
| `Parsing.EnrichBenchmarks` | internal/worker/jobs/benchmarksync/service.go:495-524 | succeeds exactly when every difficulty's scenarios are fetched, there are some, and none overflows; otherwise the error is that of the first difficulty for which this fails |
| `Parsing.EnrichesDifficulty` | internal/worker/jobs/benchmarksync/service.go:513-515 | an enriched difficulty has the complete ranks of its source and the fetched scenarios in their places, and all else as it was |
| `Tables.DeleteOtherBenchmarksView` | internal/worker/jobs/benchmarksync/service.go:262-267 | the cascading delete leaves exactly the rows of the benchmarks named |
| `Tables.ClearBenchmarkView` | internal/worker/jobs/benchmarksync/service.go:318-320 | clearing a benchmark leaves exactly the rows below the others, constraints intact |
| `Tables.UpsertBenchmarkView` | internal/worker/jobs/benchmarksync/service.go:279-314 | the upsert replaces the row of that name and touches nothing below |
| `Tables.UpsertBenchmark` | internal/worker/jobs/benchmarksync/service.go:279-311 | the id is that of the row with the name if there is one, otherwise a new one |
| `Tables.EnsureScenario` | internal/worker/jobs/benchmarksync/service.go:580-598 | insert unless the name is there; the id is that of the row with the name |
| `Tables.InsertDifficultyView` | internal/worker/jobs/benchmarksync/service.go:326-347 | a difficulty that conflicts with none adds exactly its row |
| `SyncRun.InsertRanks` | internal/worker/jobs/benchmarksync/service.go:350-369 | adds exactly the rank rows of the image |
| `SyncRun.InsertCategories` | internal/worker/jobs/benchmarksync/service.go:371-418 | goes through exactly when every count fits its column, and adds exactly the category and subcategory rows |
| `SyncRun.InsertLinks` | internal/worker/jobs/benchmarksync/service.go:420-463 | every link is a new row, so the upsert never updates and as many rows are written as there are links |
| `SyncRun.InsertDifficulties` | internal/worker/jobs/benchmarksync/service.go:322-464 | goes through exactly when names differ, counts fit and no id is in the table, and then adds exactly the rows of the difficulties |
| `SyncRun.SyncBenchmark` | internal/worker/jobs/benchmarksync/service.go:270-465 | one pass of the loop replaces the rows of this benchmark by those of its image and leaves the others |
| `SyncRun.SyncTables` | internal/worker/jobs/benchmarksync/service.go:256-466 | delete, then benchmark by benchmark: succeeds exactly when the tree can be written over the old rows, and ends at the image of the tree; it fails for a date exactly when the first benchmark that cannot be written has a bad one |
| `SyncDatabase.Database.SyncToDatabase` | internal/worker/jobs/benchmarksync/service.go:250-480 | succeeds exactly when every date reads, names differ, counts fit and no id is held by a benchmark listed later, and the commit goes through; then the rows are those of the tree, whatever they were, surviving benchmarks keep their ids, scenarios grow by exactly the names linked, and the six counters are the sizes of the tables; a failing run changes nothing, and fails for a date exactly if that is what stops it first |
| `SyncRows.TablesSayTree` | internal/worker/jobs/benchmarksync/service.go:270-463 | tables that mean the image of a tree hold its rows, field by field: of each benchmark its texts, its date, and the source; of each difficulty its name, code and position; below it its ranks, categories, subcategories and links, each with its values and position; and no other rows |
| `SyncRows.CanSyncMeans` | internal/worker/jobs/benchmarksync/service.go:272-347 | when a tree can be written, said of the old tables and the tree alone |
| `SyncRows.LinkNamesMean` | internal/worker/jobs/benchmarksync/service.go:420-426 | the scenarios named are those of the first entries of each name in any difficulty |
| `SyncCounts.CountersAreSizes` | internal/worker/jobs/benchmarksync/service.go:270-480 | counters summed up while a tree is written, row by row, are the numbers of rows in any valid tables that mean its image: no two rows written are one, and none is left from before |
| `SyncCounts.TallyView` | internal/worker/schema/schema.go:93-166 | the facts in the view of valid tables are as many as the rows, table by table |
| `ViewRenaming.RowsApart` | internal/worker/schema/schema.go:93-166 | in valid tables distinct rows stand for distinct facts, table by table, so the view loses no row |
| `ViewRenaming.EqualViewsAreRenamings` | internal/worker/schema/schema.go:93-166 | valid table states with equal views are the same up to a renaming of generated ids: bijections under which the benchmarks, difficulties, ranks, categories and subcategories agree row by row and reference by reference, and the links correspond both ways, by difficulty and scenario name |
| `ViewRenaming.RenamingKeepsView` | internal/worker/schema/schema.go:93-166 | the converse: such a renaming leaves the view as it is |
| `ViewRenaming.EqualViewsIffRenaming` | internal/worker/schema/schema.go:93-166 | two valid table states mean the same exactly when some renaming of generated ids takes one to the other |
| `SyncImages.ImageIsCalledFor` | internal/worker/jobs/benchmarksync/service.go:270-465 | the image holds exactly the rows the tree calls for, said row by row of the tree's fields: values, parents and positions |
| `SyncProperties.CanSyncAfter` | internal/worker/jobs/benchmarksync/service.go:317-347 | after one tree another can be synced exactly when it is writable by itself and no id moves to a benchmark listed before its old one |
| `SyncProperties.CanSyncAgain` | internal/worker/jobs/benchmarksync/service.go:250-480 | a tree that has been written can be written again |
| `SyncProperties.TwiceIsOnce` | internal/worker/jobs/benchmarksync/service.go:250-480 | what a second run of a tree leaves has the same benchmark and scenario rows, ids included, and the same view |
| `SyncProperties.SyncTwice` | internal/worker/jobs/benchmarksync/service.go:250-480 | through the database: if a tree can be written it can be written twice, and the second run changes only ids below the benchmarks |
| `SyncProperties.EnrichedIsAccepted` | internal/worker/jobs/benchmarksync/service.go:116-121 | enriching an accepted tree leaves it accepted, as the sync needs |
| `SyncProperties.LinkNamesNeverRejected` | internal/worker/jobs/benchmarksync/service.go:575-578 | a link's name is trimmed and not empty, so the checks of `ensureScenario` never fire |
| `SyncProperties.ImageNamesItsSource` | internal/worker/jobs/benchmarksync/service.go:309-310 | every benchmark row of an image carries the file and hash it was made from |
| `Protocol.Service.Run` | internal/worker/jobs/benchmarksync/service.go:92-153 | skips exactly on an equal stored hash; otherwise it writes exactly when the source, trimmed, is sound, can be enriched and can be written, and the tables then hold the rows of the trimmed and enriched source, or nothing changes; then the fingerprint, which may be lost; the counters reported are the sizes of the tables |
| `Protocol.WritesMeans` | internal/worker/jobs/benchmarksync/service.go:92-127 | when a run writes, said of the source and the old tables |
| `Protocol.StepKeepsInv` | internal/worker/jobs/benchmarksync/service.go:92-131 | each step of the protocol keeps the invariant below |
| `Protocol.InvAlways` | internal/worker/jobs/benchmarksync/service.go:92-131 | over all histories of file changes, failures, commits and lost writes: benchmark rows share the last committed hash, and the stored hash is that of the last commit that recorded its own |
| `Protocol.SkipMeaning` | internal/worker/jobs/benchmarksync/service.go:104-114 | a skip leaves benchmark rows of another source exactly when the last commit lost its fingerprint and the stored one is not its own; the file is then back at the last recorded content, and all rows are of the other source |
| `Protocol.NoLossNoStale` | internal/worker/jobs/benchmarksync/service.go:104-131 | without lost fingerprints every skip is right |
| `Protocol.RunFollows` | internal/worker/jobs/benchmarksync/service.go:92-153 | after any history, the events of a run's outcome make a longer history that ends where the run does; if it skips, rows of another source are there exactly when the last commit lost its fingerprint and the stored one is not its own |
| `Protocol.RunSeries` | internal/worker/jobs/benchmarksync/service.go:92-153 | any series of runs from tables without a benchmark, each over its own file content, is a history, so the invariant holds of the service after it |
| `Shortfalls.SwappedIdsAreStuck` | internal/worker/jobs/benchmarksync/service.go:317-347 | two accepted and enriched sources that trade ids between two benchmarks: either can be written first, the second never after the first |
| `Shortfalls.TradedIds` | internal/worker/jobs/benchmarksync/service.go:92-131 | the same through the service: synced, failed, failed again |
| `Shortfalls.StaleSkipHappens` | internal/worker/jobs/benchmarksync/service.go:104-131 | a history of two different sources in which a skip leaves every benchmark row of the wrong one |
| `Shortfalls.LostFingerprint` | internal/worker/jobs/benchmarksync/service.go:92-131 | the same through the service: synced, synced without a record, skipped |
| `Boards.PlaceFollowsOrder` | internal/worker/jobs/leaderboard/service.go:40-46 | being ahead is having the better place, and nobody shares a place |
| `Boards.PlacesAreRanks` | internal/worker/jobs/leaderboard/service.go:40-46 | the places of a board of n players are exactly 1 to n |
| `Boards.RowsArePlaces` | internal/worker/jobs/leaderboard/service.go:40-46 | `ROW_NUMBER` over the sorted partition is one more than the number of players strictly ahead |
| `Boards.StoredRanks` | internal/worker/jobs/leaderboard/service.go:61 | with the cut-off: ranks 1 to min(n, MaxRank), and everybody left out is behind everybody kept |
| `Boards.OthersMoveByOne` | internal/worker/jobs/leaderboard/service.go:40-46 | another player's place stays or grows by one when one standing gets no worse, and when it does |
| `Boards.FallsBehind` | internal/worker/jobs/leaderboard/service.go:40-46 | a player's own place worsens exactly when someone not ahead of the old standing is ahead of the new |
| `ScenarioLeaderboards.DistinctKeepsBest` | internal/worker/jobs/leaderboard/service.go:25-38 | on sorted rows `DISTINCT ON` keeps exactly the best entry of each seat |
| `ScenarioLeaderboards.PerPlayerBestIsBest` | internal/worker/jobs/leaderboard/service.go:24-38 | sorting and scanning finds the best run of every player in every scenario, once |
| `ScenarioLeaderboards.BestRunUnique` | internal/worker/jobs/leaderboard/service.go:31-37 | the best run is the one that no other scored run comes before |
| `ScenarioLeaderboards.BestRunIsMaximum` | internal/worker/jobs/leaderboard/service.go:31-37 | its score is the largest, reached at the earliest time |
| `ScenarioLeaderboards.RefreshMeans` | internal/worker/jobs/leaderboard/service.go:16-62 | the rows inserted: one per player with a scored run, the best run, ranked one more than the players ahead, up to the cut-off |
| `PlayerStandings.RefreshSays` | internal/worker/jobs/leaderboard/service.go:16-62 | the same said of the runs: a row carries the score and the time of a run that no other of the player there beats in score or, at the same score, in time, and its rank is one more than the players whose best run has a larger score, or the same earlier, or the same and a smaller id |
| `PlayerStandings.PlaceSays` | internal/worker/jobs/leaderboard/service.go:40-46 | places on the board are those ranks |
| `ScenarioLeaderboards.NewRunMovesPlaces` | internal/worker/jobs/leaderboard/service.go:24-53 | a new scored run never worsens its player's place, moves the others by at most one, and changes no other scenario |
| `DifficultyLeaderboards.GroupByMeans` | internal/worker/jobs/leaderboard/service.go:92-101 | grouping gives one row per difficulty and player with the sum, count and latest time of its parts |
| `DifficultyLeaderboards.JoinTotals` | internal/worker/jobs/leaderboard/service.go:92-101 | joining and grouping adds up exactly the best runs in linked scenarios |
| `DifficultyLeaderboards.CompositeMeans` | internal/worker/jobs/leaderboard/service.go:95-97 | a composite is the sum of the player's best scores over the linked scenarios with one, each counted once |
| `DifficultyLeaderboards.CompositeLastPlayed` | internal/worker/jobs/leaderboard/service.go:98 | its time is the latest of the best runs' times |
| `DifficultyLeaderboards.RefreshDifficultiesMeans` | internal/worker/jobs/leaderboard/service.go:64-125 | the rows inserted: one per player with a composite, ranked one more than the players ahead, up to the cut-off |
| `PlayerStandings.CompositeSays` | internal/worker/jobs/leaderboard/service.go:92-101 | a composite said of the runs: one best run for each link of the difficulty to a scenario the player plays, the sum of their scores, the latest of their times, and their number |
| `PlayerStandings.RefreshDifficultiesSays` | internal/worker/jobs/leaderboard/service.go:64-125 | the rows said of the runs and the links: those totals, ranked one more than the players whose totals come first |
| `DifficultyLeaderboards.FurtherRunPlace` | internal/worker/jobs/leaderboard/service.go:75-117 | a further run in an already scored scenario never worsens the player's place in any difficulty |
| `DifficultyLeaderboards.FirstScorePlace` | internal/worker/jobs/leaderboard/service.go:75-117 | a first score in a new scenario leaves the standing no worse exactly when it is positive, or zero and not later; the place worsens exactly when someone gets in between |
| `DifficultyLeaderboards.FirstScoreCanCostAPlace` | internal/worker/jobs/leaderboard/service.go:75-117 | a concrete first score of zero that costs first place |
| `LeaderboardRuns.Fill` | internal/worker/schema/schema.go:166-191 | inserting row by row succeeds exactly when no two rows share a player or a rank in a group |
| `LeaderboardRuns.RefreshApart` | internal/worker/schema/schema.go:166-176 | the scenario rows never break the primary key or the rank index |
| `LeaderboardRuns.RefreshDifficultiesApart` | internal/worker/schema/schema.go:179-190 | nor do the difficulty rows |
| `LeaderboardRuns.ShownRanks` | internal/worker/jobs/leaderboard/service.go:48-61 | in a refreshed table a group's ranks are exactly 1 to min(players, MaxRank), each once, and whoever is left out is behind |
| `LeaderboardRuns.ScenarioTable` | internal/worker/jobs/leaderboard/service.go:16-62 | a refreshed scenario table has a row for exactly the players with a scored run and a rank within the cut-off, with best score, its time, and rank, all said of the runs |
| `LeaderboardRuns.DifficultyTable` | internal/worker/jobs/leaderboard/service.go:64-125 | the same for the difficulty table |
| `LeaderboardRuns.Leaderboards.Run` | internal/worker/jobs/leaderboard/service.go:159-204 | after a commit both tables say this, each of the runs its statement saw; after any failure both are as before |
| `Scheduler.Service.AddJob` | internal/worker/scheduler/scheduler.go:70-76 | a job becomes available; nothing is scheduled by that |
| `Scheduler.New` | internal/worker/scheduler/scheduler.go:43-68 | no service without a config sync schedule that can be registered; the only live job then is the config sync, under its name and with that schedule, which it keeps |
| `Scheduler.Service.Remove` | internal/worker/scheduler/scheduler.go:102-115 | one removal call, and the registration is gone whether it works or not |
| `Scheduler.Service.RemoveUnwanted` | internal/worker/scheduler/scheduler.go:96-116 | the registrations kept are exactly those still enabled, with one removal call for the live job of every other |
| `Scheduler.Service.Reschedule` | internal/worker/scheduler/scheduler.go:134-159 | a changed schedule is updated in place by one call; if it fails the registration stays as it was |
| `Scheduler.Service.Register` | internal/worker/scheduler/scheduler.go:162-179 | a new job is added by one call; if it fails nothing is registered |
| `Scheduler.Service.Schedule` | internal/worker/scheduler/scheduler.go:118-192 | no call if the schedule is right, otherwise one; a failed one leaves the registration as it was |
| `Scheduler.Service.ScheduleWanted` | internal/worker/scheduler/scheduler.go:118-192 | one call for exactly the wanted names not scheduled as wanted; the names whose own call failed stay as they were |
| `Scheduler.Service.Sync` | internal/worker/scheduler/scheduler.go:78-195 | one pass: only names whose own add or update failed stay off the wanted schedule, whatever the removals did; every other enabled and available job is registered and live with the schedule configured for it; exactly the failed removals become live jobs without registration, and those stay; no calls once the schedule is reached |
| `Scheduler.PassReconciles` | internal/worker/scheduler/scheduler.go:82-195 | what a pass leaves, said of the configuration |
| `Scheduler.PassCalls` | internal/worker/scheduler/scheduler.go:93-192 | which calls it makes, said of the configuration |
| `Scheduler.NothingDue` | internal/worker/scheduler/scheduler.go:82-195 | a pass over the wanted schedule makes no call and changes nothing |
| `Scheduler.Service.OneLiveJobPerName` | internal/worker/scheduler/scheduler.go:35-36 | over any run of the service: of two live jobs with the same name one is left over from a failed removal, so as long as no removal has failed there are none |
| `Scheduler.Service.LiveJobsNamed` | internal/worker/scheduler/scheduler.go:82-195 | how many live jobs a name has: one if it is registered, and one for each of its failed removals |
| `Scheduler.DisableTwice` | internal/worker/scheduler/scheduler.go:96-116 | after a failed removal the next pass makes no call any more, and the job stays live |
| `Scheduler.TwoLiveJobs` | internal/worker/scheduler/scheduler.go:78-195 | a whole run, from an empty scheduler, that ends with two live jobs of one name |
| `Scheduler.Service.EnabledJobs` | internal/worker/scheduler/scheduler.go:197-206 | the registered names, each once |
| `Scheduler.WantedMeans` | internal/worker/scheduler/scheduler.go:88-125 | the wanted schedule names exactly the enabled, available jobs |
| `Scheduler.WantedCron` | internal/worker/scheduler/scheduler.go:88-137 | each with the cron expression of its configuration |
| `Scheduler.PassShrinks` | internal/worker/scheduler/scheduler.go:82-195 | after a pass the disagreements with the configuration are exactly the failed names, all of which disagreed before |
| `Scheduler.PassKeeps` | internal/worker/scheduler/scheduler.go:82-195 | once the wanted schedule is reached a pass changes nothing |
| `Scheduler.PassesConverge` | internal/worker/scheduler/scheduler.go:82-195 | over whole runs disagreements never come back, and one pass without a failed add or update settles the schedule for good |

## Left out

- Parse: a payload with compression byte 1 is reported as compressed and not decoded, because the zstd decoder and its
  end-of-input behaviour are library code; the checksum function and the test for a blank file name are parameters.
- BuildMetricSummary: samples are exact reals, so rounding, NaN and infinities are not modelled, and neither is the JSON
  encoding that fails on them; bin membership and the floor and ceiling of positions are claims of exact arithmetic.
- SyncToDatabase: the commit may fail, but a single statement fails only for a unique key, a scenario count out of its
  column's range or a date that does not parse. Lost connections in between end in the same rollback. Sort orders are not
  limited to 32 bits, and `created_at` and `updated_at` are not modelled.
- Run: in the fingerprint protocol reading the file and reading the stored fingerprint are one step, and no other writer
  changes the tables or the fingerprint.
- RefreshMeans: scores are exact reals, so the place of NaN in the database's order is not modelled; ranks are not limited
  to 32 bits.
- Sync: the configuration has unique names, as the primary key of its table guarantees; the mutex is not modelled, since
  the service's methods exclude each other.
- Deleting a difficulty also cascades to its stored leaderboard rows; the leaderboard tables are modelled with their own
  job only, which fills them from scratch.
- The scheduler library: it is assumed that a failed call changes nothing, that a new job gets a new id, and that an
  update leaves one job under the id it returns.
- Parsing of cron expressions, next run times, and what a scheduled job does when it runs.
- Fetching scenarios over HTTP and reading its JSON, the random Steam id, reading the source file, its JSON and its SHA-256
  hash: parameters. `progress_parser.go` and `source_difficulty_json.go` are not modelled; the ordered lists they produce
  are inputs.
- Case folding and date parsing are parameters; trimming is spelled out over Unicode white space.
- Missing lists and empty lists are not told apart, as in merged ranks and rank thresholds.
- Concurrent writers: each leaderboard statement is stated against the runs it saw, and the two need not agree.
- `cmd/worker`, `internal/config`, `internal/postgres`, the seed stores, the job runner and the state store: wiring that
  would add only easy members.
