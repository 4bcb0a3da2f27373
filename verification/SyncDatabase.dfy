/** `syncToDatabase` as a transaction, and the counters it reports. */
module SyncDatabase {
  import opened Common
  import opened BenchmarkSource
  import opened Merging
  import opened Parsing
  import opened Tables
  import opened SyncSpec
  import opened SyncRun
  import opened SyncCounts
  import opened SyncRows

  class Database {
    var tables: Tables

    /** `syncToDatabase`. It succeeds exactly when the tree can be written over what is there and the commit goes
        through. The tables then are the image of the tree, whatever they held before, and the counters reported are the
        sizes of the six tables; otherwise nothing changes. What the rows are and when a tree can be written is said twice,
        the second time of the tables alone. */
    method SyncToDatabase(bs: seq<Benchmark>, ctx: Context, commits: bool) returns (r: Result<SyncSummary, SyncError>)
      requires Valid(tables) && Accepted(bs)
      modifies this
      ensures r.Ok? <==> CanSync(View(old(tables)), bs, ctx) && commits
      ensures r.Ok? <==> CanBeWritten(old(tables), bs, ctx) && commits
      ensures r == Err(InvalidDate) <==> RejectsDate(old(tables), bs, ctx)
      ensures r == Err(CommitFailed) <==> CanBeWritten(old(tables), bs, ctx) && !commits
      ensures r.Ok? ==> TablesSay(tables, bs, ctx) && ScenariosSay(old(tables).scenarios, tables.scenarios, bs, ctx)
      ensures r.Ok? ==>
                && r.value.benchmarks == |tables.benchmarks| && r.value.difficulties == |tables.difficulties|
                && r.value.rankDefs == |tables.ranks| && r.value.categories == |tables.categories|
                && r.value.subcategories == |tables.subcategories| && r.value.scenarioLinks == |tables.links|
      ensures r.Ok? ==> Valid(tables) && View(tables) == Image(bs, |bs|, ctx) && r.value == Sizes(tables)
      ensures r.Ok? ==> CarriesNamed(old(tables), tables, Names(bs))
      ensures r.Ok? ==> ScenariosGrow(old(tables).scenarios, tables.scenarios, LinkNames(Image(bs, |bs|, ctx)))
      ensures r.Err? ==> tables == old(tables)
    {
      hide Valid, View, Accepted, CanSync, CarriesNamed, ScenariosGrow, LinkNames, Image, Names, TreeCounts;
      hide CanBeWritten, RejectsDate, StopsAtDate, TablesSay, ScenariosSay;
      CanSyncMeans(tables, bs, ctx);
      var synced, summary := SyncTables(tables, bs, ctx);
      if synced.Err? {
        return Err(synced.error);
      }
      if !commits {
        return Err(CommitFailed);
      }
      CountersAreSizes(synced.value, bs, ctx);
      TablesSayTree(synced.value, bs, ctx);
      ScenariosSayTree(tables.scenarios, synced.value.scenarios, bs, ctx);
      tables := synced.value;
      return Ok(summary);
    }
  }
}
