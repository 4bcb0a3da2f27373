/** What the sync's contract amounts to: running it again, moving ids between benchmarks, and provenance. */
module SyncProperties {
  import opened Common
  import opened BenchmarkSource
  import opened Merging
  import opened Parsing
  import opened Tables
  import opened SyncSpec
  import opened SyncRun
  import opened SyncDatabase

  // ---- what reaches the sync ----

  /** Enriching an accepted tree leaves it accepted: it changes neither names nor ids nor counts. */
  lemma EnrichedIsAccepted(bs: seq<Benchmark>, fetch: int -> Option<seq<ProgressScenario>>, es: seq<Benchmark>)
    requires Accepted(bs) && |es| == |bs|
    requires forall i :: 0 <= i < |bs| ==> es[i] == EnrichBenchmark(bs[i], fetch)
    ensures Accepted(es)
  {
    hide DifficultiesOk, Ids, EnrichBenchmark;
    forall i | 0 <= i < |bs|
      ensures es[i].benchmarkName == bs[i].benchmarkName
      ensures DifficultiesOk(es[i].difficulties, {}) && Ids(es[i].difficulties) == Ids(bs[i].difficulties)
    {
      EnrichKeeps(bs[i], fetch);
    }
  }

  lemma EnrichKeeps(b: Benchmark, fetch: int -> Option<seq<ProgressScenario>>)
    ensures var e := EnrichBenchmark(b, fetch);
            && e.benchmarkName == b.benchmarkName
            && (DifficultiesOk(b.difficulties, {}) ==> DifficultiesOk(e.difficulties, {}))
            && Ids(e.difficulties) == Ids(b.difficulties)
  {
    hide Ranks, Mapping, CountsOk;
    var e := EnrichBenchmark(b, fetch);
    forall j | 0 <= j < |b.difficulties|
      ensures e.difficulties[j].kovaaksBenchmarkId == b.difficulties[j].kovaaksBenchmarkId
      ensures DifficultyOk(e.difficulties[j]) == DifficultyOk(b.difficulties[j])
    {
      EnrichKeepsCounts(b.difficulties[j], fetch);
    }
    forall id ensures id in Ids(e.difficulties) <==> id in Ids(b.difficulties) {
      if id in Ids(b.difficulties) {
        var j :| 0 <= j < |b.difficulties| && b.difficulties[j].kovaaksBenchmarkId == id;
        assert e.difficulties[j].kovaaksBenchmarkId == id;
      }
    }
  }

  lemma EnrichKeepsCounts(d: Difficulty, fetch: int -> Option<seq<ProgressScenario>>)
    ensures CountsOk(EnrichDifficulty(d, fetch)) == CountsOk(d)
  {
    hide Ranks, Mapping;
  }

  /** A link's name is trimmed and not empty, so the checks of `ensureScenario` never fire. */
  lemma LinkNamesNeverRejected(ms: seq<MergedScenario>, lower: string -> string, p: nat)
    requires p < |Links(ms, lower)|
    ensures Links(ms, lower)[p].name != "" && Trim(Links(ms, lower)[p].name) == Links(ms, lower)[p].name
  {
    hide Trim;
    LinkAt(ms, lower, p);
    TrimIdempotent(ms[Firsts(ms, lower, |ms|)[p]].name);
  }

  // ---- who holds an id ----

  /** The image of a tree holds exactly the ids of its difficulties, each under its benchmark. */
  lemma {:induction false} ImageHasIds(bs: seq<Benchmark>, n: nat, ctx: Context, k: nat, id: int) returns (f: Fact)
    requires k < n <= |bs| && id in Ids(bs[k].difficulties)
    ensures f in Image(bs, n, ctx) && f.DifficultyFact? && f.path == Path(bs[k].benchmarkName, id)
  {
    hide DifficultiesImage;
    if k < n - 1 {
      f := ImageHasIds(bs, n - 1, ctx, k, id);
    } else {
      var ds := bs[k].difficulties;
      var j :| 0 <= j < |ds| && ds[j].kovaaksBenchmarkId == id;
      DifficultiesImageHas(bs[k].benchmarkName, ds, |ds|, ctx, j);
      f := DifficultyFact(Path(bs[k].benchmarkName, id), ds[j].difficultyName, ds[j].sharecode, j);
    }
  }

  /** An id of benchmark `i` of the new tree was, in the old one, an id of a benchmark that is now listed later. */
  ghost predicate MovedForward(was: seq<Benchmark>, bs: seq<Benchmark>, i: nat, id: int)
    requires i < |bs|
  {
    id in Ids(bs[i].difficulties) &&
    exists k :: 0 <= k < |was| && id in Ids(was[k].difficulties) && was[k].benchmarkName in Names(bs[i + 1..])
  }

  /** Everything but the old tables allows the sync. */
  ghost predicate WritableAlone(bs: seq<Benchmark>, ctx: Context) {
    forall i :: 0 <= i < |bs| ==> Writable({}, bs[i], ctx)
  }

  /** After one tree has been synced, another can be exactly when no id moves from a benchmark to one listed before it. */
  lemma CanSyncAfter(was: seq<Benchmark>, wasCtx: Context, bs: seq<Benchmark>, ctx: Context)
    ensures CanSync(Image(was, |was|, wasCtx), bs, ctx) <==>
            WritableAlone(bs, ctx) && forall i, id :: 0 <= i < |bs| ==> !MovedForward(was, bs, i, id)
  {
    hide Image, Writable, Left, Ids, Names;
    forall i | 0 <= i < |bs|
      ensures Writable(Left(Image(was, |was|, wasCtx), bs, i + 1), bs[i], ctx) <==>
              Writable({}, bs[i], ctx) && forall id :: !MovedForward(was, bs, i, id)
    {
      WritableAfter(was, wasCtx, bs, i, ctx);
    }
  }

  lemma WritableAfter(was: seq<Benchmark>, wasCtx: Context, bs: seq<Benchmark>, i: nat, ctx: Context)
    requires i < |bs|
    ensures Writable(Left(Image(was, |was|, wasCtx), bs, i + 1), bs[i], ctx) <==>
            Writable({}, bs[i], ctx) && forall id :: !MovedForward(was, bs, i, id)
  {
    hide Image, Left, HoldsId, Names, ParseDate, DistinctNames, CountsFit;
    var left, ds := Left(Image(was, |was|, wasCtx), bs, i + 1), bs[i].difficulties;
    forall id | id in Ids(ds) ensures HoldsId(left, id) <==> MovedForward(was, bs, i, id) {
      HeldLater(was, wasCtx, bs, i, id);
    }
    forall id ensures !HoldsId({}, id) {
      HoldsNothing(id);
    }
    forall j | 0 <= j < |ds| ensures ds[j].kovaaksBenchmarkId in Ids(ds) {
    }
    hide MovedForward;
    if Writable(left, bs[i], ctx) {
      forall id ensures !MovedForward(was, bs, i, id) {
        NotMoved(was, bs, i, id, left);
      }
    }
  }

  lemma NotMoved(was: seq<Benchmark>, bs: seq<Benchmark>, i: nat, id: int, left: set<Fact>)
    requires i < |bs|
    requires forall j :: 0 <= j < |bs[i].difficulties| ==> !HoldsId(left, bs[i].difficulties[j].kovaaksBenchmarkId)
    requires id in Ids(bs[i].difficulties) ==> (HoldsId(left, id) <==> MovedForward(was, bs, i, id))
    ensures !MovedForward(was, bs, i, id)
  {
    hide HoldsId, Names;
  }

  lemma HoldsNothing(id: int)
    ensures !HoldsId({}, id)
  {
  }

  lemma HeldLater(was: seq<Benchmark>, wasCtx: Context, bs: seq<Benchmark>, i: nat, id: int)
    requires i < |bs| && id in Ids(bs[i].difficulties)
    ensures HoldsId(Left(Image(was, |was|, wasCtx), bs, i + 1), id) <==> MovedForward(was, bs, i, id)
  {
    hide Image, Ids, Names;
    var left := Left(Image(was, |was|, wasCtx), bs, i + 1);
    if HoldsId(left, id) {
      var f :| f in left && f.DifficultyFact? && f.path.kovaaksId == id;
      var k := ImageOwner(was, |was|, wasCtx, f);
    }
    if MovedForward(was, bs, i, id) {
      var k :| 0 <= k < |was| && id in Ids(was[k].difficulties) && was[k].benchmarkName in Names(bs[i + 1..]);
      var f := ImageHasIds(was, |was|, wasCtx, k, id);
      assert f in left;
    }
  }

  /** A tree that has been written can be written again, under any fingerprint. */
  lemma CanSyncAgain(before: set<Fact>, bs: seq<Benchmark>, ctx: Context, wasCtx: Context)
    requires Accepted(bs) && CanSync(before, bs, ctx)
    ensures CanSync(Image(bs, |bs|, wasCtx), bs, ctx)
  {
    hide Image, Ids, DifficultiesOk, Left;
    forall i | 0 <= i < |bs| ensures Writable({}, bs[i], ctx) {
      assert Writable(Left(before, bs, i + 1), bs[i], ctx);
    }
    forall i, id | 0 <= i < |bs| ensures !MovedForward(bs, bs, i, id) {
      if MovedForward(bs, bs, i, id) {
        NamesFrom(bs, i);
      }
    }
    CanSyncAfter(bs, wasCtx, bs, ctx);
  }

  /** Two table states with the same view, the second reached from the first, have the very same benchmark rows. */
  lemma SameBenchmarks(t: Tables, r: Tables, bs: seq<Benchmark>, ctx: Context)
    requires Valid(t) && Valid(r) && View(t) == Image(bs, |bs|, ctx) && View(r) == View(t)
    requires CarriesNamed(t, r, Names(bs))
    ensures r.benchmarks == t.benchmarks
  {
    hide Image, ChildView, UniqueScenarios, UniqueDifficulties, UniqueCategories, UniqueSubcategories, ForeignKeys;
    forall id | id in t.benchmarks ensures id in r.benchmarks && r.benchmarks[id] == t.benchmarks[id] {
      RowInView(t, id);
      var i := ImageOwner(bs, |bs|, ctx, BenchmarkFact(t.benchmarks[id]));
      RowInView(r, id);
      var same := RowOfFact(t, r.benchmarks[id]);
    }
    forall id | id in r.benchmarks ensures id in t.benchmarks {
      RowInView(r, id);
      var same := RowOfFact(t, r.benchmarks[id]);
      assert same in r.benchmarks;
    }
  }

  lemma RowInView(t: Tables, id: int)
    requires id in t.benchmarks
    ensures BenchmarkFact(t.benchmarks[id]) in View(t)
  {
    hide ChildView;
    assert BenchmarkFacts(t.benchmarks)[id] in BenchmarkFacts(t.benchmarks).Values;
  }

  lemma RowOfFact(t: Tables, row: BenchmarkRow) returns (id: int)
    requires BenchmarkFact(row) in View(t)
    ensures id in t.benchmarks && t.benchmarks[id] == row
  {
    hide ChildView;
    OnlyDifficultyFacts(t);
    id := KeyAt(BenchmarkFacts(t.benchmarks), BenchmarkFact(row));
  }

  /** The scenarios that the links of a table state name are there. */
  lemma LinkedScenariosExist(t: Tables)
    ensures LinkNames(View(t)) <= t.scenarios.Values
  {
    hide PathsOf, BenchmarkFacts, CategoryPaths, DifficultyFacts, RankFacts, CategoryFacts, SubcategoryFacts;
    forall f | f in View(t) && f.LinkFact? ensures f.scenario in t.scenarios.Values {
      if f in BenchmarkFacts(t.benchmarks).Values {
        OnlyBenchmarkFacts(t.benchmarks, f);
      }
      OtherFacts(PathsOf(t), CategoryPaths(PathsOf(t), t.categories), t, f);
      var k := KeyAt(LinkFacts(PathsOf(t), t.scenarios, t.links), f);
      assert t.scenarios[k.scenarioId] == f.scenario;
    }
  }

  lemma NoNewScenarios(was: map<int, string>, now: map<int, string>, names: set<string>)
    requires UniqueScenarios(now) && ScenariosGrow(was, now, names) && names <= was.Values
    ensures now == was
  {
    forall s | s in now ensures s in was {
      assert now[s] in now.Values;
      var k := KeyAt(was, now[s]);
      assert now[k] == now[s] && k == s;
    }
    forall s | s in was ensures s in now && now[s] == was[s] {
    }
  }

  /** Twice is once: what a second run of a tree leaves has the same benchmark rows and the same scenario rows, ids
      included, and the same other rows up to their generated ids. */
  lemma TwiceIsOnce(t: Tables, r: Tables, bs: seq<Benchmark>, ctx: Context)
    requires Valid(t) && Valid(r) && View(t) == Image(bs, |bs|, ctx) && View(r) == Image(bs, |bs|, ctx)
    requires CarriesNamed(t, r, Names(bs))
    requires ScenariosGrow(t.scenarios, r.scenarios, LinkNames(Image(bs, |bs|, ctx)))
    ensures r.benchmarks == t.benchmarks && r.scenarios == t.scenarios && View(r) == View(t)
  {
    hide View, Image, LinkNames, ScenariosGrow, CarriesNamed;
    SameBenchmarks(t, r, bs, ctx);
    LinkedScenariosExist(t);
    NoNewScenarios(t.scenarios, r.scenarios, LinkNames(Image(bs, |bs|, ctx)));
  }

  /** The same through the database: if a tree can be written, it can be written twice, and the second run changes nothing
      but the ids below the benchmarks. */
  method SyncTwice(db: Database, bs: seq<Benchmark>, ctx: Context) returns (first: Tables)
    requires Valid(db.tables) && Accepted(bs) && CanSync(View(db.tables), bs, ctx)
    modifies db
    ensures Valid(first) && View(first) == Image(bs, |bs|, ctx)
    ensures Valid(db.tables) && View(db.tables) == View(first)
    ensures db.tables.benchmarks == first.benchmarks && db.tables.scenarios == first.scenarios
  {
    hide Valid, View, Image, CanSync, Accepted, CarriesNamed, ScenariosGrow, LinkNames, Names;
    ghost var before := View(db.tables);
    var r := db.SyncToDatabase(bs, ctx, true);
    first := db.tables;
    CanSyncAgain(before, bs, ctx, ctx);
    r := db.SyncToDatabase(bs, ctx, true);
    TwiceIsOnce(first, db.tables, bs, ctx);
  }

  // ---- provenance ----

  /** Every benchmark row of an image names the source it was made from. */
  lemma {:induction false} ImageNamesItsSource(bs: seq<Benchmark>, n: nat, ctx: Context, row: BenchmarkRow)
    requires n <= |bs| && BenchmarkFact(row) in Image(bs, n, ctx)
    ensures row.sourceFile == ctx.sourceFile && row.sourceHash == ctx.sourceHash
  {
    hide DifficultiesImage, ParseDate;
    var b := bs[n - 1];
    if BenchmarkFact(row) in Image(bs, n - 1, ctx) {
      ImageNamesItsSource(bs, n - 1, ctx, row);
    } else if BenchmarkFact(row) in DifficultiesImage(b.benchmarkName, b.difficulties, |b.difficulties|, ctx) {
      var j := DifficultiesImageOwner(b.benchmarkName, b.difficulties, |b.difficulties|, ctx, BenchmarkFact(row));
      assert false;
    }
  }

  /** Every benchmark of the tree has its row in the image. */
  lemma {:induction false} ImageHasRow(bs: seq<Benchmark>, n: nat, ctx: Context, i: nat)
    requires i < n <= |bs|
    ensures BenchmarkFact(RowOf(bs[i], ctx)) in Image(bs, n, ctx)
  {
    hide DifficultiesImage, RowOf;
    if i < n - 1 {
      ImageHasRow(bs, n - 1, ctx, i);
    }
  }
}
