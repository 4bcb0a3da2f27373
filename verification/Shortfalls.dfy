/** Inputs on which the benchmark sync falls short, run end to end: ids that two benchmarks trade, and a lost fingerprint. */
module Shortfalls {
  import opened Common
  import opened BenchmarkSource
  import opened Merging
  import opened Parsing
  import opened Tables
  import opened SyncSpec
  import opened SyncRun
  import opened SyncDatabase
  import opened SyncProperties
  import opened ViewRenaming
  import opened Protocol

  // ---- small sources: benchmarks with one difficulty, whose progress endpoint lists one scenario ----

  function Holder(name: string, id: int64): Benchmark {
    Benchmark(name, "", "", "", "", "", [Difficulty("Easy", id, "", [], [], [], [])])
  }

  function OneScenario(id: int): Option<seq<ProgressScenario>> {
    Some([ProgressScenario("S", [])])
  }

  /** The same benchmark as the run writes it. */
  function Enriched(name: string, id: int64): Benchmark {
    Benchmark(name, "", "", "", "", "",
              [Difficulty("Easy", id, "", [], [], [MergedScenario("S", "", "", 0, [])], [])])
  }

  function From(decoded: seq<Benchmark>, ctx: Context, records: bool): Outside {
    Outside(Some(decoded), ctx, OneScenario, true, records)
  }

  ghost predicate GoodName(name: string) {
    name != "" && Trim(name) == name
  }

  lemma GoodNames()
    ensures GoodName("A") && GoodName("B") && GoodName("Easy") && GoodName("S") && Trim("") == "" && "A" != "B"
  {
  }

  lemma HolderEnriched(name: string, id: int64)
    requires GoodName(name) && id > 0
    ensures TrimBenchmark(Holder(name, id)) == Holder(name, id)
    ensures EnrichBenchmark(Holder(name, id), OneScenario) == Enriched(name, id)
    ensures Enrichable(Holder(name, id).difficulties[0], OneScenario)
    ensures DifficultiesOk(Holder(name, id).difficulties, {}) && Ids(Holder(name, id).difficulties) == {id as int}
    ensures Ids(Enriched(name, id).difficulties) == {id as int}
  {
    GoodNames();
    hide Trim;
    var d := Holder(name, id).difficulties[0];
    assert TrimDifficulty(d) == d;
    assert Ranks([]) == [] && Mapping([], [ProgressScenario("S", [])]) == [MergedScenario("S", "", "", 0, [])];
    assert Enrich(d, [ProgressScenario("S", [])]) == Enriched(name, id).difficulties[0];
    IdsOfOne(d);
    IdsOfOne(Enriched(name, id).difficulties[0]);
  }

  lemma IdsOfOne(d: Difficulty)
    ensures Ids([d]) == {d.kovaaksBenchmarkId as int}
  {
    assert [d][0].kovaaksBenchmarkId in Ids([d]);
  }

  /** Such a benchmark can be written beside any rows that do not hold its id. */
  lemma EnrichedWritable(facts: set<Fact>, name: string, id: int64, ctx: Context)
    ensures Writable(facts, Enriched(name, id), ctx) <==> !HoldsId(facts, id)
  {
    GoodNames();
    hide HoldsId;
    assert Enriched(name, id).difficulties[0].kovaaksBenchmarkId == id;
  }

  /** What the run makes of a source of such benchmarks with different names and ids. */
  lemma SourcePrepared(names: seq<string>, ids: seq<int64>, decoded: seq<Benchmark>, ctx: Context, records: bool)
    requires |names| == |ids| == |decoded| > 0
    requires forall i :: 0 <= i < |names| ==> GoodName(names[i]) && ids[i] > 0 && decoded[i] == Holder(names[i], ids[i])
    requires forall i, j :: 0 <= i < j < |names| ==> names[i] != names[j] && ids[i] != ids[j]
    ensures Prepares(From(decoded, ctx, records))
    ensures var bs := TreeOf(decoded, OneScenario);
            Accepted(bs) && forall i :: 0 <= i < |names| ==> bs[i] == Enriched(names[i], ids[i])
  {
    hide GoodName, TrimBenchmark, EnrichBenchmark, Enrichable, DifficultiesOk, Ids, Enriched;
    var out, ts := From(decoded, ctx, records), MapSeq(TrimBenchmark, decoded);
    forall i | 0 <= i < |names|
      ensures ts[i] == Holder(names[i], ids[i]) && DifficultiesOk(ts[i].difficulties, {})
      ensures Ids(ts[i].difficulties) == {ids[i] as int} && ts[i].benchmarkName == names[i] != ""
      ensures |ts[i].difficulties| == 1 && Enrichable(ts[i].difficulties[0], OneScenario)
      ensures TreeOf(decoded, OneScenario)[i] == Enriched(names[i], ids[i])
    {
      HolderEnriched(names[i], ids[i]);
      NameNotEmpty(names[i]);
    }
    assert Accepted(ts);
    assert Prepares(out);
    PreparedIsAccepted(out);
  }

  lemma NameNotEmpty(name: string)
    requires GoodName(name)
    ensures name != ""
  {
  }

  /** After one such source, another can be written exactly when no id moves forward. */
  lemma SourceAfter(was: seq<Benchmark>, wasCtx: Context, names: seq<string>, ids: seq<int64>, bs: seq<Benchmark>, ctx: Context)
    requires |names| == |ids| == |bs| && forall i :: 0 <= i < |names| ==> bs[i] == Enriched(names[i], ids[i])
    ensures CanSync(Image(was, |was|, wasCtx), bs, ctx) <==>
            forall i, id :: 0 <= i < |bs| ==> !MovedForward(was, bs, i, id)
    ensures CanSync({}, bs, ctx)
  {
    hide Image, MovedForward, Enriched, Writable, HoldsId, Left;
    CanSyncAfter(was, wasCtx, bs, ctx);
    forall i | 0 <= i < |bs| ensures Writable({}, bs[i], ctx) && Left({}, bs, i + 1) == {} {
      EnrichedWritable({}, names[i], ids[i], ctx);
      HoldsNothing(ids[i]);
      LeftOfNothing(bs, i + 1);
    }
  }

  lemma LeftOfNothing(bs: seq<Benchmark>, i: nat)
    requires i <= |bs|
    ensures Left({}, bs, i) == {}
  {
  }

  // ---- traded ids ----

  function Pair(m: string, a: int64, n: string, b: int64): seq<Benchmark> {
    [Holder(m, a), Holder(n, b)]
  }

  lemma PairPrepared(m: string, a: int64, n: string, b: int64, ctx: Context, records: bool)
    requires GoodName(m) && GoodName(n) && m != n && a > 0 && b > 0 && a != b
    ensures Prepares(From(Pair(m, a, n, b), ctx, records))
    ensures var bs := TreeOf(Pair(m, a, n, b), OneScenario); Accepted(bs) && bs == [Enriched(m, a), Enriched(n, b)]
  {
    hide Enriched, Accepted, GoodName, Prepares, TreeOf, Holder;
    var names, ids := [m, n], [a, b];
    SourcePrepared(names, ids, Pair(m, a, n, b), ctx, records);
    var bs := TreeOf(Pair(m, a, n, b), OneScenario);
    assert bs[0] == Enriched(names[0], ids[0]) && bs[1] == Enriched(names[1], ids[1]);
  }

  /** Trading the ids of two benchmarks moves one of them forward. */
  lemma TradeMovesForward(m: string, n: string, a: int64, b: int64)
    requires GoodName(m) && GoodName(n) && a > 0 && b > 0
    ensures MovedForward([Enriched(m, a), Enriched(n, b)], [Enriched(m, b), Enriched(n, a)], 0, b)
  {
    var was, bs := [Enriched(m, a), Enriched(n, b)], [Enriched(m, b), Enriched(n, a)];
    HolderEnriched(n, b);
    HolderEnriched(m, b);
    hide Ids, GoodName;
    assert bs[1..][0] == Enriched(n, a) && was[1] == Enriched(n, b) && was[1].benchmarkName == n;
    assert n in Names(bs[1..]);
    assert b in Ids(was[1].difficulties) && b in Ids(bs[0].difficulties);
  }

  /** The second of two trees that trade ids between two benchmarks cannot follow the first. */
  lemma TradeCannotFollow(m: string, n: string, a: int64, b: int64, wasCtx: Context, ctx: Context)
    requires GoodName(m) && GoodName(n) && a > 0 && b > 0
    ensures var was, bs := [Enriched(m, a), Enriched(n, b)], [Enriched(m, b), Enriched(n, a)];
            CanSync({}, was, wasCtx) && CanSync({}, bs, ctx) && !CanSync(Image(was, |was|, wasCtx), bs, ctx)
  {
    hide Image, CanSync, MovedForward, Enriched, GoodName;
    var was, bs := [Enriched(m, a), Enriched(n, b)], [Enriched(m, b), Enriched(n, a)];
    TradeMovesForward(m, n, a, b);
    SourceAfter([], wasCtx, [m, n], [a, b], was, wasCtx);
    SourceAfter(was, wasCtx, [m, n], [b, a], bs, ctx);
  }

  /** Each of two accepted sources can be written into empty tables. Once the first is there the second, in which two
      benchmarks trade their ids, cannot be. */
  lemma SwappedIdsAreStuck(wasCtx: Context, ctx: Context)
    ensures var was := TreeOf(Pair("A", 1, "B", 2), OneScenario);
            && Writes(From(Pair("A", 1, "B", 2), wasCtx, true), {}) && Writes(From(Pair("A", 2, "B", 1), ctx, true), {})
            && !Writes(From(Pair("A", 2, "B", 1), ctx, true), Image(was, |was|, wasCtx))
  {
    hide Image, CanSync, Prepares, Enriched, TreeOf, GoodName, Accepted, Pair;
    GoodNames();
    PairPrepared("A", 1, "B", 2, wasCtx, true);
    PairPrepared("A", 2, "B", 1, ctx, true);
    TradeCannotFollow("A", "B", 1, 2, wasCtx, ctx);
  }

  /** The same through the service: the second source fails, and fails again, with the first one's rows in the tables. */
  method TradedIds(service: Service, ctx: Context) returns (first: Outcome, second: Outcome, third: Outcome)
    requires Valid(service.database.tables) && service.database.tables.benchmarks == map[] && service.stored == None
    modifies service, service.database
    ensures first.Synced? && second.Failed? && third.Failed?
    ensures var was := TreeOf(Pair("A", 1, "B", 2), OneScenario);
            View(service.database.tables) == Image(was, |was|, ctx.(sourceHash := "a"))
  {
    hide Valid, View, Image, TreeOf, Writes, Pair;
    var a, b := ctx.(sourceHash := "a"), ctx.(sourceHash := "b");
    NoBenchmarksNoRows(service.database.tables);
    SwappedIdsAreStuck(a, b);
    first := service.Run(From(Pair("A", 1, "B", 2), a, true));
    second := service.Run(From(Pair("A", 2, "B", 1), b, true));
    third := service.Run(From(Pair("A", 2, "B", 1), b, true));
  }

  // ---- a lost fingerprint ----

  function Single(name: string, id: int64): seq<Benchmark> {
    [Holder(name, id)]
  }

  lemma SinglePrepared(name: string, id: int64, ctx: Context, records: bool)
    requires GoodName(name) && id > 0
    ensures Prepares(From(Single(name, id), ctx, records))
    ensures var bs := TreeOf(Single(name, id), OneScenario); Accepted(bs) && bs == [Enriched(name, id)]
  {
    hide Enriched, Accepted, GoodName, Prepares, TreeOf, Holder;
    var names, ids := [name], [id];
    SourcePrepared(names, ids, Single(name, id), ctx, records);
    assert TreeOf(Single(name, id), OneScenario)[0] == Enriched(names[0], ids[0]);
  }

  lemma OneAfterOther(m: string, a: int64, n: string, b: int64, wasCtx: Context, ctx: Context)
    ensures CanSync({}, [Enriched(m, a)], wasCtx)
    ensures CanSync(Image([Enriched(m, a)], 1, wasCtx), [Enriched(n, b)], ctx)
  {
    hide Image, CanSync, Enriched, Ids;
    var was, bs := [Enriched(m, a)], [Enriched(n, b)];
    assert bs[1..] == [] && Names([]) == {};
    SourceAfter([], wasCtx, [m], [a], was, wasCtx);
    SourceAfter(was, wasCtx, [n], [b], bs, ctx);
  }

  /** Two sources of which either can be written after the other. */
  lemma SinglesFollow(wasCtx: Context, ctx: Context)
    ensures var was, bs := TreeOf(Single("A", 1), OneScenario), TreeOf(Single("B", 2), OneScenario);
            && was != [] && bs != [] && Accepted(was) && Accepted(bs)
            && CanSync({}, was, wasCtx) && CanSync(Image(was, |was|, wasCtx), bs, ctx)
  {
    hide Image, CanSync, Enriched, TreeOf, GoodName, Accepted, Single, Prepares;
    GoodNames();
    SinglePrepared("A", 1, wasCtx, true);
    SinglePrepared("B", 2, ctx, true);
    OneAfterOther("A", 1, "B", 2, wasCtx, ctx);
  }

  /** Two sources committed in turn, the second without its fingerprint; then the file goes back to the first, and the
      run skips although every benchmark row is the second's. */
  lemma StaleSkipHappens(ctx: Context)
    ensures var a, b := ctx.(sourceHash := "a"), ctx.(sourceHash := "b");
            var was, bs := TreeOf(Single("A", 1), OneScenario), TreeOf(Single("B", 2), OneScenario);
            var es := [Start, CommitRun(was, a), Record, FileChanges("b"), Start, CommitRun(bs, b), LoseRecord,
                       FileChanges("a")];
            && History("a", es) && Enabled(Reached("a", es), Skip)
            && Reached("a", es).facts == Image(bs, |bs|, b) && Stale(Reached("a", es))
  {
    hide Image, Accepted, CanSync, TreeOf, RowOf;
    var a, b := ctx.(sourceHash := "a"), ctx.(sourceHash := "b");
    var was, bs := TreeOf(Single("A", 1), OneScenario), TreeOf(Single("B", 2), OneScenario);
    SinglesFollow(a, b);
    var first := [Start, CommitRun(was, a), Record];
    var changed := first + [FileChanges("b")];
    var second := changed + [Start, CommitRun(bs, b), LoseRecord];
    var es := second + [FileChanges("a")];
    RunHistory("a", [], was, a, true, first);
    Unfold("a", first, FileChanges("b"), changed);
    hide Reached, History;
    RunHistory("a", changed, bs, b, false, second);
    Unfold("a", second, FileChanges("a"), es);
    ImageHasRow(bs, |bs|, b, 0);
    ImageNamesItsSource(bs, |bs|, b, RowOf(bs[0], b));
    assert es == [Start, CommitRun(was, a), Record, FileChanges("b"), Start, CommitRun(bs, b), LoseRecord,
                  FileChanges("a")];
  }

  /** The same through the service: the third run skips, and the tables hold the second source. */
  method LostFingerprint(service: Service, ctx: Context) returns (first: Outcome, second: Outcome, third: Outcome)
    requires Valid(service.database.tables) && service.database.tables.benchmarks == map[] && service.stored == None
    modifies service, service.database
    ensures first.Synced? && second.SyncedUnrecorded? && third.Skipped?
    ensures var bs := TreeOf(Single("B", 2), OneScenario);
            View(service.database.tables) == Image(bs, |bs|, ctx.(sourceHash := "b"))
  {
    hide Valid, View, Image, TreeOf, Prepares, CanSync;
    var a, b := ctx.(sourceHash := "a"), ctx.(sourceHash := "b");
    NoBenchmarksNoRows(service.database.tables);
    SinglesFollow(a, b);
    GoodNames();
    SinglePrepared("A", 1, a, true);
    SinglePrepared("B", 2, b, false);
    first := service.Run(From(Single("A", 1), a, true));
    second := service.Run(From(Single("B", 2), b, false));
    third := service.Run(From(Single("A", 1), a, true));
  }
}
