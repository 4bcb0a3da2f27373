/** What a benchmark tree means as table rows, and when it can be written. */
module SyncSpec {
  import opened Common
  import opened BenchmarkSource
  import opened Merging
  import opened Parsing
  import opened Tables

  /** What `syncToDatabase` takes from outside the tree: case folding, the date parser, and the fingerprint. */
  datatype Context = Context(
    lower: string -> string, timeParse: string -> Option<int>, sourceFile: string, sourceHash: string)

  /** `parseDate`: no date, a date, or an error. */
  function ParseDate(raw: string, ctx: Context): Result<Option<int>, ()> {
    if Trim(raw) == "" then Ok(None)
    else match ctx.timeParse(Trim(raw))
         case Some(date) => Ok(Some(date))
         case None => Err(())
  }

  // ---- the image of a tree ----

  function RowOf(b: Benchmark, ctx: Context): BenchmarkRow {
    var date := ParseDate(b.dateAdded, ctx);
    BenchmarkRow(b.benchmarkName, b.abbreviation, b.rankCalculation, b.color, b.spreadsheetUrl,
                 if date.Ok? then date.value else None, ctx.sourceFile, ctx.sourceHash)
  }

  function RankImage(p: Path, ranks: seq<MergedRank>, n: nat): set<Fact>
    requires n <= |ranks|
  {
    if n == 0 then {} else
      RankImage(p, ranks, n - 1) + {RankFact(p, n - 1, RankRow(ranks[n - 1].name, ranks[n - 1].color))}
  }

  function SubcategoryImage(p: Path, categoryOrder: int, subs: seq<Subcategory>, n: nat): set<Fact>
    requires n <= |subs|
  {
    if n == 0 then {} else
      SubcategoryImage(p, categoryOrder, subs, n - 1)
      + {SubcategoryFact(p, categoryOrder, subs[n - 1].subcategoryName, subs[n - 1].scenarioCount, subs[n - 1].color, n - 1)}
  }

  function CategoryImage(p: Path, cats: seq<Category>, n: nat): set<Fact>
    requires n <= |cats|
  {
    if n == 0 then {} else
      var c := cats[n - 1];
      CategoryImage(p, cats, n - 1)
      + ({CategoryFact(p, c.categoryName, c.color, n - 1)} + SubcategoryImage(p, n - 1, c.subcategories, |c.subcategories|))
  }

  function LinkRowOf(link: MergedScenario): LinkRow {
    LinkRow(link.categoryName, link.subcategoryName, link.rankThresholds, link.sortOrder)
  }

  function LinkImage(p: Path, links: seq<MergedScenario>, n: nat): set<Fact>
    requires n <= |links|
  {
    if n == 0 then {} else
      LinkImage(p, links, n - 1) + {LinkFact(p, links[n - 1].name, LinkRowOf(links[n - 1]))}
  }

  /** A difficulty with its ranks, categories, subcategories and deduplicated scenario links. */
  function DifficultyImage(bench: string, d: Difficulty, j: nat, ctx: Context): set<Fact> {
    var p, links := Path(bench, d.kovaaksBenchmarkId), Links(d.mergedScenarios, ctx.lower);
    {DifficultyFact(p, d.difficultyName, d.sharecode, j)}
    + RankImage(p, d.mergedRanks, |d.mergedRanks|)
    + CategoryImage(p, d.categories, |d.categories|)
    + LinkImage(p, links, |links|)
  }

  function DifficultiesImage(bench: string, ds: seq<Difficulty>, n: nat, ctx: Context): set<Fact>
    requires n <= |ds|
  {
    if n == 0 then {} else
      DifficultiesImage(bench, ds, n - 1, ctx) + DifficultyImage(bench, ds[n - 1], n - 1, ctx)
  }

  function BenchmarkImage(b: Benchmark, ctx: Context): set<Fact> {
    {BenchmarkFact(RowOf(b, ctx))} + DifficultiesImage(b.benchmarkName, b.difficulties, |b.difficulties|, ctx)
  }

  /** The rows the first `n` benchmarks of a tree call for. */
  function Image(bs: seq<Benchmark>, n: nat, ctx: Context): set<Fact>
    requires n <= |bs|
  {
    if n == 0 then {} else Image(bs, n - 1, ctx) + BenchmarkImage(bs[n - 1], ctx)
  }

  /** The scenarios that the links of some rows name. */
  function LinkNames(facts: set<Fact>): set<string> {
    set f | f in facts && f.LinkFact? :: f.scenario
  }

  lemma LinkNamesUnion(a: set<Fact>, b: set<Fact>)
    ensures LinkNames(a + b) == LinkNames(a) + LinkNames(b)
  {
  }

  lemma NoLinkNames(facts: set<Fact>)
    requires forall f :: f in facts ==> !f.LinkFact?
    ensures LinkNames(facts) == {}
  {
  }

  // ---- the counters of a run ----

  /** `syncSummary`. */
  datatype SyncSummary = SyncSummary(
    benchmarks: nat, difficulties: nat, rankDefs: nat, categories: nat, subcategories: nat, scenarioLinks: nat)
  {
    function Plus(other: SyncSummary): SyncSummary {
      SyncSummary(benchmarks + other.benchmarks, difficulties + other.difficulties, rankDefs + other.rankDefs,
                  categories + other.categories, subcategories + other.subcategories, scenarioLinks + other.scenarioLinks)
    }
  }

  const NOTHING_WRITTEN := SyncSummary(0, 0, 0, 0, 0, 0)

  function SubcategoryCount(cats: seq<Category>, n: nat): nat
    requires n <= |cats|
  {
    if n == 0 then 0 else SubcategoryCount(cats, n - 1) + |cats[n - 1].subcategories|
  }

  function DifficultyCounts(d: Difficulty, ctx: Context): SyncSummary {
    SyncSummary(0, 1, |d.mergedRanks|, |d.categories|, SubcategoryCount(d.categories, |d.categories|),
                |Links(d.mergedScenarios, ctx.lower)|)
  }

  function DifficultiesCounts(ds: seq<Difficulty>, n: nat, ctx: Context): SyncSummary
    requires n <= |ds|
  {
    if n == 0 then NOTHING_WRITTEN else
      DifficultiesCounts(ds, n - 1, ctx).Plus(DifficultyCounts(ds[n - 1], ctx))
  }

  function BenchmarkCounts(b: Benchmark, ctx: Context): SyncSummary {
    SyncSummary(1, 0, 0, 0, 0, 0).Plus(DifficultiesCounts(b.difficulties, |b.difficulties|, ctx))
  }

  /** What writing the first `n` benchmarks of a tree counts. */
  function TreeCounts(bs: seq<Benchmark>, n: nat, ctx: Context): SyncSummary
    requires n <= |bs|
  {
    if n == 0 then NOTHING_WRITTEN else TreeCounts(bs, n - 1, ctx).Plus(BenchmarkCounts(bs[n - 1], ctx))
  }

  // ---- who owns the rows of an image ----

  ghost predicate AllAt(facts: set<Fact>, p: Path) {
    forall f :: f in facts ==> !f.BenchmarkFact? && f.path == p
  }

  lemma {:induction false} RankImageAt(p: Path, ranks: seq<MergedRank>, n: nat)
    requires n <= |ranks|
    ensures AllAt(RankImage(p, ranks, n), p)
    ensures forall f :: f in RankImage(p, ranks, n) ==> f.RankFact?
  {
    if n > 0 { RankImageAt(p, ranks, n - 1); }
  }

  lemma {:induction false} SubcategoryImageAt(p: Path, categoryOrder: int, subs: seq<Subcategory>, n: nat)
    requires n <= |subs|
    ensures AllAt(SubcategoryImage(p, categoryOrder, subs, n), p)
    ensures forall f :: f in SubcategoryImage(p, categoryOrder, subs, n) ==> f.SubcategoryFact?
  {
    if n > 0 { SubcategoryImageAt(p, categoryOrder, subs, n - 1); }
  }

  lemma {:induction false} CategoryImageAt(p: Path, cats: seq<Category>, n: nat)
    requires n <= |cats|
    ensures AllAt(CategoryImage(p, cats, n), p)
    ensures forall f :: f in CategoryImage(p, cats, n) ==> f.CategoryFact? || f.SubcategoryFact?
  {
    if n > 0 {
      CategoryImageAt(p, cats, n - 1);
      SubcategoryImageAt(p, n - 1, cats[n - 1].subcategories, |cats[n - 1].subcategories|);
    }
  }

  lemma {:induction false} LinkImageAt(p: Path, links: seq<MergedScenario>, n: nat)
    requires n <= |links|
    ensures AllAt(LinkImage(p, links, n), p)
    ensures forall f :: f in LinkImage(p, links, n) ==> f.LinkFact?
  {
    if n > 0 { LinkImageAt(p, links, n - 1); }
  }

  /** A difficulty's rows lie at its path, and exactly one of them is a difficulty row. */
  lemma DifficultyImageAt(bench: string, d: Difficulty, j: nat, ctx: Context)
    ensures AllAt(DifficultyImage(bench, d, j, ctx), Path(bench, d.kovaaksBenchmarkId))
    ensures DifficultyFact(Path(bench, d.kovaaksBenchmarkId), d.difficultyName, d.sharecode, j)
              in DifficultyImage(bench, d, j, ctx)
  {
    hide RankImage, CategoryImage, LinkImage, Links;
    var p, links := Path(bench, d.kovaaksBenchmarkId), Links(d.mergedScenarios, ctx.lower);
    RankImageAt(p, d.mergedRanks, |d.mergedRanks|);
    CategoryImageAt(p, d.categories, |d.categories|);
    LinkImageAt(p, links, |links|);
  }

  /** Some difficulty row of `facts` has this id. */
  ghost predicate HoldsId(facts: set<Fact>, id: int) {
    exists f :: f in facts && f.DifficultyFact? && f.path.kovaaksId == id
  }

  /** A difficulty names the scenarios of its links. */
  lemma DifficultyLinkNames(bench: string, d: Difficulty, j: nat, ctx: Context)
    ensures var links := Links(d.mergedScenarios, ctx.lower);
            LinkNames(DifficultyImage(bench, d, j, ctx))
            == LinkNames(LinkImage(Path(bench, d.kovaaksBenchmarkId), links, |links|))
  {
    hide RankImage, CategoryImage, LinkImage, Links, LinkNames;
    var p, links := Path(bench, d.kovaaksBenchmarkId), Links(d.mergedScenarios, ctx.lower);
    var own, ranks := {DifficultyFact(p, d.difficultyName, d.sharecode, j)}, RankImage(p, d.mergedRanks, |d.mergedRanks|);
    var cats, linked := CategoryImage(p, d.categories, |d.categories|), LinkImage(p, links, |links|);
    RankImageAt(p, d.mergedRanks, |d.mergedRanks|);
    CategoryImageAt(p, d.categories, |d.categories|);
    NoLinkNames(own + ranks + cats);
    LinkNamesUnion(own + ranks + cats, linked);
    assert {} + LinkNames(linked) == LinkNames(linked);
  }

  /** A row of a benchmark's difficulties lies at the path of one of them. */
  lemma {:induction false} DifficultiesImageOwner(bench: string, ds: seq<Difficulty>, n: nat, ctx: Context, f: Fact)
    returns (j: nat)
    requires n <= |ds| && f in DifficultiesImage(bench, ds, n, ctx)
    ensures j < n && !f.BenchmarkFact? && f.path == Path(bench, ds[j].kovaaksBenchmarkId)
  {
    hide DifficultyImage;
    DifficultyImageAt(bench, ds[n - 1], n - 1, ctx);
    if f in DifficultyImage(bench, ds[n - 1], n - 1, ctx) {
      j := n - 1;
    } else {
      j := DifficultiesImageOwner(bench, ds, n - 1, ctx, f);
    }
  }

  lemma {:induction false} DifficultiesImageHas(bench: string, ds: seq<Difficulty>, n: nat, ctx: Context, j: nat)
    requires j < n <= |ds|
    ensures DifficultyFact(Path(bench, ds[j].kovaaksBenchmarkId), ds[j].difficultyName, ds[j].sharecode, j)
              in DifficultiesImage(bench, ds, n, ctx)
  {
    hide DifficultyImage;
    DifficultyImageAt(bench, ds[j], j, ctx);
    if j < n - 1 {
      DifficultiesImageHas(bench, ds, n - 1, ctx, j);
    }
  }

  lemma BenchmarkImageOwner(b: Benchmark, ctx: Context, f: Fact)
    requires f in BenchmarkImage(b, ctx)
    ensures f.Owner() == b.benchmarkName
    ensures f.DifficultyFact? ==> f.path.kovaaksId in Ids(b.difficulties)
  {
    hide DifficultiesImage;
    if f != BenchmarkFact(RowOf(b, ctx)) {
      var j := DifficultiesImageOwner(b.benchmarkName, b.difficulties, |b.difficulties|, ctx, f);
    }
  }

  /** A row of an image belongs to one of the benchmarks, and an id it holds is that benchmark's. */
  lemma {:induction false} ImageOwner(bs: seq<Benchmark>, n: nat, ctx: Context, f: Fact) returns (i: nat)
    requires n <= |bs| && f in Image(bs, n, ctx)
    ensures i < n && f.Owner() == bs[i].benchmarkName
    ensures f.DifficultyFact? ==> f.path.kovaaksId in Ids(bs[i].difficulties)
  {
    hide BenchmarkImage, Ids;
    if f in BenchmarkImage(bs[n - 1], ctx) {
      BenchmarkImageOwner(bs[n - 1], ctx, f);
      i := n - 1;
    } else {
      i := ImageOwner(bs, n - 1, ctx, f);
    }
  }

  // ---- when a tree can be written ----

  /** Every scenario count fits its column. */
  predicate CountsFit(cats: seq<Category>) {
    forall k, m :: 0 <= k < |cats| && 0 <= m < |cats[k].subcategories| ==> FitsInt(cats[k].subcategories[m].scenarioCount)
  }

  ghost predicate DistinctNames(ds: seq<Difficulty>) {
    forall i, j :: 0 <= i < j < |ds| ==> ds[i].difficultyName != ds[j].difficultyName
  }

  ghost predicate DistinctIds(ds: seq<Difficulty>) {
    forall i, j :: 0 <= i < j < |ds| ==> ds[i].kovaaksBenchmarkId != ds[j].kovaaksBenchmarkId
  }

  /** What is left of the old rows when the first `i` benchmarks of a tree are written: those of the other ones. The
      rows of benchmarks that are not listed went first. */
  ghost function Left(before: set<Fact>, bs: seq<Benchmark>, i: nat): set<Fact>
    requires i <= |bs|
  {
    set f | f in before && f.Owner() in Names(bs[i..])
  }

  /** A benchmark can be written beside `facts`: its date parses, its counts fit, its difficulty names differ, and none
      of its ids is there. */
  ghost predicate Writable(facts: set<Fact>, b: Benchmark, ctx: Context) {
    && ParseDate(b.dateAdded, ctx).Ok?
    && DistinctNames(b.difficulties)
    && forall j :: 0 <= j < |b.difficulties| ==>
         CountsFit(b.difficulties[j].categories) && !HoldsId(facts, b.difficulties[j].kovaaksBenchmarkId)
  }

  /** A tree can be written over `before` when every benchmark of it can be, and no id of one is still held in the old
      tables by a benchmark listed later. */
  ghost predicate CanSync(before: set<Fact>, bs: seq<Benchmark>, ctx: Context) {
    forall i :: 0 <= i < |bs| ==> Writable(Left(before, bs, i + 1), bs[i], ctx)
  }

  /** The run comes to a benchmark whose date cannot be read, having written all before it. */
  ghost predicate StopsAtDate(before: set<Fact>, bs: seq<Benchmark>, ctx: Context) {
    exists i :: 0 <= i < |bs| && DateStops(before, bs, ctx, i)
  }

  ghost predicate DateStops(before: set<Fact>, bs: seq<Benchmark>, ctx: Context, i: nat)
    requires i < |bs|
  {
    ParseDate(bs[i].dateAdded, ctx).Err? && forall k :: 0 <= k < i ==> Writable(Left(before, bs, k + 1), bs[k], ctx)
  }

  lemma NeverStops(before: set<Fact>, bs: seq<Benchmark>, ctx: Context)
    requires CanSync(before, bs, ctx)
    ensures !StopsAtDate(before, bs, ctx)
  {
    hide Left, HoldsId, CountsFit, DistinctNames, ParseDate;
  }

  lemma StopsHere(before: set<Fact>, bs: seq<Benchmark>, ctx: Context, i: nat)
    requires i < |bs| && !Writable(Left(before, bs, i + 1), bs[i], ctx)
    requires forall k :: 0 <= k < i ==> Writable(Left(before, bs, k + 1), bs[k], ctx)
    ensures StopsAtDate(before, bs, ctx) <==> ParseDate(bs[i].dateAdded, ctx).Err?
  {
    hide Left, HoldsId, CountsFit, DistinctNames, ParseDate;
    if ParseDate(bs[i].dateAdded, ctx).Err? {
      assert DateStops(before, bs, ctx, i);
    }
  }
}
