/** The image of a tree said row by row, independently of the order in which the sync writes it. */
module SyncImages {
  import opened Common
  import opened BenchmarkSource
  import opened Merging
  import opened Placement
  import opened Parsing
  import opened Tables
  import opened SyncSpec

  /** The row of a benchmark: its texts, its date if it has one, and the source it comes from. */
  ghost predicate SaysBenchmark(row: BenchmarkRow, b: Benchmark, ctx: Context) {
    && row.name == b.benchmarkName && row.abbreviation == b.abbreviation && row.rankCalculation == b.rankCalculation
    && row.color == b.color && row.spreadsheetUrl == b.spreadsheetUrl
    && row.dateAdded == (if Trim(b.dateAdded) == "" then None else ctx.timeParse(Trim(b.dateAdded)))
    && row.sourceFile == ctx.sourceFile && row.sourceHash == ctx.sourceHash
  }

  /** The row of a link: made of the first entry with its name, and numbered by those before it. */
  ghost predicate SaysLink(scenario: string, link: LinkRow, ms: seq<MergedScenario>, lower: string -> string, i: int) {
    && Represents(ms, lower, i)
    && scenario == Trim(ms[i].name) && link.categoryName == Trim(ms[i].categoryName)
    && link.subcategoryName == Trim(ms[i].subcategoryName) && link.rankThresholds == ms[i].rankThresholds
    && link.sortOrder == |RepresentsBefore(ms, lower, i)|
  }

  lemma RowSaysBenchmark(row: BenchmarkRow, b: Benchmark, ctx: Context)
    ensures row == RowOf(b, ctx) <==> SaysBenchmark(row, b, ctx)
  {
    hide Trim;
  }

  lemma LinkRowSays(ms: seq<MergedScenario>, lower: string -> string, scenario: string, link: LinkRow)
    ensures LinkAmong(Links(ms, lower), scenario, link) <==> exists i :: SaysLink(scenario, link, ms, lower, i)
  {
    hide Represents, RepresentsBefore, Links, Trim;
    var links := Links(ms, lower);
    LinksSayEntries(ms, lower);
    if k :| 0 <= k < |links| && links[k].name == scenario && LinkRowOf(links[k]) == link {
      assert IsLink(links[k], ms, lower);
      var i :| LinkSays(links[k], ms, lower, i);
      assert SaysLink(scenario, link, ms, lower, i);
    }
    if i :| SaysLink(scenario, link, ms, lower, i) {
      assert HasLink(links, ms, lower, i);
      var k :| 0 <= k < |links| && LinkSays(links[k], ms, lower, i);
      assert links[k].name == scenario && LinkRowOf(links[k]) == link;
    }
  }

  /** The row is one that difficulty `d`, the j-th of its benchmark, calls for. */
  ghost predicate CalledForBy(f: Fact, d: Difficulty, j: int, ctx: Context) {
    if f.DifficultyFact? then
      f.name == d.difficultyName && f.sharecode == d.sharecode && f.sortOrder == j
    else if f.RankFact? then
      0 <= f.rankOrder < |d.mergedRanks|
      && f.rank.name == d.mergedRanks[f.rankOrder].name && f.rank.color == d.mergedRanks[f.rankOrder].color
    else if f.CategoryFact? then
      0 <= f.sortOrder < |d.categories|
      && f.category == d.categories[f.sortOrder].categoryName && f.color == d.categories[f.sortOrder].color
    else if f.SubcategoryFact? then
      0 <= f.categoryOrder < |d.categories|
      && var subs := d.categories[f.categoryOrder].subcategories;
         0 <= f.sortOrder < |subs|
         && f.name == subs[f.sortOrder].subcategoryName && f.color == subs[f.sortOrder].color
         && f.scenarioCount == subs[f.sortOrder].scenarioCount
    else
      f.LinkFact? && exists i :: SaysLink(f.scenario, f.link, d.mergedScenarios, ctx.lower, i)
  }

  ghost predicate LinkAmong(links: seq<MergedScenario>, scenario: string, link: LinkRow) {
    exists k :: 0 <= k < |links| && links[k].name == scenario && LinkRowOf(links[k]) == link
  }

  /** The row is one that the tree calls for. */
  ghost predicate CalledFor(f: Fact, bs: seq<Benchmark>, ctx: Context) {
    if f.BenchmarkFact? then exists i :: 0 <= i < |bs| && SaysBenchmark(f.row, bs[i], ctx)
    else exists i, j :: 0 <= i < |bs| && 0 <= j < |bs[i].difficulties| && RowAt(f, bs[i], j, ctx)
  }

  ghost predicate RowAt(f: Fact, b: Benchmark, j: int, ctx: Context)
    requires 0 <= j < |b.difficulties|
  {
    && !f.BenchmarkFact?
    && f.path == Path(b.benchmarkName, b.difficulties[j].kovaaksBenchmarkId)
    && CalledForBy(f, b.difficulties[j], j, ctx)
  }

  lemma {:induction false} InRankImage(p: Path, ranks: seq<MergedRank>, n: nat, f: Fact)
    requires n <= |ranks|
    ensures f in RankImage(p, ranks, n) <==>
            f.RankFact? && f.path == p && 0 <= f.rankOrder < n
            && f.rank == RankRow(ranks[f.rankOrder].name, ranks[f.rankOrder].color)
  {
    if n > 0 { InRankImage(p, ranks, n - 1, f); }
  }

  lemma {:induction false} InSubcategoryImage(p: Path, order: int, subs: seq<Subcategory>, n: nat, f: Fact)
    requires n <= |subs|
    ensures f in SubcategoryImage(p, order, subs, n) <==>
            f.SubcategoryFact? && f.path == p && f.categoryOrder == order && 0 <= f.sortOrder < n
            && f.name == subs[f.sortOrder].subcategoryName && f.color == subs[f.sortOrder].color
            && f.scenarioCount == subs[f.sortOrder].scenarioCount
  {
    if n > 0 { InSubcategoryImage(p, order, subs, n - 1, f); }
  }

  lemma {:induction false} InCategoryImage(p: Path, cats: seq<Category>, n: nat, f: Fact)
    requires n <= |cats|
    ensures f in CategoryImage(p, cats, n) <==>
            if f.CategoryFact? then
              f.path == p && 0 <= f.sortOrder < n
              && f.category == cats[f.sortOrder].categoryName && f.color == cats[f.sortOrder].color
            else
              f.SubcategoryFact? && 0 <= f.categoryOrder < n
              && var subs := cats[f.categoryOrder].subcategories;
                 f in SubcategoryImage(p, f.categoryOrder, subs, |subs|)
  {
    hide SubcategoryImage;
    if n > 0 {
      InCategoryImage(p, cats, n - 1, f);
      InSubcategoryImage(p, n - 1, cats[n - 1].subcategories, |cats[n - 1].subcategories|, f);
    }
  }

  lemma {:induction false} InLinkImage(p: Path, links: seq<MergedScenario>, n: nat, f: Fact)
    requires n <= |links|
    ensures f in LinkImage(p, links, n) <==>
            f.LinkFact? && f.path == p
            && exists k :: 0 <= k < n && links[k].name == f.scenario && LinkRowOf(links[k]) == f.link
  {
    hide LinkRowOf;
    if n > 0 { InLinkImage(p, links, n - 1, f); }
  }

  lemma InDifficultyImage(b: Benchmark, j: nat, ctx: Context, f: Fact)
    requires j < |b.difficulties|
    ensures f in DifficultyImage(b.benchmarkName, b.difficulties[j], j, ctx) <==> RowAt(f, b, j, ctx)
  {
    hide RankImage, CategoryImage, SubcategoryImage, LinkImage, Links, LinkRowOf, SaysLink;
    var d := b.difficulties[j];
    var p, links := Path(b.benchmarkName, d.kovaaksBenchmarkId), Links(d.mergedScenarios, ctx.lower);
    InRankImage(p, d.mergedRanks, |d.mergedRanks|, f);
    InCategoryImage(p, d.categories, |d.categories|, f);
    InLinkImage(p, links, |links|, f);
    if f.LinkFact? {
      LinkRowSays(d.mergedScenarios, ctx.lower, f.scenario, f.link);
    }
    if f.SubcategoryFact? && 0 <= f.categoryOrder < |d.categories| {
      var subs := d.categories[f.categoryOrder].subcategories;
      InSubcategoryImage(p, f.categoryOrder, subs, |subs|, f);
    }
  }

  lemma {:induction false} InDifficultiesImage(b: Benchmark, n: nat, ctx: Context, f: Fact)
    requires n <= |b.difficulties|
    ensures f in DifficultiesImage(b.benchmarkName, b.difficulties, n, ctx) <==>
            exists j :: 0 <= j < n && RowAt(f, b, j, ctx)
  {
    hide DifficultyImage, RowAt;
    if n > 0 {
      InDifficultiesImage(b, n - 1, ctx, f);
      InDifficultyImage(b, n - 1, ctx, f);
    }
  }

  lemma {:induction false} InImage(bs: seq<Benchmark>, n: nat, ctx: Context, f: Fact)
    requires n <= |bs|
    ensures f in Image(bs, n, ctx) <==>
            || (f.BenchmarkFact? && exists i :: 0 <= i < n && f.row == RowOf(bs[i], ctx))
            || exists i, j :: 0 <= i < n && 0 <= j < |bs[i].difficulties| && RowAt(f, bs[i], j, ctx)
  {
    hide DifficultiesImage, RowAt, RowOf;
    if n > 0 {
      InImage(bs, n - 1, ctx, f);
      InDifficultiesImage(bs[n - 1], |bs[n - 1].difficulties|, ctx, f);
    }
  }

  /** The image holds exactly the rows the tree calls for: what a sync leaves in the tables, no row more or less. */
  lemma ImageIsCalledFor(bs: seq<Benchmark>, ctx: Context, f: Fact)
    ensures f in Image(bs, |bs|, ctx) <==> CalledFor(f, bs, ctx)
  {
    hide Image, RowOf, CalledForBy, SaysBenchmark;
    InImage(bs, |bs|, ctx, f);
    if f.BenchmarkFact? {
      forall i | 0 <= i < |bs| ensures f.row == RowOf(bs[i], ctx) <==> SaysBenchmark(f.row, bs[i], ctx) {
        RowSaysBenchmark(f.row, bs[i], ctx);
      }
    }
  }
}
