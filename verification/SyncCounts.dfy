/** The counters of a sync are the sizes of the tables it leaves. */
module SyncCounts {
  import opened Common
  import opened BenchmarkSource
  import opened Merging
  import opened Parsing
  import opened Tables
  import opened SyncSpec
  import opened SyncRun
  import opened SyncImages
  import opened ViewRenaming

  /** How many rows the six benchmark tables hold. */
  function Sizes(t: Tables): SyncSummary {
    SyncSummary(|t.benchmarks|, |t.difficulties|, |t.ranks|, |t.categories|, |t.subcategories|, |t.links|)
  }

  // ---- counting facts by table ----

  datatype Table = Benchmarks | Difficulties | RankDefs | Categories | Subcategories | ScenarioLinks

  function TableOf(f: Fact): Table {
    if f.BenchmarkFact? then Benchmarks
    else if f.DifficultyFact? then Difficulties
    else if f.RankFact? then RankDefs
    else if f.CategoryFact? then Categories
    else if f.SubcategoryFact? then Subcategories
    else ScenarioLinks
  }

  function RowsOf(facts: set<Fact>, table: Table): set<Fact> {
    set f | f in facts && TableOf(f) == table
  }

  function Tally(facts: set<Fact>): SyncSummary {
    SyncSummary(|RowsOf(facts, Benchmarks)|, |RowsOf(facts, Difficulties)|, |RowsOf(facts, RankDefs)|,
                |RowsOf(facts, Categories)|, |RowsOf(facts, Subcategories)|, |RowsOf(facts, ScenarioLinks)|)
  }

  lemma RowsOfUnion(a: set<Fact>, b: set<Fact>, table: Table)
    requires a !! b
    ensures |RowsOf(a + b, table)| == |RowsOf(a, table)| + |RowsOf(b, table)|
  {
    assert RowsOf(a + b, table) == RowsOf(a, table) + RowsOf(b, table);
  }

  lemma TallyUnion(a: set<Fact>, b: set<Fact>)
    requires a !! b
    ensures Tally(a + b) == Tally(a).Plus(Tally(b))
  {
    hide RowsOf;
    RowsOfUnion(a, b, Benchmarks);
    RowsOfUnion(a, b, Difficulties);
    RowsOfUnion(a, b, RankDefs);
    RowsOfUnion(a, b, Categories);
    RowsOfUnion(a, b, Subcategories);
    RowsOfUnion(a, b, ScenarioLinks);
  }

  function One(f: Fact): SyncSummary {
    match TableOf(f)
    case Benchmarks => SyncSummary(1, 0, 0, 0, 0, 0)
    case Difficulties => SyncSummary(0, 1, 0, 0, 0, 0)
    case RankDefs => SyncSummary(0, 0, 1, 0, 0, 0)
    case Categories => SyncSummary(0, 0, 0, 1, 0, 0)
    case Subcategories => SyncSummary(0, 0, 0, 0, 1, 0)
    case ScenarioLinks => SyncSummary(0, 0, 0, 0, 0, 1)
  }

  lemma RowsOfOne(f: Fact, table: Table)
    ensures |RowsOf({f}, table)| == if TableOf(f) == table then 1 else 0
  {
    assert RowsOf({f}, table) == if TableOf(f) == table then {f} else {};
  }

  lemma TallyOne(f: Fact)
    ensures Tally({f}) == One(f)
  {
    hide RowsOf, TableOf;
    RowsOfOne(f, Benchmarks);
    RowsOfOne(f, Difficulties);
    RowsOfOne(f, RankDefs);
    RowsOfOne(f, Categories);
    RowsOfOne(f, Subcategories);
    RowsOfOne(f, ScenarioLinks);
  }

  lemma TallyNone()
    ensures Tally({}) == NOTHING_WRITTEN
  {
    forall table ensures RowsOf({}, table) == {} {
    }
  }

  /** One more row. */
  lemma TallyWith(facts: set<Fact>, f: Fact)
    requires f !in facts
    ensures Tally(facts + {f}) == Tally(facts).Plus(One(f))
  {
    hide Tally;
    TallyUnion(facts, {f});
    TallyOne(f);
  }

  // ---- counting an image ----

  lemma {:induction false} TallyRanks(p: Path, ranks: seq<MergedRank>, n: nat)
    requires n <= |ranks|
    ensures Tally(RankImage(p, ranks, n)) == SyncSummary(0, 0, n, 0, 0, 0)
  {
    hide Tally;
    TallyNone();
    if n > 0 {
      var f := RankFact(p, n - 1, RankRow(ranks[n - 1].name, ranks[n - 1].color));
      TallyRanks(p, ranks, n - 1);
      InRankImage(p, ranks, n - 1, f);
      TallyWith(RankImage(p, ranks, n - 1), f);
    }
  }

  lemma {:induction false} TallySubcategories(p: Path, order: int, subs: seq<Subcategory>, n: nat)
    requires n <= |subs|
    ensures Tally(SubcategoryImage(p, order, subs, n)) == SyncSummary(0, 0, 0, 0, n, 0)
  {
    hide Tally;
    TallyNone();
    if n > 0 {
      var s := subs[n - 1];
      var f := SubcategoryFact(p, order, s.subcategoryName, s.scenarioCount, s.color, n - 1);
      TallySubcategories(p, order, subs, n - 1);
      InSubcategoryImage(p, order, subs, n - 1, f);
      TallyWith(SubcategoryImage(p, order, subs, n - 1), f);
    }
  }

  lemma {:induction false} TallyCategories(p: Path, cats: seq<Category>, n: nat)
    requires n <= |cats|
    ensures Tally(CategoryImage(p, cats, n)) == SyncSummary(0, 0, 0, n, SubcategoryCount(cats, n), 0)
  {
    hide Tally, SubcategoryImage;
    TallyNone();
    if n > 0 {
      var c := cats[n - 1];
      var front, f := CategoryImage(p, cats, n - 1), CategoryFact(p, c.categoryName, c.color, n - 1);
      var below := SubcategoryImage(p, n - 1, c.subcategories, |c.subcategories|);
      TallyCategories(p, cats, n - 1);
      TallySubcategories(p, n - 1, c.subcategories, |c.subcategories|);
      forall g | g in {f} + below ensures g !in front && (g == f <==> g !in below) {
        InCategoryImage(p, cats, n - 1, g);
        InSubcategoryImage(p, n - 1, c.subcategories, |c.subcategories|, g);
      }
      TallyUnion(front, {f} + below);
      TallyUnion({f}, below);
      TallyOne(f);
    }
  }

  lemma {:induction false} TallyLinks(p: Path, links: seq<MergedScenario>, n: nat)
    requires n <= |links| && forall i, k :: 0 <= i < k < |links| ==> links[i].name != links[k].name
    ensures Tally(LinkImage(p, links, n)) == SyncSummary(0, 0, 0, 0, 0, n)
  {
    hide Tally, LinkRowOf;
    TallyNone();
    if n > 0 {
      var f := LinkFact(p, links[n - 1].name, LinkRowOf(links[n - 1]));
      TallyLinks(p, links, n - 1);
      InLinkImage(p, links, n - 1, f);
      TallyWith(LinkImage(p, links, n - 1), f);
    }
  }

  lemma TallyDifficulty(bench: string, d: Difficulty, j: nat, ctx: Context)
    ensures Tally(DifficultyImage(bench, d, j, ctx)) == DifficultyCounts(d, ctx)
  {
    hide Tally, RankImage, CategoryImage, LinkImage, Links, SubcategoryCount;
    var p, links := Path(bench, d.kovaaksBenchmarkId), Links(d.mergedScenarios, ctx.lower);
    var own, ranks := {DifficultyFact(p, d.difficultyName, d.sharecode, j)}, RankImage(p, d.mergedRanks, |d.mergedRanks|);
    var cats, linked := CategoryImage(p, d.categories, |d.categories|), LinkImage(p, links, |links|);
    RankImageAt(p, d.mergedRanks, |d.mergedRanks|);
    CategoryImageAt(p, d.categories, |d.categories|);
    LinkImageAt(p, links, |links|);
    forall i, k | 0 <= i < k < |links| ensures links[i].name != links[k].name {
      LinksDistinct(d.mergedScenarios, ctx.lower, i, k);
    }
    TallyUnion(own + ranks + cats, linked);
    TallyUnion(own + ranks, cats);
    TallyUnion(own, ranks);
    TallyOne(DifficultyFact(p, d.difficultyName, d.sharecode, j));
    TallyRanks(p, d.mergedRanks, |d.mergedRanks|);
    TallyCategories(p, d.categories, |d.categories|);
    TallyLinks(p, links, |links|);
  }

  lemma {:induction false} TallyDifficulties(bench: string, ds: seq<Difficulty>, n: nat, ctx: Context)
    requires n <= |ds| && DistinctIds(ds)
    ensures Tally(DifficultiesImage(bench, ds, n, ctx)) == DifficultiesCounts(ds, n, ctx)
  {
    hide Tally, DifficultyImage, DifficultyCounts;
    TallyNone();
    if n > 0 {
      var front, last := DifficultiesImage(bench, ds, n - 1, ctx), DifficultyImage(bench, ds[n - 1], n - 1, ctx);
      TallyDifficulties(bench, ds, n - 1, ctx);
      TallyDifficulty(bench, ds[n - 1], n - 1, ctx);
      DifficultyImageAt(bench, ds[n - 1], n - 1, ctx);
      forall f | f in front ensures f !in last {
        var j := DifficultiesImageOwner(bench, ds, n - 1, ctx, f);
      }
      TallyUnion(front, last);
    }
  }

  lemma TallyBenchmark(b: Benchmark, ctx: Context)
    requires DistinctIds(b.difficulties)
    ensures Tally(BenchmarkImage(b, ctx)) == BenchmarkCounts(b, ctx)
  {
    hide Tally, DifficultiesImage, DifficultiesCounts, RowOf;
    var own, below := BenchmarkFact(RowOf(b, ctx)), DifficultiesImage(b.benchmarkName, b.difficulties, |b.difficulties|, ctx);
    if own in below {
      var j := DifficultiesImageOwner(b.benchmarkName, b.difficulties, |b.difficulties|, ctx, own);
      assert false;
    }
    TallyUnion({own}, below);
    TallyOne(own);
    TallyDifficulties(b.benchmarkName, b.difficulties, |b.difficulties|, ctx);
  }

  /** The image of an accepted tree has as many rows for each table as writing the tree counts. */
  lemma {:induction false} TallyImage(bs: seq<Benchmark>, n: nat, ctx: Context)
    requires n <= |bs| && Accepted(bs)
    ensures Tally(Image(bs, n, ctx)) == TreeCounts(bs, n, ctx)
  {
    hide Tally, BenchmarkImage, BenchmarkCounts, DifficultyOk, Ids;
    TallyNone();
    if n > 0 {
      var front, last := Image(bs, n - 1, ctx), BenchmarkImage(bs[n - 1], ctx);
      TallyImage(bs, n - 1, ctx);
      TallyBenchmark(bs[n - 1], ctx);
      forall f | f in front ensures f !in last {
        var i := ImageOwner(bs, n - 1, ctx, f);
        if f in last {
          BenchmarkImageOwner(bs[n - 1], ctx, f);
        }
      }
      TallyUnion(front, last);
    }
  }

  // ---- counting a table state ----

  lemma {:induction false} AsManyValues<K(!new), V>(f: map<K, V>)
    requires Injective(f)
    ensures |f.Values| == |f|
    decreases |f|
  {
    if f == map[] {
      assert f.Values == {};
    } else {
      var k :| k in f;
      var rest := f - {k};
      AsManyValues(rest);
      forall x ensures x in f.Values <==> x in rest.Values || x == f[k] {
        if x in f.Values {
          var j := KeyAt(f, x);
          assert j != k ==> j in rest && rest[j] == x;
        }
        if x in rest.Values {
          var j := KeyAt(rest, x);
          assert j in f && f[j] == x;
        }
      }
      assert f.Values == rest.Values + {f[k]};
      assert f[k] !in rest.Values;
    }
  }

  lemma RowsInPaths(t: Tables)
    requires Valid(t)
    ensures DifficultyFacts(PathsOf(t), t.difficulties).Keys == t.difficulties.Keys
    ensures RankFacts(PathsOf(t), t.ranks).Keys == t.ranks.Keys
    ensures LinkFacts(PathsOf(t), t.scenarios, t.links).Keys == t.links.Keys
  {
    hide UniqueBenchmarks, UniqueScenarios, UniqueDifficulties, UniqueCategories, UniqueSubcategories, PathsOf, Injective;
    PathsApart(t);
    forall d ensures d in DifficultyFacts(PathsOf(t), t.difficulties).Keys <==> d in t.difficulties.Keys {
    }
    SameSet(DifficultyFacts(PathsOf(t), t.difficulties).Keys, t.difficulties.Keys);
    forall k ensures k in RankFacts(PathsOf(t), t.ranks).Keys <==> k in t.ranks.Keys {
    }
    forall k ensures k in LinkFacts(PathsOf(t), t.scenarios, t.links).Keys <==> k in t.links.Keys {
    }
  }

  /** In valid tables every row is one fact of the view, and every fact one row. */
  lemma TallyView(t: Tables)
    requires Valid(t)
    ensures Tally(View(t)) == Sizes(t)
  {
    hide Valid, View, PathsOf, Cats, Injective;
    hide BenchmarkFacts, DifficultyFacts, RankFacts, CategoryFacts, SubcategoryFacts, LinkFacts;
    var ps := PathsOf(t);
    var b, d, r := BenchmarkFacts(t.benchmarks), DifficultyFacts(ps, t.difficulties), RankFacts(ps, t.ranks);
    var c, s, l := CategoryFacts(ps, t.categories), SubcategoryFacts(Cats(t), t.subcategories),
                   LinkFacts(ps, t.scenarios, t.links);
    RowsApart(t);
    RowsInPaths(t);
    CategoriesInPaths(t);
    SubcategoriesInPaths(t);
    BenchmarkKeys(t.benchmarks);
    AsManyValues(b);
    AsManyValues(d);
    AsManyValues(r);
    AsManyValues(c);
    AsManyValues(s);
    AsManyValues(l);
    assert RowsOf(View(t), Benchmarks) == b.Values by {
      forall f ensures f in RowsOf(View(t), Benchmarks) <==> f in b.Values { KindsApart(t, f); OnlyKinds(t, f); }
    }
    assert RowsOf(View(t), Difficulties) == d.Values by {
      forall f ensures f in RowsOf(View(t), Difficulties) <==> f in d.Values { KindsApart(t, f); OnlyKinds(t, f); }
    }
    assert RowsOf(View(t), RankDefs) == r.Values by {
      forall f ensures f in RowsOf(View(t), RankDefs) <==> f in r.Values { KindsApart(t, f); OnlyKinds(t, f); }
    }
    assert RowsOf(View(t), Categories) == c.Values by {
      forall f ensures f in RowsOf(View(t), Categories) <==> f in c.Values { KindsApart(t, f); OnlyKinds(t, f); }
    }
    assert RowsOf(View(t), Subcategories) == s.Values by {
      forall f ensures f in RowsOf(View(t), Subcategories) <==> f in s.Values { KindsApart(t, f); OnlyKinds(t, f); }
    }
    assert RowsOf(View(t), ScenarioLinks) == l.Values by {
      forall f ensures f in RowsOf(View(t), ScenarioLinks) <==> f in l.Values { KindsApart(t, f); OnlyKinds(t, f); }
    }
    KeySizes(b, t.benchmarks.Keys);
    KeySizes(d, t.difficulties.Keys);
    KeySizes(r, t.ranks.Keys);
    KeySizes(c, t.categories.Keys);
    KeySizes(s, t.subcategories.Keys);
    KeySizes(l, t.links.Keys);
  }

  lemma BenchmarkKeys(bm: map<int, BenchmarkRow>)
    ensures BenchmarkFacts(bm).Keys == bm.Keys
  {
  }

  lemma KeySizes<K, V>(f: map<K, V>, keys: set<K>)
    requires f.Keys == keys
    ensures |f| == |keys|
  {
    assert |f.Keys| == |f|;
  }

  /** The counters of a run are the sizes of the tables it leaves. */
  lemma CountersAreSizes(t: Tables, bs: seq<Benchmark>, ctx: Context)
    requires Valid(t) && Accepted(bs) && View(t) == Image(bs, |bs|, ctx)
    ensures TreeCounts(bs, |bs|, ctx) == Sizes(t)
  {
    hide Valid, Accepted, View, Image, TreeCounts, Sizes, Tally;
    TallyView(t);
    TallyImage(bs, |bs|, ctx);
  }
}
