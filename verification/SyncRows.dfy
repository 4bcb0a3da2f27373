/** What the tables hold after a sync, and when a sync can be done, said of the rows and of the tree's own fields. */
module SyncRows {
  import opened Common
  import opened BenchmarkSource
  import opened Merging
  import opened Placement
  import opened Parsing
  import opened Tables
  import opened SyncSpec
  import opened SyncRun
  import opened SyncImages
  import opened ViewRenaming

  // ---- the rows ----

  /** A row for each benchmark, and no other. */
  ghost predicate BenchmarkRowsSay(bm: map<int, BenchmarkRow>, bs: seq<Benchmark>, ctx: Context) {
    && (forall b :: b in bm ==> SomeBenchmark(bm[b], bs, ctx))
    && (forall i :: 0 <= i < |bs| ==> HasBenchmark(bm, bs[i], ctx))
  }

  ghost predicate SomeBenchmark(row: BenchmarkRow, bs: seq<Benchmark>, ctx: Context) {
    exists i :: 0 <= i < |bs| && SaysBenchmark(row, bs[i], ctx)
  }

  ghost predicate HasBenchmark(bm: map<int, BenchmarkRow>, b: Benchmark, ctx: Context) {
    exists id :: id in bm && SaysBenchmark(bm[id], b, ctx)
  }

  /** Row `id` is that of the j-th difficulty of benchmark `i`. */
  ghost predicate IsDifficultyRow(t: Tables, id: int, bs: seq<Benchmark>, i: int, j: int) {
    && IsDifficultyOf(bs, i, j) && id in t.difficulties && t.difficulties[id].benchmarkId in t.benchmarks
    && t.benchmarks[t.difficulties[id].benchmarkId].name == bs[i].benchmarkName
    && t.difficulties[id].kovaaksId == bs[i].difficulties[j].kovaaksBenchmarkId
  }

  ghost predicate SomeDifficulty(t: Tables, id: int, bs: seq<Benchmark>) {
    exists i, j :: IsDifficultyRow(t, id, bs, i, j)
  }

  ghost predicate HasDifficulty(t: Tables, bs: seq<Benchmark>, i: int, j: int) {
    exists id :: IsDifficultyRow(t, id, bs, i, j)
  }

  ghost predicate RankRowsSay(rm: map<RankKey, RankRow>, id: int, ranks: seq<MergedRank>) {
    && (forall n :: RankKey(id, n) in rm <==> 0 <= n < |ranks|)
    && (forall n :: 0 <= n < |ranks| ==>
          rm[RankKey(id, n)].name == ranks[n].name && rm[RankKey(id, n)].color == ranks[n].color)
  }

  ghost predicate CategoryRowsSay(cm: map<int, CategoryRow>, id: int, cats: seq<Category>) {
    && (forall c :: c in cm && cm[c].difficultyId == id ==>
          && 0 <= cm[c].sortOrder < |cats|
          && cm[c].name == cats[cm[c].sortOrder].categoryName && cm[c].color == cats[cm[c].sortOrder].color)
    && (forall k :: 0 <= k < |cats| ==> HasCategory(cm, id, k))
  }

  ghost predicate HasCategory(cm: map<int, CategoryRow>, id: int, k: int) {
    exists c :: c in cm && cm[c].difficultyId == id && cm[c].sortOrder == k
  }

  ghost predicate SubcategoryRowsSay(sm: map<int, SubcategoryRow>, categoryId: int, subs: seq<Subcategory>) {
    && (forall s :: s in sm && sm[s].categoryId == categoryId ==>
          && 0 <= sm[s].sortOrder < |subs|
          && sm[s].name == subs[sm[s].sortOrder].subcategoryName && sm[s].color == subs[sm[s].sortOrder].color
          && sm[s].scenarioCount == subs[sm[s].sortOrder].scenarioCount)
    && (forall m :: 0 <= m < |subs| ==> HasSubcategory(sm, categoryId, m))
  }

  ghost predicate HasSubcategory(sm: map<int, SubcategoryRow>, categoryId: int, m: int) {
    exists s :: s in sm && sm[s].categoryId == categoryId && sm[s].sortOrder == m
  }

  /** Scenario `s` is linked to difficulty `id` as entry `i` says. */
  ghost predicate LinkedAs(t: Tables, id: int, s: int, ms: seq<MergedScenario>, lower: string -> string, i: int) {
    && LinkKey(id, s) in t.links && s in t.scenarios
    && SaysLink(t.scenarios[s], t.links[LinkKey(id, s)], ms, lower, i)
  }

  ghost predicate LinkRowsSay(t: Tables, id: int, ms: seq<MergedScenario>, lower: string -> string) {
    && (forall s :: LinkKey(id, s) in t.links ==> LinkedAsSome(t, id, s, ms, lower))
    && (forall i :: Represents(ms, lower, i) ==> HasLinkRow(t, id, ms, lower, i))
  }

  ghost predicate LinkedAsSome(t: Tables, id: int, s: int, ms: seq<MergedScenario>, lower: string -> string) {
    exists i :: LinkedAs(t, id, s, ms, lower, i)
  }

  ghost predicate HasLinkRow(t: Tables, id: int, ms: seq<MergedScenario>, lower: string -> string, i: int) {
    exists s :: LinkedAs(t, id, s, ms, lower, i)
  }

  /** What the tables say of difficulty `d`, the j-th of its benchmark, under its row `id`. */
  ghost predicate DifficultySays(t: Tables, id: int, d: Difficulty, j: int, ctx: Context)
    requires id in t.difficulties
  {
    && t.difficulties[id].name == d.difficultyName && t.difficulties[id].sharecode == d.sharecode
    && t.difficulties[id].sortOrder == j
    && RankRowsSay(t.ranks, id, d.mergedRanks)
    && CategoryRowsSay(t.categories, id, d.categories)
    && (forall c :: c in t.categories && t.categories[c].difficultyId == id && 0 <= t.categories[c].sortOrder < |d.categories| ==>
          SubcategoryRowsSay(t.subcategories, c, d.categories[t.categories[c].sortOrder].subcategories))
    && LinkRowsSay(t, id, d.mergedScenarios, ctx.lower)
  }

  /** The rows are those of the tree: one for each benchmark, one for each difficulty of each, and below a difficulty those
      of its ranks, categories, subcategories and links. */
  ghost predicate TablesSay(t: Tables, bs: seq<Benchmark>, ctx: Context) {
    && BenchmarkRowsSay(t.benchmarks, bs, ctx)
    && (forall id :: id in t.difficulties ==> SomeDifficulty(t, id, bs))
    && (forall i, j :: IsDifficultyOf(bs, i, j) ==> HasDifficulty(t, bs, i, j))
    && (forall id, i, j :: IsDifficultyRow(t, id, bs, i, j) ==> DifficultySays(t, id, bs[i].difficulties[j], j, ctx))
  }

  // ---- rows and facts ----

  lemma BenchmarkInView(t: Tables, row: BenchmarkRow)
    ensures BenchmarkFact(row) in View(t) <==> exists b :: b in t.benchmarks && t.benchmarks[b] == row
  {
    hide View, PathsOf, Cats;
    var f, facts := BenchmarkFact(row), BenchmarkFacts(t.benchmarks);
    KindsApart(t, f);
    if f in facts.Values {
      var b := KeyAt(facts, f);
    }
    if b :| b in t.benchmarks && t.benchmarks[b] == row {
      assert b in facts && facts[b] == f;
    }
  }

  lemma DifficultyInView(t: Tables, p: Path, name: string, sharecode: string, sortOrder: int)
    ensures DifficultyFact(p, name, sharecode, sortOrder) in View(t) <==>
            exists d :: d in t.difficulties && d in PathsOf(t) && PathsOf(t)[d] == p
                        && t.difficulties[d].name == name && t.difficulties[d].sharecode == sharecode
                        && t.difficulties[d].sortOrder == sortOrder
  {
    hide View, PathsOf, Cats;
    var f, facts := DifficultyFact(p, name, sharecode, sortOrder), DifficultyFacts(PathsOf(t), t.difficulties);
    KindsApart(t, f);
    if f in facts.Values {
      var d := KeyAt(facts, f);
    }
    if d :| d in t.difficulties && d in PathsOf(t) && PathsOf(t)[d] == p && t.difficulties[d].name == name
            && t.difficulties[d].sharecode == sharecode && t.difficulties[d].sortOrder == sortOrder {
      assert d in facts && facts[d] == f;
    }
  }

  lemma RankInView(t: Tables, id: int, n: int, rank: RankRow)
    requires Valid(t) && id in t.difficulties && id in PathsOf(t)
    ensures RankFact(PathsOf(t)[id], n, rank) in View(t) <==> RankKey(id, n) in t.ranks && t.ranks[RankKey(id, n)] == rank
  {
    hide View, PathsOf, Cats;
    PathsApart(t);
    hide Valid;
    var f, facts := RankFact(PathsOf(t)[id], n, rank), RankFacts(PathsOf(t), t.ranks);
    KindsApart(t, f);
    if f in facts.Values {
      var k := KeyAt(facts, f);
      assert k.difficultyId == id && k == RankKey(id, n);
    }
    if RankKey(id, n) in t.ranks && t.ranks[RankKey(id, n)] == rank {
      assert RankKey(id, n) in facts && facts[RankKey(id, n)] == f;
    }
  }

  lemma CategoryInView(t: Tables, id: int, name: string, color: string, n: int)
    requires Valid(t) && id in t.difficulties && id in PathsOf(t)
    ensures CategoryFact(PathsOf(t)[id], name, color, n) in View(t) <==>
            exists c :: c in t.categories && t.categories[c] == CategoryRow(id, name, color, n)
  {
    hide View, PathsOf, Cats;
    PathsApart(t);
    hide Valid;
    var f, facts := CategoryFact(PathsOf(t)[id], name, color, n), CategoryFacts(PathsOf(t), t.categories);
    KindsApart(t, f);
    if f in facts.Values {
      var c := KeyAt(facts, f);
      assert t.categories[c].difficultyId == id;
    }
    if c :| c in t.categories && t.categories[c] == CategoryRow(id, name, color, n) {
      assert c in facts && facts[c] == f;
    }
  }

  lemma SubcategoryInView(t: Tables, c: int, name: string, count: int, color: string, n: int)
    requires Valid(t) && c in t.categories && t.categories[c].difficultyId in PathsOf(t)
    ensures SubcategoryFact(PathsOf(t)[t.categories[c].difficultyId], t.categories[c].sortOrder, name, count, color, n)
              in View(t) <==>
            exists s :: s in t.subcategories && t.subcategories[s] == SubcategoryRow(c, name, count, color, n)
  {
    hide View, PathsOf;
    CategoriesInPaths(t);
    hide Valid;
    var p, order := PathsOf(t)[t.categories[c].difficultyId], t.categories[c].sortOrder;
    var f, facts := SubcategoryFact(p, order, name, count, color, n), SubcategoryFacts(Cats(t), t.subcategories);
    KindsApart(t, f);
    assert Cats(t)[c] == CategoryPath(p, order);
    hide Cats;
    if f in facts.Values {
      var s := KeyAt(facts, f);
      assert Cats(t)[t.subcategories[s].categoryId] == Cats(t)[c];
      assert t.subcategories[s].categoryId == c;
    }
    if s :| s in t.subcategories && t.subcategories[s] == SubcategoryRow(c, name, count, color, n) {
      assert s in facts && facts[s] == f;
    }
  }

  lemma LinkInView(t: Tables, id: int, scenario: string, link: LinkRow)
    requires Valid(t) && id in t.difficulties && id in PathsOf(t)
    ensures LinkFact(PathsOf(t)[id], scenario, link) in View(t) <==>
            exists s :: LinkKey(id, s) in t.links && s in t.scenarios
                        && t.scenarios[s] == scenario && t.links[LinkKey(id, s)] == link
  {
    hide View, PathsOf, Cats;
    PathsApart(t);
    hide Valid;
    var f, facts := LinkFact(PathsOf(t)[id], scenario, link), LinkFacts(PathsOf(t), t.scenarios, t.links);
    KindsApart(t, f);
    if f in facts.Values {
      var k := KeyAt(facts, f);
      assert k.difficultyId == id && k == LinkKey(id, k.scenarioId);
    }
    if s :| LinkKey(id, s) in t.links && s in t.scenarios && t.scenarios[s] == scenario && t.links[LinkKey(id, s)] == link {
      assert LinkKey(id, s) in facts && facts[LinkKey(id, s)] == f;
    }
  }

  // ---- the tables that mean the image of a tree ----

  /** In an accepted tree no two difficulties have the same benchmark name and id. */
  lemma PathsDiffer(bs: seq<Benchmark>, i: nat, j: nat, k: nat, l: nat)
    requires Accepted(bs) && IsDifficultyOf(bs, i, j) && IsDifficultyOf(bs, k, l)
    requires bs[i].benchmarkName == bs[k].benchmarkName
    requires bs[i].difficulties[j].kovaaksBenchmarkId == bs[k].difficulties[l].kovaaksBenchmarkId
    ensures i == k && j == l
  {
    hide DifficultyOk, Ids;
  }

  /** The rows below a difficulty are those it calls for. */
  lemma BelowIsCalledFor(bs: seq<Benchmark>, ctx: Context, i: nat, j: nat, f: Fact)
    requires Accepted(bs) && IsDifficultyOf(bs, i, j)
    requires !f.BenchmarkFact? && f.path == Path(bs[i].benchmarkName, bs[i].difficulties[j].kovaaksBenchmarkId)
    ensures f in Image(bs, |bs|, ctx) <==> CalledForBy(f, bs[i].difficulties[j], j, ctx)
  {
    hide Image, CalledForBy, Accepted;
    ImageIsCalledFor(bs, ctx, f);
    if CalledFor(f, bs, ctx) {
      var k, l :| 0 <= k < |bs| && 0 <= l < |bs[k].difficulties| && RowAt(f, bs[k], l, ctx);
      PathsDiffer(bs, i, j, k, l);
    }
    if CalledForBy(f, bs[i].difficulties[j], j, ctx) {
      assert RowAt(f, bs[i], j, ctx);
    }
  }

  /** The tables mean the image of the tree, and `id` is the row of a difficulty. */
  ghost predicate Below(t: Tables, bs: seq<Benchmark>, ctx: Context, id: int, i: int, j: int) {
    && Valid(t) && Accepted(bs) && View(t) == Image(bs, |bs|, ctx) && IsDifficultyRow(t, id, bs, i, j)
    && id in PathsOf(t) && PathsOf(t)[id] == Path(bs[i].benchmarkName, bs[i].difficulties[j].kovaaksBenchmarkId)
  }

  lemma RowIsBelow(t: Tables, bs: seq<Benchmark>, ctx: Context, id: int, i: int, j: int)
    requires Valid(t) && Accepted(bs) && View(t) == Image(bs, |bs|, ctx) && IsDifficultyRow(t, id, bs, i, j)
    ensures Below(t, bs, ctx, id, i, j)
  {
    hide View, Image, Accepted;
    PathsApart(t);
    hide Valid;
  }

  lemma DifficultyRow(t: Tables, bs: seq<Benchmark>, ctx: Context, id: int, i: int, j: int)
    requires Below(t, bs, ctx, id, i, j)
    ensures var d := bs[i].difficulties[j];
            && t.difficulties[id].name == d.difficultyName && t.difficulties[id].sharecode == d.sharecode
            && t.difficulties[id].sortOrder == j
  {
    hide View, Image, Accepted, Valid, PathsOf;
    var row := t.difficulties[id];
    DifficultyInView(t, PathsOf(t)[id], row.name, row.sharecode, row.sortOrder);
    BelowIsCalledFor(bs, ctx, i, j, DifficultyFact(PathsOf(t)[id], row.name, row.sharecode, row.sortOrder));
  }

  lemma RankRows(t: Tables, bs: seq<Benchmark>, ctx: Context, id: int, i: int, j: int)
    requires Below(t, bs, ctx, id, i, j)
    ensures RankRowsSay(t.ranks, id, bs[i].difficulties[j].mergedRanks)
  {
    hide View, Image, Accepted, Valid, PathsOf;
    var ranks := bs[i].difficulties[j].mergedRanks;
    forall n ensures RankKey(id, n) in t.ranks <==> 0 <= n < |ranks|
             ensures 0 <= n < |ranks| ==> t.ranks[RankKey(id, n)].name == ranks[n].name
                                          && t.ranks[RankKey(id, n)].color == ranks[n].color
    {
      if RankKey(id, n) in t.ranks {
        RankInView(t, id, n, t.ranks[RankKey(id, n)]);
        BelowIsCalledFor(bs, ctx, i, j, RankFact(PathsOf(t)[id], n, t.ranks[RankKey(id, n)]));
      }
      if 0 <= n < |ranks| {
        var rank := RankRow(ranks[n].name, ranks[n].color);
        RankInView(t, id, n, rank);
        BelowIsCalledFor(bs, ctx, i, j, RankFact(PathsOf(t)[id], n, rank));
      }
    }
  }

  lemma CategoryRows(t: Tables, bs: seq<Benchmark>, ctx: Context, id: int, i: int, j: int)
    requires Below(t, bs, ctx, id, i, j)
    ensures CategoryRowsSay(t.categories, id, bs[i].difficulties[j].categories)
  {
    hide View, Image, Accepted, Valid, PathsOf;
    var cats := bs[i].difficulties[j].categories;
    forall c | c in t.categories && t.categories[c].difficultyId == id
      ensures 0 <= t.categories[c].sortOrder < |cats|
      ensures t.categories[c].name == cats[t.categories[c].sortOrder].categoryName
      ensures t.categories[c].color == cats[t.categories[c].sortOrder].color
    {
      var row := t.categories[c];
      CategoryInView(t, id, row.name, row.color, row.sortOrder);
      assert row == CategoryRow(id, row.name, row.color, row.sortOrder);
      BelowIsCalledFor(bs, ctx, i, j, CategoryFact(PathsOf(t)[id], row.name, row.color, row.sortOrder));
    }
    forall k | 0 <= k < |cats| ensures HasCategory(t.categories, id, k) {
      CategoryInView(t, id, cats[k].categoryName, cats[k].color, k);
      BelowIsCalledFor(bs, ctx, i, j, CategoryFact(PathsOf(t)[id], cats[k].categoryName, cats[k].color, k));
    }
  }

  lemma SubcategoryRows(t: Tables, bs: seq<Benchmark>, ctx: Context, id: int, i: int, j: int, c: int)
    requires Below(t, bs, ctx, id, i, j) && c in t.categories && t.categories[c].difficultyId == id
    requires 0 <= t.categories[c].sortOrder < |bs[i].difficulties[j].categories|
    ensures SubcategoryRowsSay(t.subcategories, c, bs[i].difficulties[j].categories[t.categories[c].sortOrder].subcategories)
  {
    hide View, Image, Accepted, Valid, PathsOf;
    var k := t.categories[c].sortOrder;
    var subs := bs[i].difficulties[j].categories[k].subcategories;
    forall s | s in t.subcategories && t.subcategories[s].categoryId == c
      ensures 0 <= t.subcategories[s].sortOrder < |subs|
      ensures t.subcategories[s].name == subs[t.subcategories[s].sortOrder].subcategoryName
      ensures t.subcategories[s].color == subs[t.subcategories[s].sortOrder].color
      ensures t.subcategories[s].scenarioCount == subs[t.subcategories[s].sortOrder].scenarioCount
    {
      var row := t.subcategories[s];
      SubcategoryInView(t, c, row.name, row.scenarioCount, row.color, row.sortOrder);
      assert row == SubcategoryRow(c, row.name, row.scenarioCount, row.color, row.sortOrder);
      BelowIsCalledFor(bs, ctx, i, j, SubcategoryFact(PathsOf(t)[id], k, row.name, row.scenarioCount, row.color, row.sortOrder));
    }
    forall m | 0 <= m < |subs| ensures HasSubcategory(t.subcategories, c, m) {
      var sub := subs[m];
      SubcategoryInView(t, c, sub.subcategoryName, sub.scenarioCount, sub.color, m);
      BelowIsCalledFor(bs, ctx, i, j, SubcategoryFact(PathsOf(t)[id], k, sub.subcategoryName, sub.scenarioCount, sub.color, m));
    }
  }

  lemma LinkRows(t: Tables, bs: seq<Benchmark>, ctx: Context, id: int, i: int, j: int)
    requires Below(t, bs, ctx, id, i, j)
    ensures LinkRowsSay(t, id, bs[i].difficulties[j].mergedScenarios, ctx.lower)
  {
    hide View, Image, Accepted, PathsOf, SaysLink, Represents, UniqueBenchmarks, UniqueScenarios, UniqueDifficulties;
    hide UniqueCategories, UniqueSubcategories;
    var ms := bs[i].difficulties[j].mergedScenarios;
    forall s | LinkKey(id, s) in t.links ensures LinkedAsSome(t, id, s, ms, ctx.lower) {
      var scenario, link := t.scenarios[s], t.links[LinkKey(id, s)];
      LinkInView(t, id, scenario, link);
      BelowIsCalledFor(bs, ctx, i, j, LinkFact(PathsOf(t)[id], scenario, link));
      var k :| SaysLink(scenario, link, ms, ctx.lower, k);
      assert LinkedAs(t, id, s, ms, ctx.lower, k);
    }
    forall k | Represents(ms, ctx.lower, k) ensures HasLinkRow(t, id, ms, ctx.lower, k) {
      var scenario, link := LinkOfEntry(ms, ctx.lower, k);
      LinkInView(t, id, scenario, link);
      BelowIsCalledFor(bs, ctx, i, j, LinkFact(PathsOf(t)[id], scenario, link));
      var s :| LinkKey(id, s) in t.links && s in t.scenarios && t.scenarios[s] == scenario && t.links[LinkKey(id, s)] == link;
      assert LinkedAs(t, id, s, ms, ctx.lower, k);
    }
  }

  lemma LinkOfEntry(ms: seq<MergedScenario>, lower: string -> string, i: int) returns (scenario: string, link: LinkRow)
    requires Represents(ms, lower, i)
    ensures SaysLink(scenario, link, ms, lower, i)
  {
    scenario := Trim(ms[i].name);
    link := LinkRow(Trim(ms[i].categoryName), Trim(ms[i].subcategoryName), ms[i].rankThresholds,
                    |RepresentsBefore(ms, lower, i)|);
  }

  lemma DifficultySaysAll(t: Tables, bs: seq<Benchmark>, ctx: Context, id: int, i: int, j: int)
    requires Below(t, bs, ctx, id, i, j)
    ensures DifficultySays(t, id, bs[i].difficulties[j], j, ctx)
  {
    hide Valid, Accepted, View, Image, PathsOf, RankRowsSay, CategoryRowsSay, LinkRowsSay, SubcategoryRowsSay;
    DifficultyRow(t, bs, ctx, id, i, j);
    RankRows(t, bs, ctx, id, i, j);
    CategoryRows(t, bs, ctx, id, i, j);
    LinkRows(t, bs, ctx, id, i, j);
    var d := bs[i].difficulties[j];
    forall c | c in t.categories && t.categories[c].difficultyId == id && 0 <= t.categories[c].sortOrder < |d.categories|
      ensures SubcategoryRowsSay(t.subcategories, c, d.categories[t.categories[c].sortOrder].subcategories)
    {
      SubcategoryRows(t, bs, ctx, id, i, j, c);
    }
  }

  lemma BenchmarkRowsOf(t: Tables, bs: seq<Benchmark>, ctx: Context)
    requires View(t) == Image(bs, |bs|, ctx)
    ensures BenchmarkRowsSay(t.benchmarks, bs, ctx)
  {
    hide View, Image, SaysBenchmark;
    forall b | b in t.benchmarks ensures SomeBenchmark(t.benchmarks[b], bs, ctx) {
      BenchmarkInView(t, t.benchmarks[b]);
      ImageIsCalledFor(bs, ctx, BenchmarkFact(t.benchmarks[b]));
    }
    forall i | 0 <= i < |bs| ensures HasBenchmark(t.benchmarks, bs[i], ctx) {
      var row := RowOf(bs[i], ctx);
      RowSaysBenchmark(row, bs[i], ctx);
      ImageIsCalledFor(bs, ctx, BenchmarkFact(row));
      BenchmarkInView(t, row);
    }
  }

  lemma DifficultyIsSome(t: Tables, bs: seq<Benchmark>, ctx: Context, id: int)
    requires Valid(t) && View(t) == Image(bs, |bs|, ctx) && id in t.difficulties
    ensures SomeDifficulty(t, id, bs)
  {
    hide View, Image, CalledForBy, UniqueBenchmarks, UniqueScenarios, UniqueDifficulties, UniqueCategories, UniqueSubcategories;
    var row := t.difficulties[id];
    PathsApart(t);
    var f := DifficultyFact(PathsOf(t)[id], row.name, row.sharecode, row.sortOrder);
    DifficultyInView(t, f.path, row.name, row.sharecode, row.sortOrder);
    ImageIsCalledFor(bs, ctx, f);
    var i, j :| 0 <= i < |bs| && 0 <= j < |bs[i].difficulties| && RowAt(f, bs[i], j, ctx);
    assert IsDifficultyRow(t, id, bs, i, j);
  }

  lemma DifficultyIsThere(t: Tables, bs: seq<Benchmark>, ctx: Context, i: int, j: int)
    requires View(t) == Image(bs, |bs|, ctx) && IsDifficultyOf(bs, i, j)
    ensures HasDifficulty(t, bs, i, j)
  {
    hide View, Image;
    var d := bs[i].difficulties[j];
    var f := DifficultyFact(Path(bs[i].benchmarkName, d.kovaaksBenchmarkId), d.difficultyName, d.sharecode, j);
    ImageIsCalledFor(bs, ctx, f);
    assert RowAt(f, bs[i], j, ctx);
    DifficultyInView(t, f.path, d.difficultyName, d.sharecode, j);
    var id :| id in t.difficulties && id in PathsOf(t) && PathsOf(t)[id] == f.path;
    assert IsDifficultyRow(t, id, bs, i, j);
  }

  /** Valid tables that mean the image of an accepted tree hold its rows. */
  lemma TablesSayTree(t: Tables, bs: seq<Benchmark>, ctx: Context)
    requires Valid(t) && Accepted(bs) && View(t) == Image(bs, |bs|, ctx)
    ensures TablesSay(t, bs, ctx)
  {
    hide Valid, Accepted, View, Image, BenchmarkRowsSay, SomeDifficulty, HasDifficulty, DifficultySays, Below;
    BenchmarkRowsOf(t, bs, ctx);
    forall id | id in t.difficulties ensures SomeDifficulty(t, id, bs) {
      DifficultyIsSome(t, bs, ctx, id);
    }
    forall i, j | IsDifficultyOf(bs, i, j) ensures HasDifficulty(t, bs, i, j) {
      DifficultyIsThere(t, bs, ctx, i, j);
    }
    forall id, i, j | IsDifficultyRow(t, id, bs, i, j) ensures DifficultySays(t, id, bs[i].difficulties[j], j, ctx) {
      RowIsBelow(t, bs, ctx, id, i, j);
      DifficultySaysAll(t, bs, ctx, id, i, j);
    }
  }

  // ---- scenarios ----

  /** Some difficulty of the tree has a link to a scenario of this name. */
  ghost predicate NamesScenario(bs: seq<Benchmark>, ctx: Context, name: string) {
    exists i, j, k :: LinksTo(bs, ctx, i, j, k, name)
  }

  ghost predicate LinksTo(bs: seq<Benchmark>, ctx: Context, i: int, j: int, k: int, name: string) {
    && IsDifficultyOf(bs, i, j) && Represents(bs[i].difficulties[j].mergedScenarios, ctx.lower, k)
    && name == Trim(bs[i].difficulties[j].mergedScenarios[k].name)
  }

  /** Scenarios keep their ids and names, and those added are the ones that the tree links to. */
  ghost predicate ScenariosSay(was: map<int, string>, now: map<int, string>, bs: seq<Benchmark>, ctx: Context) {
    && (forall s :: s in was ==> s in now && now[s] == was[s])
    && (forall name :: name in now.Values <==> name in was.Values || NamesScenario(bs, ctx, name))
  }

  lemma LinkOfFact(bs: seq<Benchmark>, ctx: Context, f: Fact)
    requires f in Image(bs, |bs|, ctx) && f.LinkFact?
    ensures NamesScenario(bs, ctx, f.scenario)
  {
    hide Image, SaysLink, Represents;
    ImageIsCalledFor(bs, ctx, f);
    var i, j :| 0 <= i < |bs| && 0 <= j < |bs[i].difficulties| && RowAt(f, bs[i], j, ctx);
    var k :| SaysLink(f.scenario, f.link, bs[i].difficulties[j].mergedScenarios, ctx.lower, k);
    LinkNamesEntry(f.scenario, f.link, bs[i].difficulties[j].mergedScenarios, ctx.lower, k);
    assert LinksTo(bs, ctx, i, j, k, f.scenario);
  }

  lemma LinkNamesEntry(scenario: string, link: LinkRow, ms: seq<MergedScenario>, lower: string -> string, i: int)
    requires SaysLink(scenario, link, ms, lower, i)
    ensures Represents(ms, lower, i) && 0 <= i < |ms| && scenario == Trim(ms[i].name)
  {
  }

  lemma FactOfLink(bs: seq<Benchmark>, ctx: Context, i: int, j: int, k: int, name: string)
    requires LinksTo(bs, ctx, i, j, k, name)
    ensures name in LinkNames(Image(bs, |bs|, ctx))
  {
    hide Image, SaysLink;
    var d := bs[i].difficulties[j];
    var scenario, link := LinkOfEntry(d.mergedScenarios, ctx.lower, k);
    LinkNamesEntry(scenario, link, d.mergedScenarios, ctx.lower, k);
    hide Represents;
    var f := LinkFact(Path(bs[i].benchmarkName, d.kovaaksBenchmarkId), scenario, link);
    ImageIsCalledFor(bs, ctx, f);
    assert RowAt(f, bs[i], j, ctx);
  }

  lemma LinkNamesMean(bs: seq<Benchmark>, ctx: Context, name: string)
    ensures name in LinkNames(Image(bs, |bs|, ctx)) <==> NamesScenario(bs, ctx, name)
  {
    hide Image, LinksTo;
    if f :| f in Image(bs, |bs|, ctx) && f.LinkFact? && f.scenario == name {
      LinkOfFact(bs, ctx, f);
    }
    if i, j, k :| LinksTo(bs, ctx, i, j, k, name) {
      FactOfLink(bs, ctx, i, j, k, name);
    }
  }

  lemma ScenariosSayTree(was: map<int, string>, now: map<int, string>, bs: seq<Benchmark>, ctx: Context)
    requires ScenariosGrow(was, now, LinkNames(Image(bs, |bs|, ctx)))
    ensures ScenariosSay(was, now, bs, ctx)
  {
    hide Image, NamesScenario, LinkNames;
    forall name ensures name in LinkNames(Image(bs, |bs|, ctx)) <==> NamesScenario(bs, ctx, name) {
      LinkNamesMean(bs, ctx, name);
    }
  }

  // ---- when a tree can be written ----

  /** There is no date, or it can be read. */
  ghost predicate DateReads(b: Benchmark, ctx: Context) {
    Trim(b.dateAdded) != "" ==> ctx.timeParse(Trim(b.dateAdded)).Some?
  }

  /** Every scenario count fits a 32-bit column. */
  ghost predicate CountsInRange(d: Difficulty) {
    forall k, m :: 0 <= k < |d.categories| && 0 <= m < |d.categories[k].subcategories| ==>
      -0x8000_0000 <= d.categories[k].subcategories[m].scenarioCount <= 0x7fff_ffff
  }

  /** The id is that of an old row which belongs to a benchmark listed behind the i-th. */
  ghost predicate StillHeld(t: Tables, bs: seq<Benchmark>, i: int, kovaaksId: int) {
    exists d, k :: HeldBy(t, bs, d, k, kovaaksId) && k > i
  }

  ghost predicate HeldBy(t: Tables, bs: seq<Benchmark>, d: int, k: int, kovaaksId: int) {
    && d in t.difficulties && t.difficulties[d].kovaaksId == kovaaksId && t.difficulties[d].benchmarkId in t.benchmarks
    && 0 <= k < |bs| && t.benchmarks[t.difficulties[d].benchmarkId].name == bs[k].benchmarkName
  }

  /** Benchmark `i` can be written once those before it are. */
  ghost predicate CanBeWrittenAt(t: Tables, bs: seq<Benchmark>, ctx: Context, i: int)
    requires 0 <= i < |bs|
  {
    && DateReads(bs[i], ctx) && DistinctNames(bs[i].difficulties)
    && forall j :: 0 <= j < |bs[i].difficulties| ==>
         CountsInRange(bs[i].difficulties[j]) && !StillHeld(t, bs, i, bs[i].difficulties[j].kovaaksBenchmarkId)
  }

  /** A tree can be written over these tables. */
  ghost predicate CanBeWritten(t: Tables, bs: seq<Benchmark>, ctx: Context) {
    forall i :: 0 <= i < |bs| ==> CanBeWrittenAt(t, bs, ctx, i)
  }

  /** Benchmark `i` is the first that cannot be written, and has a date that cannot be read. */
  ghost predicate RejectsDate(t: Tables, bs: seq<Benchmark>, ctx: Context) {
    exists i :: 0 <= i < |bs| && !DateReads(bs[i], ctx) && forall k :: 0 <= k < i ==> CanBeWrittenAt(t, bs, ctx, k)
  }

  lemma DateReadsMeans(b: Benchmark, ctx: Context)
    ensures ParseDate(b.dateAdded, ctx).Ok? <==> DateReads(b, ctx)
  {
    hide Trim;
  }

  lemma ListedLater(bs: seq<Benchmark>, i: nat, name: string)
    requires i < |bs|
    ensures name in Names(bs[i + 1..]) <==> exists k :: i < k < |bs| && bs[k].benchmarkName == name
  {
    var later := bs[i + 1..];
    if k :| 0 <= k < |later| && later[k].benchmarkName == name {
      assert bs[i + 1 + k].benchmarkName == name;
    }
    if k :| i < k < |bs| && bs[k].benchmarkName == name {
      assert later[k - (i + 1)].benchmarkName == name;
    }
  }

  lemma HeldMeans(t: Tables, bs: seq<Benchmark>, i: nat, id: int)
    requires i < |bs|
    ensures HoldsId(Left(View(t), bs, i + 1), id) <==> StillHeld(t, bs, i, id)
  {
    hide View, Names;
    if f :| f in Left(View(t), bs, i + 1) && f.DifficultyFact? && f.path.kovaaksId == id {
      DifficultyInView(t, f.path, f.name, f.sharecode, f.sortOrder);
      var d :| d in t.difficulties && d in PathsOf(t) && PathsOf(t)[d] == f.path;
      ListedLater(bs, i, f.path.bench);
      var k :| i < k < |bs| && bs[k].benchmarkName == f.path.bench;
      assert HeldBy(t, bs, d, k, id);
    }
    if d, k :| HeldBy(t, bs, d, k, id) && k > i {
      var row, p := t.difficulties[d], PathsOf(t)[d];
      DifficultyInView(t, p, row.name, row.sharecode, row.sortOrder);
      ListedLater(bs, i, p.bench);
      assert DifficultyFact(p, row.name, row.sharecode, row.sortOrder) in Left(View(t), bs, i + 1);
    }
  }

  lemma WritableMeans(t: Tables, bs: seq<Benchmark>, ctx: Context, i: nat)
    requires i < |bs|
    ensures Writable(Left(View(t), bs, i + 1), bs[i], ctx) <==> CanBeWrittenAt(t, bs, ctx, i)
  {
    hide View, HoldsId, StillHeld, Left, ParseDate, DateReads;
    DateReadsMeans(bs[i], ctx);
    forall j | 0 <= j < |bs[i].difficulties|
      ensures HoldsId(Left(View(t), bs, i + 1), bs[i].difficulties[j].kovaaksBenchmarkId) <==>
              StillHeld(t, bs, i, bs[i].difficulties[j].kovaaksBenchmarkId)
      ensures CountsFit(bs[i].difficulties[j].categories) <==> CountsInRange(bs[i].difficulties[j])
    {
      HeldMeans(t, bs, i, bs[i].difficulties[j].kovaaksBenchmarkId);
    }
    hide CountsFit, CountsInRange;
  }

  /** When a sync can be done, and when it fails for a date. */
  lemma CanSyncMeans(t: Tables, bs: seq<Benchmark>, ctx: Context)
    ensures CanSync(View(t), bs, ctx) <==> CanBeWritten(t, bs, ctx)
    ensures StopsAtDate(View(t), bs, ctx) <==> RejectsDate(t, bs, ctx)
  {
    hide View, Left, ParseDate, DateReads, Writable, CanBeWrittenAt;
    forall i | 0 <= i < |bs|
      ensures Writable(Left(View(t), bs, i + 1), bs[i], ctx) <==> CanBeWrittenAt(t, bs, ctx, i)
      ensures ParseDate(bs[i].dateAdded, ctx).Ok? <==> DateReads(bs[i], ctx)
    {
      WritableMeans(t, bs, ctx, i);
      DateReadsMeans(bs[i], ctx);
    }
    if StopsAtDate(View(t), bs, ctx) {
      var i :| 0 <= i < |bs| && DateStops(View(t), bs, ctx, i);
      assert !DateReads(bs[i], ctx);
    }
    if RejectsDate(t, bs, ctx) {
      var i :| 0 <= i < |bs| && !DateReads(bs[i], ctx) && forall k :: 0 <= k < i ==> CanBeWrittenAt(t, bs, ctx, k);
      assert DateStops(View(t), bs, ctx, i);
    }
  }
}
