/** What it means that a view leaves only the generated ids open: valid table states with equal views are the same up to a
    renaming of ids. */
module ViewRenaming {
  import opened Common
  import opened Tables
  import opened SyncRun

  // ---- distinct rows have distinct facts ----

  ghost predicate Injective<K(!new), V>(f: map<K, V>) {
    forall a, b :: a in f && b in f && f[a] == f[b] ==> a == b
  }

  lemma BenchmarksApart(t: Tables)
    requires Valid(t)
    ensures Injective(BenchmarkFacts(t.benchmarks))
  {
    hide UniqueScenarios, UniqueDifficulties, UniqueCategories, UniqueSubcategories, ForeignKeys;
    var bm, f := t.benchmarks, BenchmarkFacts(t.benchmarks);
    forall a, b | a in f && b in f && f[a] == f[b] ensures a == b {
      assert bm[a] == bm[b];
    }
  }

  /** A path belongs to one difficulty, and every difficulty has one. */
  lemma PathsApart(t: Tables)
    requires Valid(t)
    ensures Injective(PathsOf(t)) && PathsOf(t).Keys == t.difficulties.Keys
  {
    hide UniqueBenchmarks, UniqueScenarios, UniqueCategories, UniqueSubcategories;
    var ps, dm := PathsOf(t), t.difficulties;
    forall d ensures d in ps <==> d in dm {
    }
    forall a, b | a in ps && b in ps && ps[a] == ps[b] ensures a == b {
      assert dm[a].kovaaksId == dm[b].kovaaksId;
    }
  }

  lemma DifficultiesApart(ps: map<int, Path>, dm: map<int, DifficultyRow>)
    requires Injective(ps)
    ensures Injective(DifficultyFacts(ps, dm))
  {
  }

  lemma RanksApart(ps: map<int, Path>, rm: map<RankKey, RankRow>)
    requires Injective(ps)
    ensures Injective(RankFacts(ps, rm))
  {
  }

  lemma CategoryPathsApart(ps: map<int, Path>, cm: map<int, CategoryRow>)
    requires Injective(ps) && UniqueCategories(cm)
    ensures Injective(CategoryPaths(ps, cm)) && Injective(CategoryFacts(ps, cm))
  {
  }

  lemma SubcategoriesApart(cs: map<int, CategoryPath>, sm: map<int, SubcategoryRow>)
    requires Injective(cs) && UniqueSubcategories(sm)
    ensures Injective(SubcategoryFacts(cs, sm))
  {
  }

  lemma LinksApart(ps: map<int, Path>, scm: map<int, string>, lm: map<LinkKey, LinkRow>)
    requires Injective(ps) && UniqueScenarios(scm)
    ensures Injective(LinkFacts(ps, scm, lm))
  {
  }

  // ---- the same facts, table by table ----

  ghost function Cats(t: Tables): map<int, CategoryPath> {
    CategoryPaths(PathsOf(t), t.categories)
  }

  ghost predicate SameTables(t: Tables, r: Tables) {
    && BenchmarkFacts(t.benchmarks).Values == BenchmarkFacts(r.benchmarks).Values
    && DifficultyFacts(PathsOf(t), t.difficulties).Values == DifficultyFacts(PathsOf(r), r.difficulties).Values
    && RankFacts(PathsOf(t), t.ranks).Values == RankFacts(PathsOf(r), r.ranks).Values
    && CategoryFacts(PathsOf(t), t.categories).Values == CategoryFacts(PathsOf(r), r.categories).Values
    && SubcategoryFacts(Cats(t), t.subcategories).Values == SubcategoryFacts(Cats(r), r.subcategories).Values
    && LinkFacts(PathsOf(t), t.scenarios, t.links).Values == LinkFacts(PathsOf(r), r.scenarios, r.links).Values
  }

  lemma KindsApart(t: Tables, f: Fact)
    ensures f in View(t) <==>
            || (f.BenchmarkFact? && f in BenchmarkFacts(t.benchmarks).Values)
            || (f.DifficultyFact? && f in DifficultyFacts(PathsOf(t), t.difficulties).Values)
            || (f.RankFact? && f in RankFacts(PathsOf(t), t.ranks).Values)
            || (f.CategoryFact? && f in CategoryFacts(PathsOf(t), t.categories).Values)
            || (f.SubcategoryFact? && f in SubcategoryFacts(Cats(t), t.subcategories).Values)
            || (f.LinkFact? && f in LinkFacts(PathsOf(t), t.scenarios, t.links).Values)
  {
    hide PathsOf, CategoryPaths, BenchmarkFacts, DifficultyFacts, RankFacts, CategoryFacts, SubcategoryFacts, LinkFacts;
    OtherFacts(PathsOf(t), Cats(t), t, f);
    if f in BenchmarkFacts(t.benchmarks).Values {
      OnlyBenchmarkFacts(t.benchmarks, f);
    }
  }

  lemma OnlyKinds(t: Tables, f: Fact)
    ensures f in BenchmarkFacts(t.benchmarks).Values ==> f.BenchmarkFact?
    ensures f in DifficultyFacts(PathsOf(t), t.difficulties).Values ==> f.DifficultyFact?
    ensures f in RankFacts(PathsOf(t), t.ranks).Values ==> f.RankFact?
    ensures f in CategoryFacts(PathsOf(t), t.categories).Values ==> f.CategoryFact?
    ensures f in SubcategoryFacts(Cats(t), t.subcategories).Values ==> f.SubcategoryFact?
    ensures f in LinkFacts(PathsOf(t), t.scenarios, t.links).Values ==> f.LinkFact?
  {
    hide PathsOf, CategoryPaths, BenchmarkFacts, DifficultyFacts, RankFacts, CategoryFacts, SubcategoryFacts, LinkFacts;
    OtherFacts(PathsOf(t), Cats(t), t, f);
    if f in BenchmarkFacts(t.benchmarks).Values {
      OnlyBenchmarkFacts(t.benchmarks, f);
    }
  }

  /** Every row of a view belongs to a benchmark of the table. */
  lemma OwnerListed(t: Tables, f: Fact)
    requires f in View(t)
    ensures exists b :: b in t.benchmarks && t.benchmarks[b].name == f.Owner()
  {
    hide View;
    KindsApart(t, f);
    var ps := PathsOf(t);
    match f
    case BenchmarkFact(_) => var b := KeyAt(BenchmarkFacts(t.benchmarks), f);
    case DifficultyFact(_, _, _, _) => var d := KeyAt(DifficultyFacts(ps, t.difficulties), f);
      PathListed(t, d);
    case RankFact(_, _, _) => var k := KeyAt(RankFacts(ps, t.ranks), f);
      PathListed(t, k.difficultyId);
    case CategoryFact(_, _, _, _) => var c := KeyAt(CategoryFacts(ps, t.categories), f);
      PathListed(t, t.categories[c].difficultyId);
    case SubcategoryFact(_, _, _, _, _, _) => var s := KeyAt(SubcategoryFacts(Cats(t), t.subcategories), f);
      PathListed(t, t.categories[t.subcategories[s].categoryId].difficultyId);
    case LinkFact(_, _, _) => var k := KeyAt(LinkFacts(ps, t.scenarios, t.links), f);
      PathListed(t, k.difficultyId);
  }

  lemma PathListed(t: Tables, d: int)
    requires d in PathsOf(t)
    ensures exists b :: b in t.benchmarks && t.benchmarks[b].name == PathsOf(t)[d].bench
  {
    assert t.difficulties[d].benchmarkId in t.benchmarks;
  }

  lemma NoBenchmarksNoRows(t: Tables)
    requires t.benchmarks == map[]
    ensures View(t) == {}
  {
    hide View;
    if f :| f in View(t) {
      OwnerListed(t, f);
      assert false;
    }
  }

  lemma EqualViewsEqualTables(t: Tables, r: Tables)
    requires View(t) == View(r)
    ensures SameTables(t, r)
  {
    hide View, PathsOf, Cats, BenchmarkFacts, DifficultyFacts, RankFacts, CategoryFacts, SubcategoryFacts, LinkFacts;
    forall f: Fact
      ensures f in BenchmarkFacts(t.benchmarks).Values <==> f in BenchmarkFacts(r.benchmarks).Values
      ensures f in DifficultyFacts(PathsOf(t), t.difficulties).Values <==> f in DifficultyFacts(PathsOf(r), r.difficulties).Values
      ensures f in RankFacts(PathsOf(t), t.ranks).Values <==> f in RankFacts(PathsOf(r), r.ranks).Values
      ensures f in CategoryFacts(PathsOf(t), t.categories).Values <==> f in CategoryFacts(PathsOf(r), r.categories).Values
      ensures f in SubcategoryFacts(Cats(t), t.subcategories).Values <==> f in SubcategoryFacts(Cats(r), r.subcategories).Values
      ensures f in LinkFacts(PathsOf(t), t.scenarios, t.links).Values <==> f in LinkFacts(PathsOf(r), r.scenarios, r.links).Values
    {
      KindsApart(t, f);
      KindsApart(r, f);
      OnlyKinds(t, f);
      OnlyKinds(r, f);
    }
  }

  // ---- the renaming ----

  /** The key at which `g` has what `f` has at `k`. */
  ghost function Match<K(!new), V>(f: map<K, V>, g: map<K, V>): map<K, K>
    requires f.Values <= g.Values
  {
    map k | k in f :: KeyAt(g, f[k])
  }

  ghost predicate Bijection<K(!new)>(m: map<K, K>, dom: set<K>, ran: set<K>) {
    m.Keys == dom && m.Values == ran && Injective(m)
  }

  lemma MatchIsBijection<K(!new), V>(f: map<K, V>, g: map<K, V>)
    requires f.Values == g.Values && Injective(f) && Injective(g)
    ensures Bijection(Match(f, g), f.Keys, g.Keys)
    ensures forall k :: k in f ==> Match(f, g)[k] in g && g[Match(f, g)[k]] == f[k]
  {
    var m := Match(f, g);
    forall k | k in f ensures f[k] in g.Values {
    }
    forall j | j in g ensures j in m.Values {
      assert g[j] in f.Values;
      var k := KeyAt(f, g[j]);
      assert m[k] == j;
    }
  }

  /** The four renamings of generated ids under which two table states are the same. */
  ghost predicate Renames(t: Tables, r: Tables, bs: map<int, int>, ds: map<int, int>, cs: map<int, int>, ss: map<int, int>) {
    && RenamesBenchmarks(t, r, bs) && RenamesDifficulties(t, r, bs, ds) && RenamesRanks(t, r, ds)
    && RenamesCategories(t, r, ds, cs) && RenamesSubcategories(t, r, cs, ss) && RenamesLinks(t, r, ds)
  }

  ghost predicate RenamesBenchmarks(t: Tables, r: Tables, bs: map<int, int>) {
    && Bijection(bs, t.benchmarks.Keys, r.benchmarks.Keys)
    && forall b :: b in t.benchmarks ==> bs[b] in r.benchmarks && r.benchmarks[bs[b]] == t.benchmarks[b]
  }

  ghost predicate RenamesDifficulties(t: Tables, r: Tables, bs: map<int, int>, ds: map<int, int>) {
    && Bijection(ds, t.difficulties.Keys, r.difficulties.Keys)
    && forall d :: d in t.difficulties ==>
         && t.difficulties[d].benchmarkId in bs && ds[d] in r.difficulties
         && r.difficulties[ds[d]] == t.difficulties[d].(benchmarkId := bs[t.difficulties[d].benchmarkId])
  }

  ghost predicate RenamesRanks(t: Tables, r: Tables, ds: map<int, int>) {
    forall d, o :: d in ds ==>
      && (RankKey(d, o) in t.ranks <==> RankKey(ds[d], o) in r.ranks)
      && (RankKey(d, o) in t.ranks ==> r.ranks[RankKey(ds[d], o)] == t.ranks[RankKey(d, o)])
  }

  ghost predicate RenamesCategories(t: Tables, r: Tables, ds: map<int, int>, cs: map<int, int>) {
    && Bijection(cs, t.categories.Keys, r.categories.Keys)
    && forall c :: c in t.categories ==>
         && t.categories[c].difficultyId in ds && cs[c] in r.categories
         && r.categories[cs[c]] == t.categories[c].(difficultyId := ds[t.categories[c].difficultyId])
  }

  ghost predicate RenamesSubcategories(t: Tables, r: Tables, cs: map<int, int>, ss: map<int, int>) {
    && Bijection(ss, t.subcategories.Keys, r.subcategories.Keys)
    && forall s :: s in t.subcategories ==>
         && t.subcategories[s].categoryId in cs && ss[s] in r.subcategories
         && r.subcategories[ss[s]] == t.subcategories[s].(categoryId := cs[t.subcategories[s].categoryId])
  }

  /** A link leads to the scenario of the same name on both sides, and both sides have every scenario that the other one
      links to. */
  ghost predicate RenamesLinks(t: Tables, r: Tables, ds: map<int, int>) {
    && (forall d, s, s' :: d in ds && s in t.scenarios && s' in r.scenarios && t.scenarios[s] == r.scenarios[s'] ==>
          && (LinkKey(d, s) in t.links <==> LinkKey(ds[d], s') in r.links)
          && (LinkKey(d, s) in t.links ==> r.links[LinkKey(ds[d], s')] == t.links[LinkKey(d, s)]))
    && LinksLandIn(t, r) && LinksLandIn(r, t)
  }

  /** Every scenario that `t` links to has its namesake in `r`. */
  ghost predicate LinksLandIn(t: Tables, r: Tables) {
    forall k :: k in t.links && k.scenarioId in t.scenarios ==> t.scenarios[k.scenarioId] in r.scenarios.Values
  }

  lemma BenchmarksRenamed(t: Tables, r: Tables) returns (bs: map<int, int>)
    requires Valid(t) && Valid(r) && SameTables(t, r)
    ensures RenamesBenchmarks(t, r, bs)
  {
    hide Valid, SameTables, Injective, Bijection, Match;
    BenchmarksApart(t);
    BenchmarksApart(r);
    var f, g := BenchmarkFacts(t.benchmarks), BenchmarkFacts(r.benchmarks);
    assert f.Values == g.Values by { BenchmarksSame(t, r); }
    MatchIsBijection(f, g);
    bs := Match(f, g);
    assert f.Keys == t.benchmarks.Keys && g.Keys == r.benchmarks.Keys;
    forall b | b in t.benchmarks ensures bs[b] in r.benchmarks && r.benchmarks[bs[b]] == t.benchmarks[b] {
      assert b in f;
    }
  }

  lemma BenchmarksSame(t: Tables, r: Tables)
    requires SameTables(t, r)
    ensures BenchmarkFacts(t.benchmarks).Values == BenchmarkFacts(r.benchmarks).Values
  {
  }

  /** A difficulty keeps its path under the renaming. */
  ghost predicate PathsCarried(ps: map<int, Path>, qs: map<int, Path>, ds: map<int, int>) {
    Injective(qs) && forall d :: d in ds ==> d in ps && ds[d] in qs && qs[ds[d]] == ps[d]
  }

  lemma BenchmarkOf(t: Tables, r: Tables, bs: map<int, int>, d: int, e: int)
    requires Valid(t) && Valid(r) && RenamesBenchmarks(t, r, bs)
    requires d in t.difficulties && e in r.difficulties && d in PathsOf(t) && e in PathsOf(r) && PathsOf(t)[d] == PathsOf(r)[e]
    ensures t.difficulties[d].benchmarkId in bs && r.difficulties[e].benchmarkId == bs[t.difficulties[d].benchmarkId]
    ensures r.difficulties[e].kovaaksId == t.difficulties[d].kovaaksId
  {
    hide UniqueScenarios, UniqueDifficulties, UniqueCategories, UniqueSubcategories, Injective;
  }

  lemma DifficultiesRenamed(t: Tables, r: Tables, bs: map<int, int>) returns (ds: map<int, int>)
    requires Valid(t) && Valid(r) && SameTables(t, r) && RenamesBenchmarks(t, r, bs)
    ensures RenamesDifficulties(t, r, bs, ds) && PathsCarried(PathsOf(t), PathsOf(r), ds)
  {
    hide Valid, SameTables, Injective, Bijection, Match, RenamesBenchmarks, PathsOf;
    PathsApart(t);
    PathsApart(r);
    var ps, qs := PathsOf(t), PathsOf(r);
    var f, g := DifficultyFacts(ps, t.difficulties), DifficultyFacts(qs, r.difficulties);
    DifficultiesApart(ps, t.difficulties);
    DifficultiesApart(qs, r.difficulties);
    assert f.Values == g.Values by { DifficultiesSame(t, r); }
    MatchIsBijection(f, g);
    ds := Match(f, g);
    BijectionKeys(ds, f.Keys, g.Keys);
    forall d ensures d in f.Keys <==> d in t.difficulties.Keys {
    }
    forall d ensures d in g.Keys <==> d in r.difficulties.Keys {
    }
    SameSet(f.Keys, t.difficulties.Keys);
    SameSet(g.Keys, r.difficulties.Keys);
    forall d | d in t.difficulties
      ensures ds[d] in r.difficulties && qs[ds[d]] == ps[d] && t.difficulties[d].benchmarkId in bs
      ensures r.difficulties[ds[d]] == t.difficulties[d].(benchmarkId := bs[t.difficulties[d].benchmarkId])
    {
      assert d in f && g[ds[d]] == f[d];
      BenchmarkOf(t, r, bs, d, ds[d]);
    }
  }

  lemma BijectionKeys<K(!new)>(m: map<K, K>, dom: set<K>, ran: set<K>)
    requires Bijection(m, dom, ran)
    ensures m.Keys == dom && forall k :: k in m ==> m[k] in ran
  {
    forall k | k in m ensures m[k] in ran {
      assert m[k] in m.Values;
    }
  }

  lemma DifficultiesSame(t: Tables, r: Tables)
    requires SameTables(t, r)
    ensures DifficultyFacts(PathsOf(t), t.difficulties).Values == DifficultyFacts(PathsOf(r), r.difficulties).Values
  {
  }

  /** Every rank of `rm` is there in `rn`, under the renamed difficulty. */
  lemma RanksInto(ps: map<int, Path>, qs: map<int, Path>, ds: map<int, int>, rm: map<RankKey, RankRow>,
                  rn: map<RankKey, RankRow>, d: int, o: int)
    requires RankFacts(ps, rm).Values <= RankFacts(qs, rn).Values
    requires Injective(qs) && d in ps && d in ds && ds[d] in qs && qs[ds[d]] == ps[d] && RankKey(d, o) in rm
    ensures RankKey(ds[d], o) in rn && rn[RankKey(ds[d], o)] == rm[RankKey(d, o)]
  {
    var f, g, k := RankFacts(ps, rm), RankFacts(qs, rn), RankKey(d, o);
    assert k in f && f[k] in f.Values;
    var j := KeyAt(g, f[k]);
    assert qs[j.difficultyId] == qs[ds[d]];
  }

  lemma RanksOutOf(ps: map<int, Path>, qs: map<int, Path>, ds: map<int, int>, rm: map<RankKey, RankRow>,
                   rn: map<RankKey, RankRow>, d: int, o: int)
    requires RankFacts(qs, rn).Values <= RankFacts(ps, rm).Values
    requires Injective(ps) && d in ps && d in ds && ds[d] in qs && qs[ds[d]] == ps[d] && RankKey(ds[d], o) in rn
    ensures RankKey(d, o) in rm
  {
    var f, g, k := RankFacts(ps, rm), RankFacts(qs, rn), RankKey(ds[d], o);
    assert k in g && g[k] in g.Values;
    var j := KeyAt(f, g[k]);
    assert ps[j.difficultyId] == ps[d];
  }

  lemma RanksRenamed(t: Tables, r: Tables, ds: map<int, int>)
    requires Valid(t) && Valid(r) && SameTables(t, r) && PathsCarried(PathsOf(t), PathsOf(r), ds)
    ensures RenamesRanks(t, r, ds)
  {
    hide Valid, PathsOf, Injective, RankFacts, DifficultyFacts, CategoryFacts, SubcategoryFacts, LinkFacts, BenchmarkFacts, Cats;
    PathsApart(t);
    var ps, qs := PathsOf(t), PathsOf(r);
    forall d, o | d in ds
      ensures RankKey(d, o) in t.ranks <==> RankKey(ds[d], o) in r.ranks
      ensures RankKey(d, o) in t.ranks ==> r.ranks[RankKey(ds[d], o)] == t.ranks[RankKey(d, o)]
    {
      if RankKey(d, o) in t.ranks { RanksInto(ps, qs, ds, t.ranks, r.ranks, d, o); }
      if RankKey(ds[d], o) in r.ranks { RanksOutOf(ps, qs, ds, t.ranks, r.ranks, d, o); }
    }
  }

  lemma LinksInto(ps: map<int, Path>, qs: map<int, Path>, ds: map<int, int>, scm: map<int, string>, scn: map<int, string>,
                  lm: map<LinkKey, LinkRow>, ln: map<LinkKey, LinkRow>, d: int, s: int, s': int)
    requires LinkFacts(ps, scm, lm).Values <= LinkFacts(qs, scn, ln).Values
    requires Injective(qs) && Injective(scn) && d in ps && d in ds && ds[d] in qs && qs[ds[d]] == ps[d]
    requires s in scm && s' in scn && scm[s] == scn[s'] && LinkKey(d, s) in lm
    ensures LinkKey(ds[d], s') in ln && ln[LinkKey(ds[d], s')] == lm[LinkKey(d, s)]
  {
    var f, g, k := LinkFacts(ps, scm, lm), LinkFacts(qs, scn, ln), LinkKey(d, s);
    assert k in f && f[k] in f.Values;
    var j := KeyAt(g, f[k]);
    assert qs[j.difficultyId] == qs[ds[d]] && scn[j.scenarioId] == scn[s'];
  }

  lemma LinksOutOf(ps: map<int, Path>, qs: map<int, Path>, ds: map<int, int>, scm: map<int, string>, scn: map<int, string>,
                   lm: map<LinkKey, LinkRow>, ln: map<LinkKey, LinkRow>, d: int, s: int, s': int)
    requires LinkFacts(qs, scn, ln).Values <= LinkFacts(ps, scm, lm).Values
    requires Injective(ps) && Injective(scm) && d in ps && d in ds && ds[d] in qs && qs[ds[d]] == ps[d]
    requires s in scm && s' in scn && scm[s] == scn[s'] && LinkKey(ds[d], s') in ln
    ensures LinkKey(d, s) in lm
  {
    var f, g, k := LinkFacts(ps, scm, lm), LinkFacts(qs, scn, ln), LinkKey(ds[d], s');
    assert k in g && g[k] in g.Values;
    var j := KeyAt(f, g[k]);
    assert ps[j.difficultyId] == ps[d] && scm[j.scenarioId] == scm[s];
  }

  lemma ScenariosApart(t: Tables)
    requires Valid(t)
    ensures Injective(t.scenarios)
  {
    hide UniqueBenchmarks, UniqueDifficulties, UniqueCategories, UniqueSubcategories, ForeignKeys;
    var scm := t.scenarios;
    forall a, b | a in scm && b in scm && scm[a] == scm[b] ensures a == b {
    }
  }

  lemma NamesakesExist(t: Tables, r: Tables)
    requires Valid(t) && SameTables(t, r)
    ensures LinksLandIn(t, r)
  {
    hide UniqueBenchmarks, UniqueScenarios, UniqueDifficulties, UniqueCategories, UniqueSubcategories;
    hide DifficultyFacts, RankFacts, CategoryFacts, SubcategoryFacts, BenchmarkFacts, Cats, PathsOf;
    PathsApart(t);
    var f, g := LinkFacts(PathsOf(t), t.scenarios, t.links), LinkFacts(PathsOf(r), r.scenarios, r.links);
    forall k | k in t.links && k.scenarioId in t.scenarios ensures t.scenarios[k.scenarioId] in r.scenarios.Values {
      assert k in f && f[k] in f.Values;
      var j := KeyAt(g, f[k]);
      assert r.scenarios[j.scenarioId] == t.scenarios[k.scenarioId];
    }
  }

  lemma SameTablesBack(t: Tables, r: Tables)
    requires SameTables(t, r)
    ensures SameTables(r, t)
  {
  }

  lemma LinksRenamed(t: Tables, r: Tables, ds: map<int, int>)
    requires Valid(t) && Valid(r) && SameTables(t, r) && PathsCarried(PathsOf(t), PathsOf(r), ds)
    ensures RenamesLinks(t, r, ds)
  {
    hide Valid, PathsOf, Injective, RankFacts, DifficultyFacts, CategoryFacts, SubcategoryFacts, LinkFacts, BenchmarkFacts, Cats;
    NamesakesExist(t, r);
    SameTablesBack(t, r);
    NamesakesExist(r, t);
    hide LinksLandIn;
    PathsApart(t);
    ScenariosApart(t);
    ScenariosApart(r);
    var ps, qs := PathsOf(t), PathsOf(r);
    forall d, s, s' | d in ds && s in t.scenarios && s' in r.scenarios && t.scenarios[s] == r.scenarios[s']
      ensures LinkKey(d, s) in t.links <==> LinkKey(ds[d], s') in r.links
      ensures LinkKey(d, s) in t.links ==> r.links[LinkKey(ds[d], s')] == t.links[LinkKey(d, s)]
    {
      if LinkKey(d, s) in t.links { LinksInto(ps, qs, ds, t.scenarios, r.scenarios, t.links, r.links, d, s, s'); }
      if LinkKey(ds[d], s') in r.links { LinksOutOf(ps, qs, ds, t.scenarios, r.scenarios, t.links, r.links, d, s, s'); }
    }
  }

  // ---- categories and subcategories ----

  lemma CategoriesInPaths(t: Tables)
    requires Valid(t)
    ensures forall c :: c in t.categories ==> t.categories[c].difficultyId in t.difficulties
    ensures Cats(t).Keys == t.categories.Keys && CategoryFacts(PathsOf(t), t.categories).Keys == t.categories.Keys
    ensures Injective(Cats(t)) && Injective(CategoryFacts(PathsOf(t), t.categories))
  {
    hide UniqueBenchmarks, UniqueScenarios, UniqueDifficulties, UniqueSubcategories, Injective, PathsOf;
    PathsApart(t);
    CategoryPathsApart(PathsOf(t), t.categories);
    forall c ensures c in Cats(t).Keys <==> c in t.categories.Keys
             ensures c in CategoryFacts(PathsOf(t), t.categories).Keys <==> c in t.categories.Keys
    {
    }
    SameSet(Cats(t).Keys, t.categories.Keys);
    SameSet(CategoryFacts(PathsOf(t), t.categories).Keys, t.categories.Keys);
  }

  /** A category keeps its path under the renaming. */
  ghost predicate CatsKept(t: Tables, r: Tables, cs: map<int, int>) {
    forall c :: c in cs ==> c in Cats(t) && cs[c] in Cats(r) && Cats(r)[cs[c]] == Cats(t)[c]
  }

  lemma RenamedCategory(ps: map<int, Path>, qs: map<int, Path>, ds: map<int, int>, cm: map<int, CategoryRow>,
                     cn: map<int, CategoryRow>, c: int, e: int)
    requires Injective(qs) && c in cm && e in cn && cm[c].difficultyId in ds && cn[e].difficultyId in qs
    requires cm[c].difficultyId in ps && ds[cm[c].difficultyId] in qs && qs[ds[cm[c].difficultyId]] == ps[cm[c].difficultyId]
    requires CategoryFacts(ps, cm)[c] == CategoryFacts(qs, cn)[e]
    ensures cn[e] == cm[c].(difficultyId := ds[cm[c].difficultyId])
    ensures CategoryPaths(qs, cn)[e] == CategoryPaths(ps, cm)[c]
  {
  }

  lemma CategoriesRenamed(t: Tables, r: Tables, ds: map<int, int>) returns (cs: map<int, int>)
    requires Valid(t) && Valid(r) && SameTables(t, r) && PathsCarried(PathsOf(t), PathsOf(r), ds)
    requires ds.Keys == t.difficulties.Keys
    ensures RenamesCategories(t, r, ds, cs) && CatsKept(t, r, cs)
  {
    hide Valid, SameTables, Injective, Bijection, Match, PathsOf, CategoryFacts, CategoryPaths;
    CategoriesInPaths(t);
    CategoriesInPaths(r);
    PathsApart(r);
    var ps, qs := PathsOf(t), PathsOf(r);
    var f, g := CategoryFacts(ps, t.categories), CategoryFacts(qs, r.categories);
    assert f.Values == g.Values by { CategoriesSame(t, r); }
    MatchIsBijection(f, g);
    cs := Match(f, g);
    BijectionKeys(cs, f.Keys, g.Keys);
    forall c | c in t.categories
      ensures t.categories[c].difficultyId in ds && cs[c] in r.categories
      ensures r.categories[cs[c]] == t.categories[c].(difficultyId := ds[t.categories[c].difficultyId])
      ensures Cats(r)[cs[c]] == Cats(t)[c]
    {
      RenamedCategory(ps, qs, ds, t.categories, r.categories, c, cs[c]);
    }
  }

  lemma CategoriesSame(t: Tables, r: Tables)
    requires SameTables(t, r)
    ensures CategoryFacts(PathsOf(t), t.categories).Values == CategoryFacts(PathsOf(r), r.categories).Values
    ensures SubcategoryFacts(Cats(t), t.subcategories).Values == SubcategoryFacts(Cats(r), r.subcategories).Values
  {
  }

  lemma SubcategoriesInPaths(t: Tables)
    requires Valid(t)
    ensures forall s :: s in t.subcategories ==> t.subcategories[s].categoryId in t.categories
    ensures SubcategoryFacts(Cats(t), t.subcategories).Keys == t.subcategories.Keys
    ensures Injective(SubcategoryFacts(Cats(t), t.subcategories))
  {
    hide UniqueBenchmarks, UniqueScenarios, UniqueDifficulties, UniqueCategories, Injective, PathsOf, Cats;
    CategoriesInPaths(t);
    SubcategoriesApart(Cats(t), t.subcategories);
    forall s ensures s in SubcategoryFacts(Cats(t), t.subcategories).Keys <==> s in t.subcategories.Keys {
    }
    SameSet(SubcategoryFacts(Cats(t), t.subcategories).Keys, t.subcategories.Keys);
  }

  lemma RenamedSubcategory(ps: map<int, CategoryPath>, qs: map<int, CategoryPath>, cs: map<int, int>,
                           sm: map<int, SubcategoryRow>, sn: map<int, SubcategoryRow>, s: int, e: int)
    requires Injective(qs) && s in sm && e in sn && sm[s].categoryId in cs && sn[e].categoryId in qs
    requires sm[s].categoryId in ps && cs[sm[s].categoryId] in qs && qs[cs[sm[s].categoryId]] == ps[sm[s].categoryId]
    requires SubcategoryFacts(ps, sm)[s] == SubcategoryFacts(qs, sn)[e]
    ensures sn[e] == sm[s].(categoryId := cs[sm[s].categoryId])
  {
  }

  lemma SubcategoriesRenamed(t: Tables, r: Tables, cs: map<int, int>) returns (ss: map<int, int>)
    requires Valid(t) && Valid(r) && SameTables(t, r) && CatsKept(t, r, cs) && cs.Keys == t.categories.Keys
    ensures RenamesSubcategories(t, r, cs, ss)
  {
    hide Valid, SameTables, Injective, Bijection, Match, Cats, SubcategoryFacts;
    SubcategoriesInPaths(t);
    SubcategoriesInPaths(r);
    CategoriesInPaths(r);
    var f, g := SubcategoryFacts(Cats(t), t.subcategories), SubcategoryFacts(Cats(r), r.subcategories);
    assert f.Values == g.Values by { CategoriesSame(t, r); }
    MatchIsBijection(f, g);
    ss := Match(f, g);
    BijectionKeys(ss, f.Keys, g.Keys);
    forall s | s in t.subcategories
      ensures t.subcategories[s].categoryId in cs && ss[s] in r.subcategories
      ensures r.subcategories[ss[s]] == t.subcategories[s].(categoryId := cs[t.subcategories[s].categoryId])
    {
      RenamedSubcategory(Cats(t), Cats(r), cs, t.subcategories, r.subcategories, s, ss[s]);
    }
  }

  /** In valid tables distinct rows have distinct facts: the view loses no row. */
  lemma RowsApart(t: Tables)
    requires Valid(t)
    ensures Injective(BenchmarkFacts(t.benchmarks)) && Injective(DifficultyFacts(PathsOf(t), t.difficulties))
    ensures Injective(RankFacts(PathsOf(t), t.ranks)) && Injective(CategoryFacts(PathsOf(t), t.categories))
    ensures Injective(SubcategoryFacts(Cats(t), t.subcategories))
    ensures Injective(LinkFacts(PathsOf(t), t.scenarios, t.links))
  {
    hide PathsOf, Cats, Injective, ForeignKeys, UniqueBenchmarks, UniqueDifficulties, UniqueCategories, UniqueSubcategories;
    BenchmarksApart(t);
    PathsApart(t);
    DifficultiesApart(PathsOf(t), t.difficulties);
    RanksApart(PathsOf(t), t.ranks);
    CategoriesInPaths(t);
    SubcategoriesInPaths(t);
    LinksApart(PathsOf(t), t.scenarios, t.links);
  }

  /** Valid table states with equal views are the same up to the generated ids of benchmarks, difficulties, categories and
      subcategories: there are bijections between these under which all six tables agree, row by row and reference by
      reference, links leading to the scenario of the same name. */
  lemma EqualViewsAreRenamings(t: Tables, r: Tables)
    returns (bs: map<int, int>, ds: map<int, int>, cs: map<int, int>, ss: map<int, int>)
    requires Valid(t) && Valid(r) && View(t) == View(r)
    ensures Renames(t, r, bs, ds, cs, ss)
  {
    hide Valid, View, SameTables, PathsOf, CatsKept, PathsCarried, Injective;
    hide RenamesBenchmarks, RenamesRanks, RenamesSubcategories, RenamesLinks;
    EqualViewsEqualTables(t, r);
    bs := BenchmarksRenamed(t, r);
    ds := DifficultiesRenamed(t, r, bs);
    RanksRenamed(t, r, ds);
    LinksRenamed(t, r, ds);
    cs := CategoriesRenamed(t, r, ds);
    ss := SubcategoriesRenamed(t, r, cs);
  }

  // ---- and back: renaming ids does not change the view ----

  lemma SameValues<K(!new), V>(f: map<K, V>, g: map<K, V>, m: map<K, K>)
    requires Bijection(m, f.Keys, g.Keys) && forall k :: k in f ==> m[k] in g && g[m[k]] == f[k]
    ensures f.Values == g.Values
  {
    forall x ensures x in f.Values <==> x in g.Values {
      if x in f.Values {
        var k := KeyAt(f, x);
        assert g[m[k]] == x;
      }
      if x in g.Values {
        var j := KeyAt(g, x);
        assert j in m.Values;
        var k := KeyAt(m, j);
        assert k in f && f[k] == x;
      }
    }
  }

  lemma RenamedPaths(t: Tables, r: Tables, bs: map<int, int>, ds: map<int, int>)
    requires Valid(t) && Valid(r) && RenamesBenchmarks(t, r, bs) && RenamesDifficulties(t, r, bs, ds)
    ensures PathsCarried(PathsOf(t), PathsOf(r), ds)
  {
    hide UniqueBenchmarks, UniqueScenarios, UniqueDifficulties, UniqueCategories, UniqueSubcategories, Injective, Bijection;
    PathsApart(t);
    PathsApart(r);
    BijectionKeys(bs, t.benchmarks.Keys, r.benchmarks.Keys);
    BijectionKeys(ds, t.difficulties.Keys, r.difficulties.Keys);
  }

  lemma BenchmarksBack(t: Tables, r: Tables, bs: map<int, int>)
    requires RenamesBenchmarks(t, r, bs)
    ensures BenchmarkFacts(t.benchmarks).Values == BenchmarkFacts(r.benchmarks).Values
  {
    hide Bijection;
    BijectionKeys(bs, t.benchmarks.Keys, r.benchmarks.Keys);
    var f, g := BenchmarkFacts(t.benchmarks), BenchmarkFacts(r.benchmarks);
    assert f.Keys == t.benchmarks.Keys && g.Keys == r.benchmarks.Keys;
    forall b | b in t.benchmarks ensures bs[b] in g && g[bs[b]] == f[b] {
      assert r.benchmarks[bs[b]] == t.benchmarks[b];
    }
    SameValues(f, g, bs);
  }

  lemma DifficultiesBack(t: Tables, r: Tables, bs: map<int, int>, ds: map<int, int>)
    requires Valid(t) && Valid(r) && RenamesDifficulties(t, r, bs, ds) && PathsCarried(PathsOf(t), PathsOf(r), ds)
    ensures DifficultyFacts(PathsOf(t), t.difficulties).Values == DifficultyFacts(PathsOf(r), r.difficulties).Values
  {
    hide Valid, Bijection, PathsOf, Injective;
    PathsApart(t);
    PathsApart(r);
    BijectionKeys(ds, t.difficulties.Keys, r.difficulties.Keys);
    var f, g := DifficultyFacts(PathsOf(t), t.difficulties), DifficultyFacts(PathsOf(r), r.difficulties);
    forall d ensures d in f.Keys <==> d in t.difficulties.Keys
             ensures d in g.Keys <==> d in r.difficulties.Keys
    {
    }
    SameSet(f.Keys, t.difficulties.Keys);
    SameSet(g.Keys, r.difficulties.Keys);
    forall d | d in t.difficulties ensures ds[d] in g && g[ds[d]] == f[d] {
      assert r.difficulties[ds[d]] == t.difficulties[d].(benchmarkId := bs[t.difficulties[d].benchmarkId]);
    }
    SameValues(f, g, ds);
  }

  /** The key that a bijection takes to `j`. */
  lemma Origin<K(!new)>(m: map<K, K>, dom: set<K>, ran: set<K>, j: K) returns (k: K)
    requires Bijection(m, dom, ran) && j in ran
    ensures k in m && m[k] == j
  {
    assert j in m.Values;
    k := KeyAt(m, j);
  }

  lemma RanksBack(t: Tables, r: Tables, ds: map<int, int>)
    requires Valid(t) && Valid(r) && RenamesRanks(t, r, ds) && PathsCarried(PathsOf(t), PathsOf(r), ds)
    requires Bijection(ds, t.difficulties.Keys, r.difficulties.Keys)
    ensures RankFacts(PathsOf(t), t.ranks).Values == RankFacts(PathsOf(r), r.ranks).Values
  {
    hide Valid, Bijection, PathsOf, Injective;
    PathsApart(t);
    PathsApart(r);
    BijectionKeys(ds, t.difficulties.Keys, r.difficulties.Keys);
    var ps, qs := PathsOf(t), PathsOf(r);
    var f, g := RankFacts(ps, t.ranks), RankFacts(qs, r.ranks);
    forall x ensures x in f.Values <==> x in g.Values {
      if x in f.Values {
        var k := KeyAt(f, x);
        assert RankKey(k.difficultyId, k.sortOrder) == k;
        var j := RankKey(ds[k.difficultyId], k.sortOrder);
        assert j in g && g[j] == x;
      }
      if x in g.Values {
        var j := KeyAt(g, x);
        var d := Origin(ds, t.difficulties.Keys, r.difficulties.Keys, j.difficultyId);
        var k := RankKey(d, j.sortOrder);
        assert RankKey(ds[d], j.sortOrder) == j;
        assert k in f && f[k] == x;
      }
    }
  }

  lemma LinkThere(t: Tables, r: Tables, ds: map<int, int>, x: Fact)
    requires RenamesLinks(t, r, ds) && PathsCarried(PathsOf(t), PathsOf(r), ds) && ds.Keys == PathsOf(t).Keys
    requires x in LinkFacts(PathsOf(t), t.scenarios, t.links).Values
    ensures x in LinkFacts(PathsOf(r), r.scenarios, r.links).Values
  {
    hide PathsOf, Injective;
    var f, g := LinkFacts(PathsOf(t), t.scenarios, t.links), LinkFacts(PathsOf(r), r.scenarios, r.links);
    var k := KeyAt(f, x);
    var s' := KeyAt(r.scenarios, t.scenarios[k.scenarioId]);
    assert LinkKey(k.difficultyId, k.scenarioId) == k;
    var j := LinkKey(ds[k.difficultyId], s');
    assert j in g && g[j] == x;
  }

  lemma LinkHere(t: Tables, r: Tables, ds: map<int, int>, x: Fact)
    requires RenamesLinks(t, r, ds) && PathsCarried(PathsOf(t), PathsOf(r), ds)
    requires Bijection(ds, PathsOf(t).Keys, PathsOf(r).Keys)
    requires x in LinkFacts(PathsOf(r), r.scenarios, r.links).Values
    ensures x in LinkFacts(PathsOf(t), t.scenarios, t.links).Values
  {
    hide PathsOf, Injective, Bijection;
    var f, g := LinkFacts(PathsOf(t), t.scenarios, t.links), LinkFacts(PathsOf(r), r.scenarios, r.links);
    var j := KeyAt(g, x);
    var d := Origin(ds, PathsOf(t).Keys, PathsOf(r).Keys, j.difficultyId);
    var s := KeyAt(t.scenarios, r.scenarios[j.scenarioId]);
    var k := LinkKey(d, s);
    assert LinkKey(ds[d], j.scenarioId) == j;
    assert k in f && f[k] == x;
  }

  lemma LinksBack(t: Tables, r: Tables, ds: map<int, int>)
    requires Valid(t) && Valid(r) && RenamesLinks(t, r, ds) && PathsCarried(PathsOf(t), PathsOf(r), ds)
    requires Bijection(ds, t.difficulties.Keys, r.difficulties.Keys)
    ensures LinkFacts(PathsOf(t), t.scenarios, t.links).Values == LinkFacts(PathsOf(r), r.scenarios, r.links).Values
  {
    hide Valid, Bijection, PathsOf, PathsCarried, RenamesLinks, LinkFacts, Injective;
    PathsApart(t);
    PathsApart(r);
    BijectionKeys(ds, t.difficulties.Keys, r.difficulties.Keys);
    var f, g := LinkFacts(PathsOf(t), t.scenarios, t.links), LinkFacts(PathsOf(r), r.scenarios, r.links);
    forall x ensures x in f.Values <==> x in g.Values {
      if x in f.Values { LinkThere(t, r, ds, x); }
      if x in g.Values { LinkHere(t, r, ds, x); }
    }
  }

  lemma CategoriesBack(t: Tables, r: Tables, ds: map<int, int>, cs: map<int, int>)
    requires Valid(t) && Valid(r) && RenamesCategories(t, r, ds, cs) && PathsCarried(PathsOf(t), PathsOf(r), ds)
    ensures CategoryFacts(PathsOf(t), t.categories).Values == CategoryFacts(PathsOf(r), r.categories).Values
    ensures CatsKept(t, r, cs)
  {
    hide Valid, Bijection, PathsOf, Injective;
    CategoriesInPaths(t);
    CategoriesInPaths(r);
    BijectionKeys(cs, t.categories.Keys, r.categories.Keys);
    var f, g := CategoryFacts(PathsOf(t), t.categories), CategoryFacts(PathsOf(r), r.categories);
    forall c | c in t.categories
      ensures cs[c] in g && g[cs[c]] == f[c] && Cats(r)[cs[c]] == Cats(t)[c]
    {
    }
    SameValues(f, g, cs);
  }

  lemma SubcategoriesBack(t: Tables, r: Tables, cs: map<int, int>, ss: map<int, int>)
    requires Valid(t) && Valid(r) && RenamesSubcategories(t, r, cs, ss) && CatsKept(t, r, cs)
    ensures SubcategoryFacts(Cats(t), t.subcategories).Values == SubcategoryFacts(Cats(r), r.subcategories).Values
  {
    hide Valid, Bijection, Cats, Injective;
    SubcategoriesInPaths(t);
    SubcategoriesInPaths(r);
    BijectionKeys(ss, t.subcategories.Keys, r.subcategories.Keys);
    var f, g := SubcategoryFacts(Cats(t), t.subcategories), SubcategoryFacts(Cats(r), r.subcategories);
    forall s | s in t.subcategories ensures ss[s] in g && g[ss[s]] == f[s] {
      assert r.subcategories[ss[s]] == t.subcategories[s].(categoryId := cs[t.subcategories[s].categoryId]);
    }
    SameValues(f, g, ss);
  }

  lemma EqualTablesEqualViews(t: Tables, r: Tables)
    requires SameTables(t, r)
    ensures View(t) == View(r)
  {
    hide PathsOf, BenchmarkFacts, DifficultyFacts, RankFacts, CategoryFacts, CategoryPaths, SubcategoryFacts, LinkFacts;
  }

  /** Renaming generated ids does not change the view. */
  lemma RenamingKeepsView(t: Tables, r: Tables, bs: map<int, int>, ds: map<int, int>, cs: map<int, int>, ss: map<int, int>)
    requires Valid(t) && Valid(r) && Renames(t, r, bs, ds, cs, ss)
    ensures View(t) == View(r)
  {
    hide Valid, View, PathsOf, Cats, CatsKept, PathsCarried, Bijection;
    hide BenchmarkFacts, DifficultyFacts, RankFacts, CategoryFacts, SubcategoryFacts, LinkFacts;
    hide RenamesBenchmarks, RenamesRanks, RenamesCategories, RenamesSubcategories, RenamesLinks;
    RenamedPaths(t, r, bs, ds);
    BenchmarksBack(t, r, bs);
    DifficultiesBack(t, r, bs, ds);
    RanksBack(t, r, ds);
    LinksBack(t, r, ds);
    CategoriesBack(t, r, ds, cs);
    SubcategoriesBack(t, r, cs, ss);
    EqualTablesEqualViews(t, r);
  }

  /** The view says everything of the six tables but the generated ids, and nothing else. */
  lemma EqualViewsIffRenaming(t: Tables, r: Tables)
    requires Valid(t) && Valid(r)
    ensures View(t) == View(r) <==> exists bs, ds, cs, ss :: Renames(t, r, bs, ds, cs, ss)
  {
    hide Valid, View, Renames;
    if View(t) == View(r) {
      var bs, ds, cs, ss := EqualViewsAreRenamings(t, r);
    }
    if bs, ds, cs, ss :| Renames(t, r, bs, ds, cs, ss) {
      RenamingKeepsView(t, r, bs, ds, cs, ss);
    }
  }
}
