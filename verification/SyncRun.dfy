/** `syncToDatabase`: the nested loops that write a tree into the tables. */
module SyncRun {
  import opened Common
  import opened BenchmarkSource
  import opened Merging
  import opened Parsing
  import opened Tables
  import opened SyncSpec

  /** Difficulty `id` lies at path `p`. */
  ghost predicate At(t: Tables, id: int, p: Path) {
    Valid(t) && id in t.difficulties && id in PathsOf(t) && PathsOf(t)[id] == p
  }

  ghost function KeyAt<K(!new), V>(m: map<K, V>, x: V): (k: K)
    requires x in m.Values
    ensures k in m && m[k] == x
  {
    var k :| k in m && m[k] == x;
    k
  }

  // ---- ranks ----

  method InsertRanks(t: Tables, id: int, ranks: seq<MergedRank>, ghost p: Path)
    returns (r: Result<Tables, SqlError>, written: nat)
    requires At(t, id, p)
    ensures r.Ok? <==> forall k :: 0 <= k < |ranks| ==> RankKey(id, k) !in t.ranks
    ensures r.Ok? ==> At(r.value, id, p) && r.value == t.(ranks := r.value.ranks)
    ensures r.Ok? ==> View(r.value) == View(t) + RankImage(p, ranks, |ranks|) && written == |ranks|
  {
    hide Valid, PathsOf, View;
    var u := t;
    written := 0;
    assert View(t) + RankImage(p, ranks, 0) == View(t);
    for k := 0 to |ranks|
      invariant At(u, id, p) && u == t.(ranks := u.ranks) && written == k
      invariant View(u) == View(t) + RankImage(p, ranks, k)
      invariant forall key :: key in u.ranks <==> key in t.ranks || (key.difficultyId == id && 0 <= key.sortOrder < k)
      invariant forall j :: 0 <= j < k ==> RankKey(id, j) !in t.ranks
    {
      var key, row := RankKey(id, k), RankRow(ranks[k].name, ranks[k].color);
      var next := InsertRank(u, key, row);
      if next.Err? {
        return Err(next.error), written;
      }
      InsertRankView(u, key, row);
      u := next.value;
      written := written + 1;
    }
    return Ok(u), written;
  }

  // ---- categories ----

  method InsertSubcategories(t: Tables, categoryId: int, subs: seq<Subcategory>, ghost p: Path)
    returns (r: Result<Tables, SqlError>, written: nat)
    requires Valid(t) && categoryId in t.categories && At(t, t.categories[categoryId].difficultyId, p)
    requires forall s :: s in t.subcategories ==> t.subcategories[s].categoryId != categoryId
    ensures r.Ok? <==> forall m :: 0 <= m < |subs| ==> FitsInt(subs[m].scenarioCount)
    ensures r.Ok? ==> Valid(r.value) && r.value == t.(subcategories := r.value.subcategories)
    ensures r.Ok? ==> PathsOf(r.value) == PathsOf(t) && written == |subs|
    ensures r.Ok? ==> View(r.value) == View(t) + SubcategoryImage(p, t.categories[categoryId].sortOrder, subs, |subs|)
  {
    hide Valid, PathsOf, View;
    var u := t;
    written := 0;
    ghost var order := t.categories[categoryId].sortOrder;
    assert View(t) + SubcategoryImage(p, order, subs, 0) == View(t);
    for m := 0 to |subs|
      invariant Valid(u) && u == t.(subcategories := u.subcategories) && PathsOf(u) == PathsOf(t) && written == m
      invariant View(u) == View(t) + SubcategoryImage(p, order, subs, m)
      invariant forall s :: s in u.subcategories && u.subcategories[s].categoryId == categoryId ==>
                  u.subcategories[s].sortOrder < m
      invariant forall k :: 0 <= k < m ==> FitsInt(subs[k].scenarioCount)
    {
      var row := SubcategoryRow(categoryId, subs[m].subcategoryName, subs[m].scenarioCount, subs[m].color, m);
      var id := FreshId(u.subcategories.Keys);
      assert !SubcategoryConflict(u, row);
      var next := InsertSubcategory(u, id, row);
      if next.Err? {
        return Err(next.error), written;
      }
      InsertSubcategoryView(u, id, row);
      u := next.value;
      written := written + 1;
    }
    return Ok(u), written;
  }

  method InsertCategories(t: Tables, id: int, cats: seq<Category>, ghost p: Path)
    returns (r: Result<Tables, SqlError>, written: nat, below: nat)
    requires At(t, id, p)
    requires forall c :: c in t.categories ==> t.categories[c].difficultyId != id
    ensures r.Ok? <==> CountsFit(cats)
    ensures r.Ok? ==> At(r.value, id, p) && PathsOf(r.value) == PathsOf(t)
    ensures r.Ok? ==> r.value == t.(categories := r.value.categories, subcategories := r.value.subcategories)
    ensures r.Ok? ==> written == |cats| && below == SubcategoryCount(cats, |cats|)
    ensures r.Ok? ==> View(r.value) == View(t) + CategoryImage(p, cats, |cats|)
  {
    hide Valid, PathsOf, View, SubcategoryImage;
    var u := t;
    written, below := 0, 0;
    assert View(t) + CategoryImage(p, cats, 0) == View(t);
    for k := 0 to |cats|
      invariant At(u, id, p) && PathsOf(u) == PathsOf(t)
      invariant written == k && below == SubcategoryCount(cats, k)
      invariant u == t.(categories := u.categories, subcategories := u.subcategories)
      invariant View(u) == View(t) + CategoryImage(p, cats, k)
      invariant forall c :: c in u.categories && u.categories[c].difficultyId == id ==> u.categories[c].sortOrder < k
      invariant CountsFit(cats[..k])
    {
      var row := CategoryRow(id, cats[k].categoryName, cats[k].color, k);
      var categoryId := FreshId(u.categories.Keys);
      var inserted := InsertCategory(u, categoryId, row);
      assert !CategoryConflict(u, row);
      InsertCategoryView(u, categoryId, row);
      ghost var before := View(u);
      u := inserted.value;
      assert View(u) == before + {CategoryFact(p, row.name, row.color, k)};
      var next, more := InsertSubcategories(u, categoryId, cats[k].subcategories, p);
      CountsFitStep(cats, k);
      if next.Err? {
        return Err(next.error), written, below;
      }
      u := next.value;
      written, below := written + 1, below + more;
    }
    assert cats[..|cats|] == cats;
    return Ok(u), written, below;
  }

  lemma CountsFitStep(cats: seq<Category>, k: nat)
    requires k < |cats|
    ensures CountsFit(cats[..k + 1]) <==>
            CountsFit(cats[..k]) &&
            forall m :: 0 <= m < |cats[k].subcategories| ==> FitsInt(cats[k].subcategories[m].scenarioCount)
    ensures CountsFit(cats) ==> CountsFit(cats[..k + 1])
  {
    hide FitsInt;
    assert forall i :: 0 <= i < k ==> cats[..k + 1][i] == cats[..k][i] == cats[i];
    assert cats[..k + 1][k] == cats[k];
  }

  // ---- links ----

  /** The links present for a difficulty are to scenarios named by the first `n` links. */
  ghost predicate LinkedOnlyTo(t: Tables, id: int, links: seq<MergedScenario>, n: nat)
    requires n <= |links|
  {
    forall key :: key in t.links && key.difficultyId == id ==>
      key.scenarioId in t.scenarios && exists p :: 0 <= p < n && links[p].name == t.scenarios[key.scenarioId]
  }

  lemma NoLinks(t: Tables, id: int, links: seq<MergedScenario>)
    requires forall key :: key in t.links ==> key.difficultyId != id
    ensures LinkedOnlyTo(t, id, links, 0)
  {
  }

  lemma NewLink(t: Tables, id: int, links: seq<MergedScenario>, k: nat, scenarioId: int, scm: map<int, string>)
    requires k < |links| && LinkedOnlyTo(t, id, links, k)
    requires EnsuresAt(t.scenarios, links[k].name, scenarioId) && scm == t.scenarios[scenarioId := links[k].name]
    requires forall i :: 0 <= i < k ==> links[i].name != links[k].name
    ensures LinkKey(id, scenarioId) !in t.links
    ensures forall s :: s in t.scenarios ==> s in scm && scm[s] == t.scenarios[s]
  {
  }

  lemma LinkedStep(t: Tables, id: int, links: seq<MergedScenario>, k: nat, scenarioId: int, row: LinkRow, u: Tables)
    requires k < |links| && LinkedOnlyTo(t, id, links, k)
    requires forall s :: s in t.scenarios ==> s in u.scenarios && u.scenarios[s] == t.scenarios[s]
    requires scenarioId in u.scenarios && u.scenarios[scenarioId] == links[k].name
    requires u.links == t.links[LinkKey(id, scenarioId) := row]
    ensures LinkedOnlyTo(u, id, links, k + 1)
  {
  }

  /** Scenarios keep their ids, and those added have exactly these names. */
  ghost predicate ScenariosGrow(was: map<int, string>, now: map<int, string>, names: set<string>) {
    && (forall s :: s in was ==> s in now && now[s] == was[s])
    && now.Values == was.Values + names
  }

  lemma EnsuredGrows(scm: map<int, string>, name: string, id: int)
    requires EnsuresAt(scm, name, id)
    ensures ScenariosGrow(scm, scm[id := name], {name})
  {
    var now := scm[id := name];
    assert id in now && now[id] == name;
    forall x ensures x in now.Values <==> x in scm.Values || x == name {
      if x in scm.Values {
        var s := KeyAt(scm, x);
        assert s in now && now[s] == x;
      }
      if x in now.Values {
        var s := KeyAt(now, x);
      }
    }
  }

  lemma GrowsOn(was: map<int, string>, mid: map<int, string>, now: map<int, string>, a: set<string>, b: set<string>,
                all: set<string>)
    requires ScenariosGrow(was, mid, a) && ScenariosGrow(mid, now, b) && all == a + b
    ensures ScenariosGrow(was, now, all)
  {
  }

  lemma NothingGrown(scm: map<int, string>)
    ensures ScenariosGrow(scm, scm, LinkNames({}))
  {
  }

  /** One link: its scenario is found or made, and the row is a new one. */
  method InsertLink(t: Tables, id: int, links: seq<MergedScenario>, k: nat, ghost p: Path) returns (r: Tables)
    requires At(t, id, p) && k < |links| && LinkedOnlyTo(t, id, links, k)
    requires forall i :: 0 <= i < k ==> links[i].name != links[k].name
    ensures At(r, id, p) && r == t.(links := r.links, scenarios := r.scenarios)
    ensures ScenariosGrow(t.scenarios, r.scenarios, {links[k].name})
    ensures LinkedOnlyTo(r, id, links, k + 1) && |r.links| == |t.links| + 1
    ensures View(r) == View(t) + {LinkFact(p, links[k].name, LinkRowOf(links[k]))}
  {
    hide Valid, PathsOf, View, LinkedOnlyTo, EnsuresAt;
    var scenarioId;
    r, scenarioId := EnsureScenario(t, links[k].name);
    EnsureScenarioView(t, links[k].name, scenarioId);
    EnsuredGrows(t.scenarios, links[k].name, scenarioId);
    NewLink(t, id, links, k, scenarioId, r.scenarios);
    var key, row := LinkKey(id, scenarioId), LinkRowOf(links[k]);
    InsertLinkView(r, key, row);
    r := UpsertLink(r, key, row);
    LinkedStep(t, id, links, k, scenarioId, row, r);
  }

  lemma OneLinkName(f: Fact)
    requires f.LinkFact?
    ensures LinkNames({f}) == {f.scenario}
  {
    assert f in {f};
  }

  lemma LinkImageStep(p: Path, links: seq<MergedScenario>, k: nat)
    requires k < |links|
    ensures var image, x := LinkImage(p, links, k), LinkFact(p, links[k].name, LinkRowOf(links[k]));
            && LinkImage(p, links, k + 1) == image + {x}
            && LinkNames(LinkImage(p, links, k + 1)) == LinkNames(image) + {links[k].name}
  {
    hide LinkNames, LinkRowOf;
    var image, x := LinkImage(p, links, k), LinkFact(p, links[k].name, LinkRowOf(links[k]));
    LinkNamesUnion(image, {x});
    OneLinkName(x);
  }

  lemma UnionAssociative(a: set<Fact>, b: set<Fact>, x: Fact)
    ensures (a + b) + {x} == a + (b + {x})
  {
  }

  /** The first `k` links are written. */
  ghost predicate Linking(t: Tables, r: Tables, id: int, links: seq<MergedScenario>, k: nat, p: Path)
    requires k <= |links|
  {
    && At(r, id, p) && r == t.(links := r.links, scenarios := r.scenarios)
    && LinkedOnlyTo(r, id, links, k) && |r.links| == |t.links| + k
    && ScenariosGrow(t.scenarios, r.scenarios, LinkNames(LinkImage(p, links, k)))
    && View(r) == View(t) + LinkImage(p, links, k)
  }

  lemma NothingLinked(t: Tables, id: int, links: seq<MergedScenario>, p: Path)
    requires At(t, id, p) && forall key :: key in t.links ==> key.difficultyId != id
    ensures Linking(t, t, id, links, 0, p)
  {
    hide At, View;
    NoLinks(t, id, links);
    NothingGrown(t.scenarios);
    assert View(t) + LinkImage(p, links, 0) == View(t);
  }

  lemma LinkingStep(t: Tables, mid: Tables, r: Tables, id: int, links: seq<MergedScenario>, k: nat, p: Path)
    requires k < |links| && Linking(t, mid, id, links, k, p)
    requires At(r, id, p) && r == mid.(links := r.links, scenarios := r.scenarios)
    requires ScenariosGrow(mid.scenarios, r.scenarios, {links[k].name})
    requires LinkedOnlyTo(r, id, links, k + 1) && |r.links| == |mid.links| + 1
    requires View(r) == View(mid) + {LinkFact(p, links[k].name, LinkRowOf(links[k]))}
    ensures Linking(t, r, id, links, k + 1, p)
  {
    hide At, View, LinkedOnlyTo, LinkRowOf, ScenariosGrow, LinkNames, LinkImage;
    var image, x := LinkImage(p, links, k), LinkFact(p, links[k].name, LinkRowOf(links[k]));
    UnionAssociative(View(t), image, x);
    LinkImageStep(p, links, k);
    GrowsOn(t.scenarios, mid.scenarios, r.scenarios, LinkNames(image), {links[k].name},
            LinkNames(LinkImage(p, links, k + 1)));
  }

  /** Every link is a new row: the `ON CONFLICT` branch of the upsert is never taken. */
  method InsertLinks(t: Tables, id: int, links: seq<MergedScenario>, ghost p: Path) returns (r: Tables, written: nat)
    requires At(t, id, p)
    requires forall key :: key in t.links ==> key.difficultyId != id
    requires forall i, j :: 0 <= i < j < |links| ==> links[i].name != links[j].name
    ensures At(r, id, p) && r == t.(links := r.links, scenarios := r.scenarios)
    ensures ScenariosGrow(t.scenarios, r.scenarios, LinkNames(LinkImage(p, links, |links|)))
    ensures written == |links| && |r.links| == |t.links| + written
    ensures View(r) == View(t) + LinkImage(p, links, |links|)
  {
    hide At, View, LinkedOnlyTo, LinkRowOf, ScenariosGrow, LinkNames, LinkImage;
    r, written := t, 0;
    NothingLinked(t, id, links, p);
    for k := 0 to |links|
      invariant Linking(t, r, id, links, k, p) && written == k
    {
      ghost var mid := r;
      r := InsertLink(r, id, links, k, p);
      LinkingStep(t, mid, r, id, links, k, p);
      written := written + 1;
    }
  }

  // ---- difficulties ----

  /** A difficulty with everything below it. */
  method InsertDifficultyTree(t: Tables, benchmarkId: int, bench: string, d: Difficulty, j: nat, ctx: Context)
    returns (r: Result<Tables, SqlError>, summary: SyncSummary, ghost newId: int)
    requires Valid(t) && benchmarkId in t.benchmarks && t.benchmarks[benchmarkId].name == bench
    ensures var row := DifficultyRow(benchmarkId, d.difficultyName, d.kovaaksBenchmarkId, d.sharecode, j);
            && (r.Ok? <==> !DifficultyConflict(t, row) && CountsFit(d.categories))
            && (r.Ok? ==> newId !in t.difficulties && r.value.difficulties == t.difficulties[newId := row])
    ensures r.Ok? ==> Grown(t, r.value) && View(r.value) == View(t) + DifficultyImage(bench, d, j, ctx)
    ensures r.Ok? ==> ScenariosGrow(t.scenarios, r.value.scenarios, LinkNames(DifficultyImage(bench, d, j, ctx)))
    ensures r.Ok? ==> summary == DifficultyCounts(d, ctx)
  {
    hide Valid, PathsOf, View, DifficultyConflict, CountsFit, Links, RankImage, CategoryImage, LinkImage, RankFacts;
    hide ScenariosGrow, LinkNames;
    summary := NOTHING_WRITTEN;
    DifficultyLinkNames(bench, d, j, ctx);
    var row := DifficultyRow(benchmarkId, d.difficultyName, d.kovaaksBenchmarkId, d.sharecode, j);
    ghost var p := Path(bench, d.kovaaksBenchmarkId);
    var id := FreshId(t.difficulties.Keys);
    newId := id;
    var attempt := InsertDifficulty(t, id, row);
    if attempt.Err? {
      return Err(attempt.error), summary, newId;
    }
    var inserted := attempt.value;
    InsertDifficultyView(t, id, row);
    // The difficulty is new, so no rank row of it is in the way.
    var ranked, rankDefs := InsertRanks(inserted, id, d.mergedRanks, p);
    var grouped, categories, subcategories := InsertCategories(ranked.value, id, d.categories, p);
    if grouped.Err? {
      return Err(grouped.error), summary, newId;
    }
    var links := CollectScenarioLinks(d.mergedScenarios, ctx.lower);
    forall i, k | 0 <= i < k < |links| ensures links[i].name != links[k].name {
      LinksDistinct(d.mergedScenarios, ctx.lower, i, k);
    }
    var linked, scenarioLinks := InsertLinks(grouped.value, id, links, p);
    r := Ok(linked);
    summary := SyncSummary(0, 1, rankDefs, categories, subcategories, scenarioLinks);
  }

  /** Benchmarks untouched, constraints intact. */
  ghost predicate Grown(t: Tables, r: Tables) {
    Valid(r) && r.benchmarks == t.benchmarks
  }

  ghost predicate HasId(dm: map<int, DifficultyRow>, kovaaksId: int) {
    exists d :: d in dm && dm[d].kovaaksId == kovaaksId
  }

  ghost predicate HasName(dm: map<int, DifficultyRow>, benchmarkId: int, name: string) {
    exists d :: d in dm && dm[d].benchmarkId == benchmarkId && dm[d].name == name
  }

  lemma ConflictMeaning(t: Tables, row: DifficultyRow)
    ensures DifficultyConflict(t, row) <==>
            HasId(t.difficulties, row.kovaaksId) || HasName(t.difficulties, row.benchmarkId, row.name)
  {
    var dm := t.difficulties;
    if HasId(dm, row.kovaaksId) {
      var d :| d in dm && dm[d].kovaaksId == row.kovaaksId;
      assert d in t.difficulties && t.difficulties[d].kovaaksId == row.kovaaksId;
      assert DifficultyConflict(t, row);
    } else if HasName(dm, row.benchmarkId, row.name) {
      var d :| d in dm && dm[d].benchmarkId == row.benchmarkId && dm[d].name == row.name;
      assert d in t.difficulties && t.difficulties[d].benchmarkId == row.benchmarkId && t.difficulties[d].name == row.name;
      assert DifficultyConflict(t, row);
    } else {
      forall d | d in t.difficulties
        ensures t.difficulties[d].kovaaksId != row.kovaaksId
        ensures t.difficulties[d].benchmarkId != row.benchmarkId || t.difficulties[d].name != row.name
      {
        assert dm[d] == t.difficulties[d];
      }
      assert !DifficultyConflict(t, row);
    }
  }

  lemma OneMoreDifficulty(dm: map<int, DifficultyRow>, id: int, row: DifficultyRow, kovaaksId: int, name: string)
    requires id !in dm
    ensures HasId(dm[id := row], kovaaksId) <==> HasId(dm, kovaaksId) || row.kovaaksId == kovaaksId
    ensures HasName(dm[id := row], row.benchmarkId, name) <==> HasName(dm, row.benchmarkId, name) || row.name == name
  {
    var em := dm[id := row];
    assert id in em && em[id] == row;
    if HasId(dm, kovaaksId) {
      var d :| d in dm && dm[d].kovaaksId == kovaaksId;
      assert d in em && em[d] == dm[d];
    }
    if HasName(dm, row.benchmarkId, name) {
      var d :| d in dm && dm[d].benchmarkId == row.benchmarkId && dm[d].name == name;
      assert d in em && em[d] == dm[d];
    }
  }

  /** The ids and names in the tables are those of `t` and of the first `j` difficulties. */
  ghost predicate Recorded(t: Tables, u: Tables, benchmarkId: int, ds: seq<Difficulty>, j: nat)
    requires j <= |ds|
  {
    && (forall k :: HasId(u.difficulties, k) <==>
          HasId(t.difficulties, k) || exists i :: 0 <= i < j && ds[i].kovaaksBenchmarkId == k)
    && (forall n :: HasName(u.difficulties, benchmarkId, n) <==> exists i :: 0 <= i < j && ds[i].difficultyName == n)
  }

  lemma RecordedStep(t: Tables, u: Tables, v: Tables, benchmarkId: int, ds: seq<Difficulty>, j: nat, id: int,
                     row: DifficultyRow)
    requires j < |ds| && Recorded(t, u, benchmarkId, ds, j) && id !in u.difficulties
    requires row.benchmarkId == benchmarkId && row.kovaaksId == ds[j].kovaaksBenchmarkId && row.name == ds[j].difficultyName
    requires v.difficulties == u.difficulties[id := row]
    ensures Recorded(t, v, benchmarkId, ds, j + 1)
  {
    hide HasId, HasName;
    forall k ensures HasId(v.difficulties, k) <==>
              HasId(t.difficulties, k) || exists i :: 0 <= i < j + 1 && ds[i].kovaaksBenchmarkId == k
    {
      OneMoreDifficulty(u.difficulties, id, row, k, "");
    }
    forall n ensures HasName(v.difficulties, benchmarkId, n) <==> exists i :: 0 <= i < j + 1 && ds[i].difficultyName == n {
      OneMoreDifficulty(u.difficulties, id, row, 0, n);
    }
  }

  /** Whether the first `j` difficulties can be inserted. */
  ghost predicate Insertable(t: Tables, ds: seq<Difficulty>, j: nat)
    requires j <= |ds|
  {
    && (forall i, k :: 0 <= i < k < j ==> ds[i].difficultyName != ds[k].difficultyName)
    && (forall i :: 0 <= i < j ==> CountsFit(ds[i].categories) && !HasId(t.difficulties, ds[i].kovaaksBenchmarkId))
  }

  lemma InsertableStep(t: Tables, u: Tables, benchmarkId: int, ds: seq<Difficulty>, j: nat, row: DifficultyRow)
    requires j < |ds| && Recorded(t, u, benchmarkId, ds, j) && Insertable(t, ds, j)
    requires DistinctIds(ds)
    requires row.benchmarkId == benchmarkId && row.kovaaksId == ds[j].kovaaksBenchmarkId && row.name == ds[j].difficultyName
    ensures Insertable(t, ds, j + 1) <==> !DifficultyConflict(u, row) && CountsFit(ds[j].categories)
    ensures Insertable(t, ds, |ds|) ==> Insertable(t, ds, j + 1)
  {
    hide HasId, HasName, CountsFit, DifficultyConflict;
    ConflictMeaning(u, row);
  }

  /** The loop over a benchmark's difficulties, the benchmark having none before. It goes through exactly when the
      names differ, the counts fit, and no id is in the tables already. */
  method InsertDifficulties(t: Tables, benchmarkId: int, bench: string, ds: seq<Difficulty>, ctx: Context)
    returns (r: Result<Tables, SqlError>, summary: SyncSummary)
    requires Valid(t) && benchmarkId in t.benchmarks && t.benchmarks[benchmarkId].name == bench
    requires forall d :: d in t.difficulties ==> t.difficulties[d].benchmarkId != benchmarkId
    requires DistinctIds(ds)
    ensures r.Ok? <==> Insertable(t, ds, |ds|)
    ensures r.Ok? ==> Grown(t, r.value) && View(r.value) == View(t) + DifficultiesImage(bench, ds, |ds|, ctx)
    ensures r.Ok? ==> ScenariosGrow(t.scenarios, r.value.scenarios, LinkNames(DifficultiesImage(bench, ds, |ds|, ctx)))
    ensures r.Ok? ==> summary == DifficultiesCounts(ds, |ds|, ctx)
  {
    hide Valid, View, Recorded, Insertable, DifficultyConflict, CountsFit, DifficultyImage, ScenariosGrow, LinkNames;
    hide DifficultyCounts;
    summary := NOTHING_WRITTEN;
    NothingRecorded(t, benchmarkId, ds);
    NothingGrown(t.scenarios);
    var u := t;
    assert View(t) + DifficultiesImage(bench, ds, 0, ctx) == View(t);
    for j := 0 to |ds|
      invariant Grown(t, u) && Recorded(t, u, benchmarkId, ds, j) && Insertable(t, ds, j)
      invariant summary == DifficultiesCounts(ds, j, ctx)
      invariant View(u) == View(t) + DifficultiesImage(bench, ds, j, ctx)
      invariant ScenariosGrow(t.scenarios, u.scenarios, LinkNames(DifficultiesImage(bench, ds, j, ctx)))
    {
      ghost var row := DifficultyRow(benchmarkId, ds[j].difficultyName, ds[j].kovaaksBenchmarkId, ds[j].sharecode, j);
      InsertableStep(t, u, benchmarkId, ds, j, row);
      ghost var id;
      var next, more;
      next, more, id := InsertDifficultyTree(u, benchmarkId, bench, ds[j], j, ctx);
      if next.Err? {
        return Err(next.error), summary;
      }
      RecordedStep(t, u, next.value, benchmarkId, ds, j, id, row);
      ghost var images, image := DifficultiesImage(bench, ds, j, ctx), DifficultyImage(bench, ds[j], j, ctx);
      LinkNamesUnion(images, image);
      GrowsOn(t.scenarios, u.scenarios, next.value.scenarios, LinkNames(images), LinkNames(image), LinkNames(images + image));
      u := next.value;
      summary := summary.Plus(more);
    }
    return Ok(u), summary;
  }

  lemma NothingRecorded(t: Tables, benchmarkId: int, ds: seq<Difficulty>)
    requires Valid(t) && forall d :: d in t.difficulties ==> t.difficulties[d].benchmarkId != benchmarkId
    ensures Grown(t, t) && Recorded(t, t, benchmarkId, ds, 0) && Insertable(t, ds, 0)
  {
    hide Valid;
  }

  // ---- benchmarks ----

  /** The difficulty ids in the tables are those of the difficulty rows in the view. */
  lemma IdsInView(t: Tables, kovaaksId: int)
    requires Valid(t)
    ensures HasId(t.difficulties, kovaaksId) <==>
            exists f :: f in ChildView(t) && f.DifficultyFact? && f.path.kovaaksId == kovaaksId
  {
    hide RankFacts, CategoryFacts, SubcategoryFacts, LinkFacts, UniqueBenchmarks, UniqueScenarios, UniqueCategories;
    hide UniqueSubcategories, UniqueDifficulties;
    OnlyDifficultyFacts(t);
    var ps := PathsOf(t);
    var df := DifficultyFacts(ps, t.difficulties);
    if d :| d in t.difficulties && t.difficulties[d].kovaaksId == kovaaksId {
      assert d in ps && d in df;
      assert df[d] in df.Values;
    }
    if f :| f in ChildView(t) && f.DifficultyFact? && f.path.kovaaksId == kovaaksId {
      assert f in df.Values;
      var d := KeyAt(df, f);
      assert d in t.difficulties && t.difficulties[d].kovaaksId == kovaaksId;
    }
  }

  lemma OtherFacts(ps: map<int, Path>, cs: map<int, CategoryPath>, t: Tables, f: Fact)
    ensures f in DifficultyFacts(ps, t.difficulties).Values ==> f.DifficultyFact?
    ensures f in RankFacts(ps, t.ranks).Values ==> f.RankFact?
    ensures f in CategoryFacts(ps, t.categories).Values ==> f.CategoryFact?
    ensures f in SubcategoryFacts(cs, t.subcategories).Values ==> f.SubcategoryFact?
    ensures f in LinkFacts(ps, t.scenarios, t.links).Values ==> f.LinkFact?
  {
    var df, rf, cf := DifficultyFacts(ps, t.difficulties), RankFacts(ps, t.ranks), CategoryFacts(ps, t.categories);
    var sf, lf := SubcategoryFacts(cs, t.subcategories), LinkFacts(ps, t.scenarios, t.links);
    if f in df.Values { var k := KeyAt(df, f); }
    if f in rf.Values { var k := KeyAt(rf, f); }
    if f in cf.Values { var k := KeyAt(cf, f); }
    if f in sf.Values { var k := KeyAt(sf, f); }
    if f in lf.Values { var k := KeyAt(lf, f); }
  }

  /** Among the rows below the benchmarks, the difficulty rows are those of the difficulties table. */
  lemma OnlyDifficultyFacts(t: Tables)
    ensures forall f :: f in ChildView(t) && f.DifficultyFact? ==>
              f in DifficultyFacts(PathsOf(t), t.difficulties).Values
    ensures forall f :: f in ChildView(t) ==> !f.BenchmarkFact?
  {
    hide PathsOf, CategoryPaths, DifficultyFacts, RankFacts, CategoryFacts, SubcategoryFacts, LinkFacts;
    forall f ensures f in ChildView(t) ==>
                (f.DifficultyFact? ==> f in DifficultyFacts(PathsOf(t), t.difficulties).Values) && !f.BenchmarkFact?
    {
      OtherFacts(PathsOf(t), CategoryPaths(PathsOf(t), t.categories), t, f);
    }
  }

  /** A difficulty id in the tables is one in the view. */
  lemma IdsHeld(t: Tables, kovaaksId: int)
    requires Valid(t)
    ensures HasId(t.difficulties, kovaaksId) <==> HoldsId(View(t), kovaaksId)
  {
    hide Valid, ChildView, BenchmarkFacts;
    IdsInView(t, kovaaksId);
    if HoldsId(View(t), kovaaksId) {
      var f :| f in View(t) && f.DifficultyFact? && f.path.kovaaksId == kovaaksId;
      if f in BenchmarkFacts(t.benchmarks).Values {
        OnlyBenchmarkFacts(t.benchmarks, f);
      }
      assert f in ChildView(t);
    }
  }

  lemma OnlyBenchmarkFacts(bm: map<int, BenchmarkRow>, f: Fact)
    requires f in BenchmarkFacts(bm).Values
    ensures f.BenchmarkFact?
  {
    var b := KeyAt(BenchmarkFacts(bm), f);
  }

  datatype SyncError = InvalidDate | Database(error: SqlError) | CommitFailed

  /** Surviving benchmarks keep their ids. */
  ghost predicate Carries(t: Tables, r: Tables) {
    forall id :: id in t.benchmarks ==> id in r.benchmarks && r.benchmarks[id].name == t.benchmarks[id].name
  }

  /** The body of the loop over benchmarks: the rows of this benchmark become those of its image. */
  method SyncBenchmark(t: Tables, b: Benchmark, ctx: Context) returns (r: Result<Tables, SyncError>, summary: SyncSummary)
    requires Valid(t) && DistinctIds(b.difficulties)
    ensures r.Ok? <==> Writable(Without(View(t), iset{b.benchmarkName}), b, ctx)
    ensures r == Err(InvalidDate) <==> ParseDate(b.dateAdded, ctx).Err?
    ensures r != Err(CommitFailed)
    ensures r.Ok? ==> Valid(r.value) && Carries(t, r.value)
    ensures r.Ok? ==> View(r.value) == Without(View(t), iset{b.benchmarkName}) + BenchmarkImage(b, ctx)
    ensures r.Ok? ==> ScenariosGrow(t.scenarios, r.value.scenarios, LinkNames(BenchmarkImage(b, ctx)))
    ensures r.Ok? ==> summary == BenchmarkCounts(b, ctx)
  {
    hide Valid, Insertable, DifficultiesImage, ChildView, BenchmarkFacts, Without, UpsertsAt, ClearBenchmark;
    hide View, Trim, HoldsId, ScenariosGrow, LinkNames;
    BenchmarkLinkNames(b, ctx);
    hide DifficultiesCounts;
    summary := NOTHING_WRITTEN;
    var date := ParseDate(b.dateAdded, ctx);
    if date.Err? {
      return Err(InvalidDate), summary;
    }
    var row := BenchmarkRow(b.benchmarkName, b.abbreviation, b.rankCalculation, b.color, b.spreadsheetUrl,
                            date.value, ctx.sourceFile, ctx.sourceHash);
    var upserted, id := UpsertBenchmark(t, row);
    UpsertBenchmarkView(t, row, id);
    var cleared := ClearBenchmark(upserted, id);
    ClearBenchmarkView(upserted, id);
    UpsertCarries(t, row, id);
    ClearedView(t, cleared, row);
    InsertableMeaning(cleared, Without(View(t), iset{b.benchmarkName}), b, ctx);
    var inserted, more := InsertDifficulties(cleared, id, b.benchmarkName, b.difficulties, ctx);
    if inserted.Err? {
      return Err(Database(inserted.error)), summary;
    }
    r := Ok(inserted.value);
    summary := SyncSummary(1, 0, 0, 0, 0, 0).Plus(more);
  }

  lemma BenchmarkLinkNames(b: Benchmark, ctx: Context)
    ensures LinkNames(BenchmarkImage(b, ctx))
         == LinkNames(DifficultiesImage(b.benchmarkName, b.difficulties, |b.difficulties|, ctx))
  {
    hide DifficultiesImage;
  }

  lemma UpsertCarries(t: Tables, row: BenchmarkRow, id: int)
    requires UpsertsAt(t.benchmarks, row.name, id)
    ensures Carries(t, t.(benchmarks := t.benchmarks[id := row]))
  {
  }

  lemma ClearedView(t: Tables, u: Tables, row: BenchmarkRow)
    requires BenchmarkFacts(u.benchmarks).Values
          == Without(BenchmarkFacts(t.benchmarks).Values, iset{row.name}) + {BenchmarkFact(row)}
    requires ChildView(u) == Without(ChildView(t), iset{row.name})
    ensures View(u) == Without(View(t), iset{row.name}) + {BenchmarkFact(row)}
  {
    hide ChildView, BenchmarkFacts, Without;
    WithoutPair(BenchmarkFacts(t.benchmarks).Values, ChildView(t), iset{row.name});
  }

  lemma InsertableMeaning(t: Tables, facts: set<Fact>, b: Benchmark, ctx: Context)
    requires Valid(t) && ParseDate(b.dateAdded, ctx).Ok?
    requires View(t) == facts + {BenchmarkFact(RowOf(b, ctx))}
    ensures Insertable(t, b.difficulties, |b.difficulties|) <==> Writable(facts, b, ctx)
  {
    hide Valid, View, HasId, CountsFit, ParseDate, RowOf;
    forall id ensures HasId(t.difficulties, id) <==> HoldsId(facts, id) {
      IdsHeld(t, id);
    }
    hide HoldsId;
  }

  // ---- the whole tree ----

  lemma LeftAtFirst(before: set<Fact>, bs: seq<Benchmark>)
    ensures Without(before, iset n: string | n !in Names(bs)) == Left(before, bs, 0)
  {
    assert bs[0..] == bs;
  }

  lemma LeftAtLast(before: set<Fact>, bs: seq<Benchmark>)
    ensures Left(before, bs, |bs|) == {}
  {
  }

  lemma NamesFrom(bs: seq<Benchmark>, i: nat)
    requires i < |bs|
    ensures Names(bs[i..]) == {bs[i].benchmarkName} + Names(bs[i + 1..])
    ensures (forall k :: i < k < |bs| ==> bs[k].benchmarkName != bs[i].benchmarkName) ==>
            bs[i].benchmarkName !in Names(bs[i + 1..])
  {
    var from, next := bs[i..], bs[i + 1..];
    assert from[0] == bs[i] && forall k :: 0 <= k < |next| ==> next[k] == from[k + 1] == bs[i + 1 + k];
    forall n | n in Names(from) ensures n in {bs[i].benchmarkName} + Names(next) {
      var k :| 0 <= k < |from| && from[k].benchmarkName == n;
      assert k > 0 ==> from[k] == next[k - 1];
    }
    forall n | n in Names(next) ensures n in Names(from) {
      var k :| 0 <= k < |next| && next[k].benchmarkName == n;
      assert next[k] == from[k + 1];
    }
  }

  /** The i-th benchmark leaves the rows written before it and those still to be replaced as they are. */
  lemma OthersKept(before: set<Fact>, bs: seq<Benchmark>, i: nat, ctx: Context)
    requires i < |bs| && Accepted(bs)
    ensures Without(Image(bs, i, ctx) + Left(before, bs, i), iset{bs[i].benchmarkName})
         == Image(bs, i, ctx) + Left(before, bs, i + 1)
  {
    hide Image, DifficultiesOk, Ids, Names;
    forall f | f in Image(bs, i, ctx) ensures f.Owner() != bs[i].benchmarkName {
      var k := ImageOwner(bs, i, ctx, f);
    }
    NamesFrom(bs, i);
  }

  /** None of the ids of the i-th benchmark has been written yet, so what stands in its way is old. */
  lemma WritableNow(before: set<Fact>, bs: seq<Benchmark>, i: nat, ctx: Context)
    requires i < |bs| && Accepted(bs)
    ensures Writable(Image(bs, i, ctx) + Left(before, bs, i + 1), bs[i], ctx) <==>
            Writable(Left(before, bs, i + 1), bs[i], ctx)
    ensures DistinctIds(bs[i].difficulties)
  {
    hide Image, Left, CountsFit, ParseDate, DistinctNames, DifficultyOk;
    var ds, left := bs[i].difficulties, Left(before, bs, i + 1);
    forall j | 0 <= j < |ds|
      ensures HoldsId(Image(bs, i, ctx) + left, ds[j].kovaaksBenchmarkId) <==> HoldsId(left, ds[j].kovaaksBenchmarkId)
    {
      assert ds[j].kovaaksBenchmarkId in Ids(ds);
      NotYetWritten(bs, i, ctx, ds[j].kovaaksBenchmarkId);
    }
    hide HoldsId;
  }

  lemma NotYetWritten(bs: seq<Benchmark>, i: nat, ctx: Context, id: int)
    requires i < |bs| && Accepted(bs) && id in Ids(bs[i].difficulties)
    ensures !HoldsId(Image(bs, i, ctx), id)
  {
    hide Image, DifficultiesOk, Ids;
    if f :| f in Image(bs, i, ctx) && f.DifficultyFact? && f.path.kovaaksId == id {
      var k := ImageOwner(bs, i, ctx, f);
      assert false;
    }
  }

  /** Benchmarks of these names keep their ids. */
  ghost predicate CarriesNamed(t: Tables, r: Tables, names: set<string>) {
    forall id :: id in t.benchmarks && t.benchmarks[id].name in names ==>
      id in r.benchmarks && r.benchmarks[id].name == t.benchmarks[id].name
  }

  /** The transaction of `syncToDatabase` up to its commit. */
  method SyncTables(t: Tables, bs: seq<Benchmark>, ctx: Context) returns (r: Result<Tables, SyncError>, summary: SyncSummary)
    requires Valid(t) && Accepted(bs)
    ensures r.Ok? <==> CanSync(View(t), bs, ctx)
    ensures r == Err(InvalidDate) <==> StopsAtDate(View(t), bs, ctx)
    ensures r != Err(CommitFailed)
    ensures r.Ok? ==> Valid(r.value) && View(r.value) == Image(bs, |bs|, ctx) && CarriesNamed(t, r.value, Names(bs))
    ensures r.Ok? ==> ScenariosGrow(t.scenarios, r.value.scenarios, LinkNames(Image(bs, |bs|, ctx)))
    ensures r.Ok? ==> summary == TreeCounts(bs, |bs|, ctx)
  {
    hide Valid, View, Accepted, Left, Writable, DeleteOtherBenchmarks, BenchmarkImage, ScenariosGrow, LinkNames;
    hide BenchmarkCounts, StopsAtDate, ParseDate;
    summary := NOTHING_WRITTEN;
    var names := Names(bs);
    var u := DeleteOtherBenchmarks(t, names);
    ghost var before := View(t);
    DeleteOtherBenchmarksView(t, names);
    LeftAtFirst(before, bs);
    NothingGrown(t.scenarios);
    for i := 0 to |bs|
      invariant Valid(u) && CarriesNamed(t, u, names) && summary == TreeCounts(bs, i, ctx)
      invariant View(u) == Image(bs, i, ctx) + Left(before, bs, i)
      invariant ScenariosGrow(t.scenarios, u.scenarios, LinkNames(Image(bs, i, ctx)))
      invariant forall k :: 0 <= k < i ==> Writable(Left(before, bs, k + 1), bs[k], ctx)
    {
      WritableNow(before, bs, i, ctx);
      OthersKept(before, bs, i, ctx);
      var next, more := SyncBenchmark(u, bs[i], ctx);
      if next.Err? {
        StopsHere(before, bs, ctx, i);
        return Err(next.error), summary;
      }
      ghost var images, image := Image(bs, i, ctx), BenchmarkImage(bs[i], ctx);
      LinkNamesUnion(images, image);
      GrowsOn(t.scenarios, u.scenarios, next.value.scenarios, LinkNames(images), LinkNames(image), LinkNames(images + image));
      u := next.value;
      summary := summary.Plus(more);
    }
    LeftAtLast(before, bs);
    NeverStops(before, bs, ctx);
    return Ok(u), summary;
  }
}
