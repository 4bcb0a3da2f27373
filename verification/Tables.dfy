/** The benchmark tables, the statements the sync runs on them, and what a table state means.

    The keys, unique constraints and cascades are those of the schema. Timestamps are not modelled, and the ids that
    the database generates are any ids not yet in use. */
module Tables {
  import opened Common

  datatype BenchmarkRow = BenchmarkRow(
    name: string, abbreviation: string, rankCalculation: string, color: string, spreadsheetUrl: string,
    dateAdded: Option<int>, sourceFile: string, sourceHash: string)
  datatype DifficultyRow = DifficultyRow(
    benchmarkId: int, name: string, kovaaksId: int, sharecode: string, sortOrder: int)
  datatype RankRow = RankRow(name: string, color: string)
  datatype CategoryRow = CategoryRow(difficultyId: int, name: string, color: string, sortOrder: int)
  datatype SubcategoryRow = SubcategoryRow(
    categoryId: int, name: string, scenarioCount: int, color: string, sortOrder: int)
  datatype LinkRow = LinkRow(
    categoryName: string, subcategoryName: string, rankThresholds: seq<real>, sortOrder: int)

  datatype RankKey = RankKey(difficultyId: int, sortOrder: int)
  datatype LinkKey = LinkKey(difficultyId: int, scenarioId: int)

  /** The last two tables have composite primary keys, the others generated ids. */
  datatype Tables = Tables(
    benchmarks: map<int, BenchmarkRow>,
    difficulties: map<int, DifficultyRow>,
    categories: map<int, CategoryRow>,
    subcategories: map<int, SubcategoryRow>,
    scenarios: map<int, string>,
    ranks: map<RankKey, RankRow>,
    links: map<LinkKey, LinkRow>)

  ghost predicate ForeignKeys(t: Tables) {
    && (forall d :: d in t.difficulties ==> t.difficulties[d].benchmarkId in t.benchmarks)
    && (forall k :: k in t.ranks ==> k.difficultyId in t.difficulties)
    && (forall c :: c in t.categories ==> t.categories[c].difficultyId in t.difficulties)
    && (forall s :: s in t.subcategories ==> t.subcategories[s].categoryId in t.categories)
    && (forall k :: k in t.links ==> k.difficultyId in t.difficulties && k.scenarioId in t.scenarios)
  }

  ghost predicate UniqueBenchmarks(bm: map<int, BenchmarkRow>) {
    forall i, j :: i in bm && j in bm && i != j ==> bm[i].name != bm[j].name
  }

  ghost predicate UniqueScenarios(scm: map<int, string>) {
    forall i, j :: i in scm && j in scm && i != j ==> scm[i] != scm[j]
  }

  ghost predicate UniqueDifficulties(dm: map<int, DifficultyRow>) {
    forall d, e :: d in dm && e in dm && d != e ==>
      dm[d].kovaaksId != dm[e].kovaaksId && (dm[d].benchmarkId != dm[e].benchmarkId || dm[d].name != dm[e].name)
  }

  ghost predicate UniqueCategories(cm: map<int, CategoryRow>) {
    forall c, e :: c in cm && e in cm && c != e ==>
      cm[c].difficultyId != cm[e].difficultyId || cm[c].sortOrder != cm[e].sortOrder
  }

  ghost predicate UniqueSubcategories(sm: map<int, SubcategoryRow>) {
    forall s, e :: s in sm && e in sm && s != e ==>
      sm[s].categoryId != sm[e].categoryId || sm[s].sortOrder != sm[e].sortOrder
  }

  /** Foreign keys and unique constraints. */
  ghost predicate Valid(t: Tables) {
    && ForeignKeys(t)
    && UniqueBenchmarks(t.benchmarks) && UniqueScenarios(t.scenarios) && UniqueDifficulties(t.difficulties)
    && UniqueCategories(t.categories) && UniqueSubcategories(t.subcategories)
  }

  // ---- what the tables say: their rows with every generated id replaced by the natural key it stands for ----

  /** The natural key of a difficulty. */
  datatype Path = Path(bench: string, kovaaksId: int)

  datatype Fact =
    | BenchmarkFact(row: BenchmarkRow)
    | DifficultyFact(path: Path, name: string, sharecode: string, sortOrder: int)
    | RankFact(path: Path, rankOrder: int, rank: RankRow)
    | CategoryFact(path: Path, category: string, color: string, sortOrder: int)
    | SubcategoryFact(path: Path, categoryOrder: int, name: string, scenarioCount: int, color: string, sortOrder: int)
    | LinkFact(path: Path, scenario: string, link: LinkRow)
  {
    /** The benchmark a row belongs to. */
    function Owner(): string {
      match this
      case BenchmarkFact(row) => row.name
      case _ => path.bench
    }
  }

  ghost function PathsOf(t: Tables): map<int, Path> {
    map d | d in t.difficulties && t.difficulties[d].benchmarkId in t.benchmarks ::
      Path(t.benchmarks[t.difficulties[d].benchmarkId].name, t.difficulties[d].kovaaksId)
  }

  // The facts of each table. In valid tables every row has one, since what it refers to is there.

  ghost function BenchmarkFacts(bm: map<int, BenchmarkRow>): map<int, Fact> {
    map b | b in bm :: BenchmarkFact(bm[b])
  }

  ghost function DifficultyFacts(ps: map<int, Path>, dm: map<int, DifficultyRow>): map<int, Fact> {
    map d | d in dm && d in ps :: DifficultyFact(ps[d], dm[d].name, dm[d].sharecode, dm[d].sortOrder)
  }

  ghost function RankFacts(ps: map<int, Path>, rm: map<RankKey, RankRow>): map<RankKey, Fact> {
    map k | k in rm && k.difficultyId in ps :: RankFact(ps[k.difficultyId], k.sortOrder, rm[k])
  }

  ghost function CategoryFacts(ps: map<int, Path>, cm: map<int, CategoryRow>): map<int, Fact> {
    map c | c in cm && cm[c].difficultyId in ps ::
      CategoryFact(ps[cm[c].difficultyId], cm[c].name, cm[c].color, cm[c].sortOrder)
  }

  /** The natural key of a category: its difficulty and its sort order. */
  datatype CategoryPath = CategoryPath(path: Path, sortOrder: int)

  ghost function CategoryPaths(ps: map<int, Path>, cm: map<int, CategoryRow>): map<int, CategoryPath> {
    map c | c in cm && cm[c].difficultyId in ps :: CategoryPath(ps[cm[c].difficultyId], cm[c].sortOrder)
  }

  ghost function SubcategoryFacts(cs: map<int, CategoryPath>, sm: map<int, SubcategoryRow>): map<int, Fact> {
    map s | s in sm && sm[s].categoryId in cs ::
      SubcategoryFact(
        cs[sm[s].categoryId].path, cs[sm[s].categoryId].sortOrder,
        sm[s].name, sm[s].scenarioCount, sm[s].color, sm[s].sortOrder)
  }

  ghost function LinkFacts(ps: map<int, Path>, scm: map<int, string>, lm: map<LinkKey, LinkRow>)
    : map<LinkKey, Fact>
  {
    map k | k in lm && k.difficultyId in ps && k.scenarioId in scm ::
      LinkFact(ps[k.difficultyId], scm[k.scenarioId], lm[k])
  }

  /** The rows below the benchmarks. */
  ghost function ChildView(t: Tables): set<Fact> {
    var ps := PathsOf(t);
    DifficultyFacts(ps, t.difficulties).Values + RankFacts(ps, t.ranks).Values
    + CategoryFacts(ps, t.categories).Values + SubcategoryFacts(CategoryPaths(ps, t.categories), t.subcategories).Values
    + LinkFacts(ps, t.scenarios, t.links).Values
  }

  /** The rows of the six benchmark tables up to generated ids. */
  ghost function View(t: Tables): set<Fact> {
    BenchmarkFacts(t.benchmarks).Values + ChildView(t)
  }

  // ---- statements ----

  datatype SqlError = UniqueViolation | ValueOutOfRange

  function Restrict<K, V>(m: map<K, V>, keep: set<K>): (r: map<K, V>)
    ensures r.Keys == m.Keys * keep && forall k :: k in r ==> r[k] == m[k]
  {
    map k | k in m && k in keep :: m[k]
  }

  /** Deleting difficulties cascades to their ranks, categories, subcategories and links. */
  function KeepDifficulties(t: Tables, keep: set<int>): Tables {
    var categories := map c | c in t.categories && t.categories[c].difficultyId in keep :: t.categories[c];
    t.(difficulties := Restrict(t.difficulties, keep),
       ranks := map k | k in t.ranks && k.difficultyId in keep :: t.ranks[k],
       categories := categories,
       subcategories := map s | s in t.subcategories && t.subcategories[s].categoryId in categories :: t.subcategories[s],
       links := map k | k in t.links && k.difficultyId in keep :: t.links[k])
  }

  /** `DELETE FROM benchmarks WHERE NOT (benchmark_name = ANY(names))`, with its cascade. */
  function DeleteOtherBenchmarks(t: Tables, names: set<string>): Tables {
    var benchmarks := map b | b in t.benchmarks && t.benchmarks[b].name in names :: t.benchmarks[b];
    var keep := set d | d in t.difficulties && t.difficulties[d].benchmarkId in benchmarks;
    KeepDifficulties(t, keep).(benchmarks := benchmarks)
  }

  /** `DELETE FROM benchmark_difficulties WHERE benchmark_id = id`, with its cascade. */
  function ClearBenchmark(t: Tables, id: int): Tables {
    KeepDifficulties(t, set d | d in t.difficulties && t.difficulties[d].benchmarkId != id)
  }

  predicate DifficultyConflict(t: Tables, row: DifficultyRow) {
    exists d | d in t.difficulties ::
      || t.difficulties[d].kovaaksId == row.kovaaksId
      || (t.difficulties[d].benchmarkId == row.benchmarkId && t.difficulties[d].name == row.name)
  }

  function InsertDifficulty(t: Tables, id: int, row: DifficultyRow): Result<Tables, SqlError> {
    if DifficultyConflict(t, row) then Err(UniqueViolation)
    else Ok(t.(difficulties := t.difficulties[id := row]))
  }

  function InsertRank(t: Tables, key: RankKey, row: RankRow): Result<Tables, SqlError> {
    if key in t.ranks then Err(UniqueViolation) else Ok(t.(ranks := t.ranks[key := row]))
  }

  predicate CategoryConflict(t: Tables, row: CategoryRow) {
    exists c | c in t.categories ::
      t.categories[c].difficultyId == row.difficultyId && t.categories[c].sortOrder == row.sortOrder
  }

  function InsertCategory(t: Tables, id: int, row: CategoryRow): Result<Tables, SqlError> {
    if CategoryConflict(t, row) then Err(UniqueViolation)
    else Ok(t.(categories := t.categories[id := row]))
  }

  predicate SubcategoryConflict(t: Tables, row: SubcategoryRow) {
    exists s | s in t.subcategories ::
      t.subcategories[s].categoryId == row.categoryId && t.subcategories[s].sortOrder == row.sortOrder
  }

  /** The column `scenario_count` is a 32-bit INT. */
  predicate FitsInt(n: int) {
    -0x8000_0000 <= n < 0x8000_0000
  }

  function InsertSubcategory(t: Tables, id: int, row: SubcategoryRow): Result<Tables, SqlError> {
    if !FitsInt(row.scenarioCount) then Err(ValueOutOfRange)
    else if SubcategoryConflict(t, row) then Err(UniqueViolation)
    else Ok(t.(subcategories := t.subcategories[id := row]))
  }

  /** `INSERT ... ON CONFLICT (difficulty_id, scenario_id) DO UPDATE`. */
  function UpsertLink(t: Tables, key: LinkKey, row: LinkRow): Tables {
    t.(links := t.links[key := row])
  }

  /** `INSERT INTO benchmarks ... ON CONFLICT (benchmark_name) DO UPDATE ... RETURNING id`. */
  method UpsertBenchmark(t: Tables, row: BenchmarkRow) returns (r: Tables, id: int)
    ensures r == t.(benchmarks := t.benchmarks[id := row])
    ensures UpsertsAt(t.benchmarks, row.name, id)
  {
    if b :| b in t.benchmarks && t.benchmarks[b].name == row.name {
      id := b;
    } else {
      id := FreshId(t.benchmarks.Keys);
    }
    r := t.(benchmarks := t.benchmarks[id := row]);
  }

  /** `ensureScenario`: insert unless the name is there, and return the id of the row with that name. */
  method EnsureScenario(t: Tables, name: string) returns (r: Tables, id: int)
    ensures r == t.(scenarios := t.scenarios[id := name])
    ensures EnsuresAt(t.scenarios, name, id)
  {
    if s :| s in t.scenarios && t.scenarios[s] == name {
      id := s;
    } else {
      id := FreshId(t.scenarios.Keys);
    }
    r := t.(scenarios := t.scenarios[id := name]);
  }

  // ---- deleting, on views ----

  ghost function Without(facts: set<Fact>, gone: iset<string>): set<Fact> {
    set f | f in facts && f.Owner() !in gone
  }

  lemma KeptValues<K(!new)>(f: map<K, Fact>, g: map<K, Fact>, gone: iset<string>)
    requires forall k :: k in g <==> k in f && f[k].Owner() !in gone
    requires forall k :: k in g ==> g[k] == f[k]
    ensures g.Values == Without(f.Values, gone)
  {
    forall x | x in Without(f.Values, gone) ensures x in g.Values {
      var k :| k in f && f[k] == x;
      assert k in g;
    }
    forall x | x in g.Values ensures x in Without(f.Values, gone) {
      var k :| k in g && g[k] == x;
      assert k in f;
    }
  }

  lemma KeepDifficultiesValid(t: Tables, keep: set<int>)
    requires Valid(t)
    ensures Valid(KeepDifficulties(t, keep))
  {
  }

  lemma KeepDifficultiesPaths(t: Tables, keep: set<int>)
    ensures PathsOf(KeepDifficulties(t, keep)) == Restrict(PathsOf(t), keep)
  {
  }

  /** `qs` is `ps` without the difficulties of the benchmarks in `gone`. */
  ghost predicate PathsKept(ps: map<int, Path>, qs: map<int, Path>, gone: iset<string>) {
    && (forall d :: d in qs <==> d in ps && ps[d].bench !in gone)
    && (forall d :: d in qs ==> qs[d] == ps[d])
  }

  // What restricting each table to the difficulties of `qs` leaves.

  ghost predicate DifficultiesIn(dm: map<int, DifficultyRow>, em: map<int, DifficultyRow>, qs: map<int, Path>) {
    && (forall d :: d in qs ==> (d in em <==> d in dm))
    && (forall d :: d in em ==> d in dm && em[d] == dm[d])
  }

  ghost predicate RanksIn(rm: map<RankKey, RankRow>, rn: map<RankKey, RankRow>, qs: map<int, Path>) {
    && (forall k: RankKey :: k.difficultyId in qs ==> (k in rn <==> k in rm))
    && (forall k :: k in rn ==> k in rm && rn[k] == rm[k])
  }

  ghost predicate LinksIn(lm: map<LinkKey, LinkRow>, ln: map<LinkKey, LinkRow>, qs: map<int, Path>) {
    && (forall k: LinkKey :: k.difficultyId in qs ==> (k in ln <==> k in lm))
    && (forall k :: k in ln ==> k in lm && ln[k] == lm[k])
  }

  ghost predicate CategoriesIn(cm: map<int, CategoryRow>, cn: map<int, CategoryRow>, qs: map<int, Path>) {
    && (forall c :: c in cm && cm[c].difficultyId in qs ==> c in cn)
    && (forall c :: c in cn ==> c in cm && cn[c] == cm[c])
  }

  ghost predicate SubcategoriesIn(sm: map<int, SubcategoryRow>, sn: map<int, SubcategoryRow>, cn: map<int, CategoryRow>) {
    && (forall s :: s in sm && sm[s].categoryId in cn ==> s in sn)
    && (forall s :: s in sn ==> s in sm && sn[s] == sm[s])
  }

  /** `r` holds exactly the rows of `t` whose difficulty is in `qs`. */
  ghost predicate RestrictedTo(t: Tables, r: Tables, qs: map<int, Path>) {
    && r.scenarios == t.scenarios && r.benchmarks == t.benchmarks
    && DifficultiesIn(t.difficulties, r.difficulties, qs)
    && RanksIn(t.ranks, r.ranks, qs)
    && LinksIn(t.links, r.links, qs)
    && CategoriesIn(t.categories, r.categories, qs)
    && SubcategoriesIn(t.subcategories, r.subcategories, r.categories)
  }

  lemma DifficultiesKept(ps: map<int, Path>, qs: map<int, Path>, gone: iset<string>,
                         dm: map<int, DifficultyRow>, em: map<int, DifficultyRow>)
    requires PathsKept(ps, qs, gone) && DifficultiesIn(dm, em, qs)
    ensures DifficultyFacts(qs, em).Values == Without(DifficultyFacts(ps, dm).Values, gone)
  {
    var f, g := DifficultyFacts(ps, dm), DifficultyFacts(qs, em);
    assert forall k :: k in g <==> k in f && f[k].Owner() !in gone;
    assert forall k :: k in g ==> g[k] == f[k];
    KeptValues(f, g, gone);
  }

  lemma RanksKept(ps: map<int, Path>, qs: map<int, Path>, gone: iset<string>,
                  rm: map<RankKey, RankRow>, rn: map<RankKey, RankRow>)
    requires PathsKept(ps, qs, gone) && RanksIn(rm, rn, qs)
    ensures RankFacts(qs, rn).Values == Without(RankFacts(ps, rm).Values, gone)
  {
    var f, g := RankFacts(ps, rm), RankFacts(qs, rn);
    assert forall k :: k in g <==> k in f && f[k].Owner() !in gone;
    assert forall k :: k in g ==> g[k] == f[k];
    KeptValues(f, g, gone);
  }

  lemma LinksKept(ps: map<int, Path>, qs: map<int, Path>, gone: iset<string>,
                  scm: map<int, string>, lm: map<LinkKey, LinkRow>, ln: map<LinkKey, LinkRow>)
    requires PathsKept(ps, qs, gone) && LinksIn(lm, ln, qs)
    ensures LinkFacts(qs, scm, ln).Values == Without(LinkFacts(ps, scm, lm).Values, gone)
  {
    var f, g := LinkFacts(ps, scm, lm), LinkFacts(qs, scm, ln);
    assert forall k :: k in g <==> k in f && f[k].Owner() !in gone;
    assert forall k :: k in g ==> g[k] == f[k];
    KeptValues(f, g, gone);
  }

  lemma CategoriesKept(ps: map<int, Path>, qs: map<int, Path>, gone: iset<string>,
                       cm: map<int, CategoryRow>, cn: map<int, CategoryRow>)
    requires PathsKept(ps, qs, gone) && CategoriesIn(cm, cn, qs)
    ensures CategoryFacts(qs, cn).Values == Without(CategoryFacts(ps, cm).Values, gone)
  {
    var f, g := CategoryFacts(ps, cm), CategoryFacts(qs, cn);
    assert forall k :: k in g <==> k in f && f[k].Owner() !in gone;
    assert forall k :: k in g ==> g[k] == f[k];
    KeptValues(f, g, gone);
  }

  lemma CategoryPathsKept(ps: map<int, Path>, qs: map<int, Path>, gone: iset<string>,
                          cm: map<int, CategoryRow>, cn: map<int, CategoryRow>)
    requires PathsKept(ps, qs, gone) && CategoriesIn(cm, cn, qs)
    ensures var cs, ds := CategoryPaths(ps, cm), CategoryPaths(qs, cn);
            && (forall c :: c in ds <==> c in cs && cs[c].path.bench !in gone)
            && (forall c :: c in ds ==> ds[c] == cs[c] && c in cn)
  {
  }

  lemma SubcategoriesKept(cs: map<int, CategoryPath>, ds: map<int, CategoryPath>, gone: iset<string>,
                          sm: map<int, SubcategoryRow>, sn: map<int, SubcategoryRow>, cn: map<int, CategoryRow>)
    requires forall c :: c in ds <==> c in cs && cs[c].path.bench !in gone
    requires forall c :: c in ds ==> ds[c] == cs[c] && c in cn
    requires SubcategoriesIn(sm, sn, cn)
    ensures SubcategoryFacts(ds, sn).Values == Without(SubcategoryFacts(cs, sm).Values, gone)
  {
    var f, g := SubcategoryFacts(cs, sm), SubcategoryFacts(ds, sn);
    assert forall k :: k in g <==> k in f && f[k].Owner() !in gone;
    assert forall k :: k in g ==> g[k] == f[k];
    KeptValues(f, g, gone);
  }

  lemma WithoutUnion(a: set<Fact>, b: set<Fact>, c: set<Fact>, d: set<Fact>, e: set<Fact>, gone: iset<string>)
    ensures Without(a + b + c + d + e, gone)
         == Without(a, gone) + Without(b, gone) + Without(c, gone) + Without(d, gone) + Without(e, gone)
  {
  }

  lemma ChildViewKept(t: Tables, r: Tables, gone: iset<string>)
    requires RestrictedTo(t, r, PathsOf(r)) && PathsKept(PathsOf(t), PathsOf(r), gone)
    ensures ChildView(r) == Without(ChildView(t), gone)
  {
    hide PathsOf, PathsKept, Without, DifficultiesIn, RanksIn, LinksIn, CategoriesIn, SubcategoriesIn;
    hide DifficultyFacts, RankFacts, LinkFacts, CategoryFacts, CategoryPaths, SubcategoryFacts;
    var ps, qs := PathsOf(t), PathsOf(r);
    DifficultiesKept(ps, qs, gone, t.difficulties, r.difficulties);
    RanksKept(ps, qs, gone, t.ranks, r.ranks);
    LinksKept(ps, qs, gone, t.scenarios, t.links, r.links);
    CategoriesKept(ps, qs, gone, t.categories, r.categories);
    CategoryPathsKept(ps, qs, gone, t.categories, r.categories);
    SubcategoriesKept(CategoryPaths(ps, t.categories), CategoryPaths(qs, r.categories), gone,
                      t.subcategories, r.subcategories, r.categories);
    WithoutUnion(
      DifficultyFacts(ps, t.difficulties).Values, RankFacts(ps, t.ranks).Values,
      CategoryFacts(ps, t.categories).Values, SubcategoryFacts(CategoryPaths(ps, t.categories), t.subcategories).Values,
      LinkFacts(ps, t.scenarios, t.links).Values, gone);
  }

  lemma KeepDifficultiesRestricts(t: Tables, keep: set<int>, qs: map<int, Path>)
    requires qs.Keys <= keep
    ensures RestrictedTo(t, KeepDifficulties(t, keep), qs)
  {
  }

  /** Deleting the difficulties of the benchmarks in `gone` leaves exactly the other rows below the benchmarks. */
  lemma KeepDifficultiesView(t: Tables, keep: set<int>, gone: iset<string>)
    requires Valid(t)
    requires forall d :: d in PathsOf(t) ==> (d in keep <==> PathsOf(t)[d].bench !in gone)
    ensures var r := KeepDifficulties(t, keep);
            && Valid(r) && r.benchmarks == t.benchmarks && r.scenarios == t.scenarios
            && ChildView(r) == Without(ChildView(t), gone)
  {
    hide Valid, PathsOf, ChildView, Without, DifficultiesIn, RanksIn, LinksIn, CategoriesIn, SubcategoriesIn;
    var r := KeepDifficulties(t, keep);
    KeepDifficultiesValid(t, keep);
    KeepDifficultiesPaths(t, keep);
    KeepDifficultiesRestricts(t, keep, PathsOf(r));
    ChildViewKept(t, r, gone);
  }

  // Everything below is stated on the pieces of the view, so that no proof needs more than one table's definition.

  /** `DELETE FROM benchmarks WHERE NOT name = ANY(names)` leaves exactly the rows of the benchmarks named. */
  lemma DeleteOtherBenchmarksView(t: Tables, names: set<string>)
    requires Valid(t)
    ensures var r := DeleteOtherBenchmarks(t, names);
            && Valid(r) && r.scenarios == t.scenarios
            && View(r) == Without(View(t), iset n: string | n !in names)
            && (forall b :: b in r.benchmarks <==> b in t.benchmarks && t.benchmarks[b].name in names)
            && (forall b :: b in r.benchmarks ==> r.benchmarks[b] == t.benchmarks[b])
  {
    hide Valid, KeepDifficulties, PathsOf, BenchmarkFacts, ChildView, Without, UniqueBenchmarks;
    var gone := iset n: string | n !in names;
    var benchmarks := map b | b in t.benchmarks && t.benchmarks[b].name in names :: t.benchmarks[b];
    var keep := set d | d in t.difficulties && t.difficulties[d].benchmarkId in benchmarks;
    var k := KeepDifficulties(t, keep);
    DifficultiesOfBenchmarks(t, benchmarks, keep, gone);
    KeepDifficultiesView(t, keep, gone);
    BenchmarksKept(t.benchmarks, benchmarks, gone);
    FewerBenchmarks(k, benchmarks);
    WithoutPair(BenchmarkFacts(t.benchmarks).Values, ChildView(t), gone);
  }

  lemma DifficultiesOfBenchmarks(t: Tables, bm: map<int, BenchmarkRow>, keep: set<int>, gone: iset<string>)
    requires Valid(t)
    requires forall b :: b in bm <==> b in t.benchmarks && t.benchmarks[b].name !in gone
    requires forall b :: b in bm ==> bm[b] == t.benchmarks[b]
    requires forall d :: d in keep <==> d in t.difficulties && t.difficulties[d].benchmarkId in bm
    ensures forall d :: d in PathsOf(t) ==> (d in keep <==> PathsOf(t)[d].bench !in gone)
    ensures forall d :: d in KeepDifficulties(t, keep).difficulties ==>
              KeepDifficulties(t, keep).difficulties[d].benchmarkId in bm
    ensures UniqueBenchmarks(bm)
  {
  }

  lemma WithoutPair(a: set<Fact>, b: set<Fact>, gone: iset<string>)
    ensures Without(a + b, gone) == Without(a, gone) + Without(b, gone)
  {
  }

  lemma BenchmarksKept(bm: map<int, BenchmarkRow>, bn: map<int, BenchmarkRow>, gone: iset<string>)
    requires forall b :: b in bn <==> b in bm && bm[b].name !in gone
    requires forall b :: b in bn ==> bn[b] == bm[b]
    ensures BenchmarkFacts(bn).Values == Without(BenchmarkFacts(bm).Values, gone)
  {
    var f, g := BenchmarkFacts(bm), BenchmarkFacts(bn);
    assert forall k :: k in g <==> k in f && f[k].Owner() !in gone;
    assert forall k :: k in g ==> g[k] == f[k];
    KeptValues(f, g, gone);
  }

  lemma FewerBenchmarksValid(t: Tables, bm: map<int, BenchmarkRow>)
    requires Valid(t) && UniqueBenchmarks(bm)
    requires forall d :: d in t.difficulties ==> t.difficulties[d].benchmarkId in bm
    ensures Valid(t.(benchmarks := bm))
  {
    hide UniqueBenchmarks, UniqueScenarios, UniqueDifficulties, UniqueCategories, UniqueSubcategories;
  }

  lemma FewerBenchmarksPaths(t: Tables, bm: map<int, BenchmarkRow>)
    requires Valid(t)
    requires forall d :: d in t.difficulties ==> t.difficulties[d].benchmarkId in bm
    requires forall b :: b in bm && b in t.benchmarks ==> bm[b].name == t.benchmarks[b].name
    ensures PathsOf(t.(benchmarks := bm)) == PathsOf(t)
  {
    hide UniqueBenchmarks, UniqueScenarios, UniqueDifficulties, UniqueCategories, UniqueSubcategories;
    forall d | d in t.difficulties
      ensures d in PathsOf(t) && d in PathsOf(t.(benchmarks := bm))
      ensures PathsOf(t.(benchmarks := bm))[d] == PathsOf(t)[d]
    {
      assert t.difficulties[d].benchmarkId in t.benchmarks;
    }
  }

  /** Dropping benchmark rows that no difficulty refers to, or changing columns other than the name, does not
      affect the rows below. */
  lemma FewerBenchmarks(t: Tables, bm: map<int, BenchmarkRow>)
    requires Valid(t) && UniqueBenchmarks(bm)
    requires forall d :: d in t.difficulties ==> t.difficulties[d].benchmarkId in bm
    requires forall b :: b in bm && b in t.benchmarks ==> bm[b].name == t.benchmarks[b].name
    ensures var r := t.(benchmarks := bm); Valid(r) && ChildView(r) == ChildView(t)
  {
    hide Valid, PathsOf, UniqueBenchmarks;
    hide DifficultyFacts, RankFacts, CategoryFacts, CategoryPaths, SubcategoryFacts, LinkFacts;
    FewerBenchmarksValid(t, bm);
    FewerBenchmarksPaths(t, bm);
  }

  /** `DELETE FROM benchmark_difficulties WHERE benchmark_id = id` leaves the rows below the other benchmarks. */
  lemma ClearBenchmarkView(t: Tables, id: int)
    requires Valid(t) && id in t.benchmarks
    ensures var r := ClearBenchmark(t, id);
            && Valid(r) && r.scenarios == t.scenarios && r.benchmarks == t.benchmarks
            && ChildView(r) == Without(ChildView(t), iset{t.benchmarks[id].name})
            && (forall d :: d in r.difficulties <==> d in t.difficulties && t.difficulties[d].benchmarkId != id)
            && (forall d :: d in r.difficulties ==> r.difficulties[d] == t.difficulties[d])
  {
    hide Valid, PathsOf, ChildView, Without;
    var keep := set d | d in t.difficulties && t.difficulties[d].benchmarkId != id;
    DifficultiesOfOthers(t, id, keep);
    KeepDifficultiesView(t, keep, iset{t.benchmarks[id].name});
  }

  lemma DifficultiesOfOthers(t: Tables, id: int, keep: set<int>)
    requires Valid(t) && id in t.benchmarks
    requires forall d :: d in keep <==> d in t.difficulties && t.difficulties[d].benchmarkId != id
    ensures forall d :: d in PathsOf(t) ==> (d in keep <==> PathsOf(t)[d].bench !in iset{t.benchmarks[id].name})
  {
  }

  // ---- inserting, on views ----

  lemma ValuesWith<K(!new)>(f: map<K, Fact>, k: K, x: Fact)
    requires k !in f
    ensures f[k := x].Values == f.Values + {x}
  {
    var g := f[k := x];
    assert k in g && g[k] == x;
    forall y | y in f.Values ensures y in g.Values {
      var j :| j in f && f[j] == y;
      assert j in g && g[j] == y;
    }
  }

  /** The upsert's choice of id: the row of that name if there is one, otherwise a new one. */
  ghost predicate UpsertsAt(bm: map<int, BenchmarkRow>, name: string, id: int) {
    if exists b :: b in bm && bm[b].name == name then id in bm && bm[id].name == name else id !in bm
  }

  ghost predicate EnsuresAt(scm: map<int, string>, name: string, id: int) {
    if exists s :: s in scm && scm[s] == name then id in scm && scm[id] == name else id !in scm
  }

  /** Upserting a benchmark replaces its row and touches nothing below. */
  lemma UpsertBenchmarkView(t: Tables, row: BenchmarkRow, id: int)
    requires Valid(t) && UpsertsAt(t.benchmarks, row.name, id)
    ensures var r := t.(benchmarks := t.benchmarks[id := row]);
            && Valid(r) && ChildView(r) == ChildView(t)
            && BenchmarkFacts(r.benchmarks).Values
               == Without(BenchmarkFacts(t.benchmarks).Values, iset{row.name}) + {BenchmarkFact(row)}
  {
    hide Valid, PathsOf, ChildView, Without, BenchmarkFacts, UniqueBenchmarks;
    UpsertKeepsNamesUnique(t, row, id);
    FewerBenchmarks(t, t.benchmarks[id := row]);
    UpsertedBenchmarkFacts(t.benchmarks, row, id);
  }

  lemma UpsertKeepsNamesUnique(t: Tables, row: BenchmarkRow, id: int)
    requires Valid(t) && UpsertsAt(t.benchmarks, row.name, id)
    ensures UniqueBenchmarks(t.benchmarks) && UniqueBenchmarks(t.benchmarks[id := row])
    ensures forall d :: d in t.difficulties ==> t.difficulties[d].benchmarkId in t.benchmarks[id := row]
  {
    hide UniqueScenarios, UniqueDifficulties, UniqueCategories, UniqueSubcategories;
  }

  lemma UpsertedBenchmarkFacts(bm: map<int, BenchmarkRow>, row: BenchmarkRow, id: int)
    requires UniqueBenchmarks(bm) && UpsertsAt(bm, row.name, id)
    ensures BenchmarkFacts(bm[id := row]).Values
         == Without(BenchmarkFacts(bm).Values, iset{row.name}) + {BenchmarkFact(row)}
  {
    hide Without;
    var rest := bm - {id};
    BenchmarksKept(bm, rest, iset{row.name});
    assert BenchmarkFacts(bm[id := row]) == BenchmarkFacts(rest)[id := BenchmarkFact(row)];
    ValuesWith(BenchmarkFacts(rest), id, BenchmarkFact(row));
  }

  // The view as six sets, one of which gains a row.

  lemma UnionWith(b: set<Fact>, d: set<Fact>, r: set<Fact>, c: set<Fact>, s: set<Fact>, l: set<Fact>, x: Fact)
    ensures b + ((d + {x}) + r + c + s + l) == (b + (d + r + c + s + l)) + {x}
    ensures b + (d + (r + {x}) + c + s + l) == (b + (d + r + c + s + l)) + {x}
    ensures b + (d + r + (c + {x}) + s + l) == (b + (d + r + c + s + l)) + {x}
    ensures b + (d + r + c + (s + {x}) + l) == (b + (d + r + c + s + l)) + {x}
    ensures b + (d + r + c + s + (l + {x})) == (b + (d + r + c + s + l)) + {x}
  {
  }

  lemma ViewWith(t: Tables, x: Fact)
    ensures var ps := PathsOf(t);
            var b, d, r, c, s, l :=
              BenchmarkFacts(t.benchmarks).Values, DifficultyFacts(ps, t.difficulties).Values,
              RankFacts(ps, t.ranks).Values, CategoryFacts(ps, t.categories).Values,
              SubcategoryFacts(CategoryPaths(ps, t.categories), t.subcategories).Values, LinkFacts(ps, t.scenarios, t.links).Values;
            && b + ((d + {x}) + r + c + s + l) == View(t) + {x}
            && b + (d + (r + {x}) + c + s + l) == View(t) + {x}
            && b + (d + r + (c + {x}) + s + l) == View(t) + {x}
            && b + (d + r + c + (s + {x}) + l) == View(t) + {x}
            && b + (d + r + c + s + (l + {x})) == View(t) + {x}
  {
    hide PathsOf, BenchmarkFacts, DifficultyFacts, RankFacts, CategoryFacts, CategoryPaths, SubcategoryFacts, LinkFacts;
    var ps := PathsOf(t);
    UnionWith(
      BenchmarkFacts(t.benchmarks).Values, DifficultyFacts(ps, t.difficulties).Values, RankFacts(ps, t.ranks).Values,
      CategoryFacts(ps, t.categories).Values, SubcategoryFacts(CategoryPaths(ps, t.categories), t.subcategories).Values,
      LinkFacts(ps, t.scenarios, t.links).Values, x);
  }

  // ranks

  ghost function FactOfRank(ps: map<int, Path>, key: RankKey, row: RankRow): Fact
    requires key.difficultyId in ps
  {
    RankFact(ps[key.difficultyId], key.sortOrder, row)
  }

  lemma InsertRankValid(t: Tables, key: RankKey, row: RankRow)
    requires Valid(t) && key.difficultyId in t.difficulties
    ensures key.difficultyId in PathsOf(t)
    ensures var r := t.(ranks := t.ranks[key := row]); Valid(r) && PathsOf(r) == PathsOf(t)
  {
    hide UniqueBenchmarks, UniqueScenarios, UniqueDifficulties, UniqueCategories, UniqueSubcategories;
  }

  lemma RankFactsWith(ps: map<int, Path>, rm: map<RankKey, RankRow>, key: RankKey, row: RankRow)
    requires key.difficultyId in ps && key !in rm
    ensures RankFacts(ps, rm[key := row]).Values == RankFacts(ps, rm).Values + {FactOfRank(ps, key, row)}
  {
    assert RankFacts(ps, rm[key := row]) == RankFacts(ps, rm)[key := FactOfRank(ps, key, row)];
    ValuesWith(RankFacts(ps, rm), key, FactOfRank(ps, key, row));
  }

  lemma InsertRankView(t: Tables, key: RankKey, row: RankRow)
    requires Valid(t) && key.difficultyId in t.difficulties && key !in t.ranks
    ensures key.difficultyId in PathsOf(t)
    ensures var r := t.(ranks := t.ranks[key := row]);
            Valid(r) && PathsOf(r) == PathsOf(t) && View(r) == View(t) + {FactOfRank(PathsOf(t), key, row)}
  {
    hide Valid, PathsOf, BenchmarkFacts, DifficultyFacts, RankFacts, CategoryFacts, CategoryPaths, SubcategoryFacts, LinkFacts, FactOfRank;
    InsertRankValid(t, key, row);
    RankFactsWith(PathsOf(t), t.ranks, key, row);
    ViewWith(t, FactOfRank(PathsOf(t), key, row));
  }

  // categories

  ghost function FactOfCategory(ps: map<int, Path>, row: CategoryRow): Fact
    requires row.difficultyId in ps
  {
    CategoryFact(ps[row.difficultyId], row.name, row.color, row.sortOrder)
  }

  lemma InsertCategoryValid(t: Tables, id: int, row: CategoryRow)
    requires Valid(t) && row.difficultyId in t.difficulties && id !in t.categories && !CategoryConflict(t, row)
    ensures row.difficultyId in PathsOf(t)
    ensures var r := t.(categories := t.categories[id := row]);
            && Valid(r) && PathsOf(r) == PathsOf(t)
            && (forall s :: s in r.subcategories ==> r.subcategories[s].categoryId != id)
  {
    hide UniqueBenchmarks, UniqueScenarios, UniqueDifficulties, UniqueSubcategories;
  }

  lemma CategoryFactsWith(ps: map<int, Path>, cm: map<int, CategoryRow>, id: int, row: CategoryRow)
    requires row.difficultyId in ps && id !in cm
    ensures CategoryFacts(ps, cm[id := row]).Values == CategoryFacts(ps, cm).Values + {FactOfCategory(ps, row)}
  {
    assert CategoryFacts(ps, cm[id := row]) == CategoryFacts(ps, cm)[id := FactOfCategory(ps, row)];
    ValuesWith(CategoryFacts(ps, cm), id, FactOfCategory(ps, row));
  }

  lemma SubcategoryFactsUnaffected(ps: map<int, Path>, cm: map<int, CategoryRow>, sm: map<int, SubcategoryRow>,
                                   id: int, row: CategoryRow)
    requires row.difficultyId in ps && id !in cm && forall s :: s in sm ==> sm[s].categoryId != id
    ensures SubcategoryFacts(CategoryPaths(ps, cm[id := row]), sm) == SubcategoryFacts(CategoryPaths(ps, cm), sm)
  {
    var cs := CategoryPaths(ps, cm);
    var x := CategoryPath(ps[row.difficultyId], row.sortOrder);
    assert CategoryPaths(ps, cm[id := row]) == cs[id := x];
    SubcategoriesElsewhere(cs, id, x, sm);
  }

  lemma SubcategoriesElsewhere(cs: map<int, CategoryPath>, id: int, x: CategoryPath, sm: map<int, SubcategoryRow>)
    requires forall s :: s in sm ==> sm[s].categoryId != id
    ensures SubcategoryFacts(cs[id := x], sm) == SubcategoryFacts(cs, sm)
  {
    var f, g := SubcategoryFacts(cs, sm), SubcategoryFacts(cs[id := x], sm);
    assert forall s :: s in g <==> s in f;
    assert forall s :: s in g ==> g[s] == f[s];
  }

  lemma InsertCategoryView(t: Tables, id: int, row: CategoryRow)
    requires Valid(t) && row.difficultyId in t.difficulties && id !in t.categories && !CategoryConflict(t, row)
    ensures row.difficultyId in PathsOf(t)
    ensures var r := t.(categories := t.categories[id := row]);
            && Valid(r) && PathsOf(r) == PathsOf(t)
            && View(r) == View(t) + {FactOfCategory(PathsOf(t), row)}
            && (forall s :: s in r.subcategories ==> r.subcategories[s].categoryId != id)
  {
    hide Valid, PathsOf, BenchmarkFacts, DifficultyFacts, RankFacts, CategoryFacts, CategoryPaths, SubcategoryFacts, LinkFacts;
    hide CategoryConflict, FactOfCategory;
    InsertCategoryValid(t, id, row);
    CategoryFactsWith(PathsOf(t), t.categories, id, row);
    SubcategoryFactsUnaffected(PathsOf(t), t.categories, t.subcategories, id, row);
    ViewWith(t, FactOfCategory(PathsOf(t), row));
  }

  // subcategories

  ghost function FactOfSubcategory(ps: map<int, Path>, cm: map<int, CategoryRow>, row: SubcategoryRow): Fact
    requires row.categoryId in cm && cm[row.categoryId].difficultyId in ps
  {
    SubcategoryFact(
      ps[cm[row.categoryId].difficultyId], cm[row.categoryId].sortOrder,
      row.name, row.scenarioCount, row.color, row.sortOrder)
  }

  lemma InsertSubcategoryValid(t: Tables, id: int, row: SubcategoryRow)
    requires Valid(t) && row.categoryId in t.categories && id !in t.subcategories && !SubcategoryConflict(t, row)
    ensures t.categories[row.categoryId].difficultyId in PathsOf(t)
    ensures var r := t.(subcategories := t.subcategories[id := row]); Valid(r) && PathsOf(r) == PathsOf(t)
  {
    hide UniqueBenchmarks, UniqueScenarios, UniqueDifficulties, UniqueCategories;
  }

  lemma SubcategoryFactsWith(ps: map<int, Path>, cm: map<int, CategoryRow>, sm: map<int, SubcategoryRow>,
                             id: int, row: SubcategoryRow)
    requires row.categoryId in cm && cm[row.categoryId].difficultyId in ps && id !in sm
    ensures SubcategoryFacts(CategoryPaths(ps, cm), sm[id := row]).Values
         == SubcategoryFacts(CategoryPaths(ps, cm), sm).Values + {FactOfSubcategory(ps, cm, row)}
  {
    var cs, x := CategoryPaths(ps, cm), FactOfSubcategory(ps, cm, row);
    assert cs[row.categoryId] == CategoryPath(x.path, x.categoryOrder);
    assert SubcategoryFacts(cs, sm[id := row]) == SubcategoryFacts(cs, sm)[id := x];
    ValuesWith(SubcategoryFacts(cs, sm), id, x);
  }

  lemma InsertSubcategoryView(t: Tables, id: int, row: SubcategoryRow)
    requires Valid(t) && row.categoryId in t.categories && id !in t.subcategories && !SubcategoryConflict(t, row)
    ensures t.categories[row.categoryId].difficultyId in PathsOf(t)
    ensures var r := t.(subcategories := t.subcategories[id := row]);
            && Valid(r) && PathsOf(r) == PathsOf(t)
            && View(r) == View(t) + {FactOfSubcategory(PathsOf(t), t.categories, row)}
  {
    hide Valid, PathsOf, BenchmarkFacts, DifficultyFacts, RankFacts, CategoryFacts, CategoryPaths, SubcategoryFacts, LinkFacts;
    hide SubcategoryConflict, FactOfSubcategory;
    InsertSubcategoryValid(t, id, row);
    SubcategoryFactsWith(PathsOf(t), t.categories, t.subcategories, id, row);
    ViewWith(t, FactOfSubcategory(PathsOf(t), t.categories, row));
  }

  // links and scenarios

  ghost function FactOfLink(ps: map<int, Path>, scm: map<int, string>, key: LinkKey, row: LinkRow): Fact
    requires key.difficultyId in ps && key.scenarioId in scm
  {
    LinkFact(ps[key.difficultyId], scm[key.scenarioId], row)
  }

  lemma InsertLinkValid(t: Tables, key: LinkKey, row: LinkRow)
    requires Valid(t) && key.difficultyId in t.difficulties && key.scenarioId in t.scenarios
    ensures key.difficultyId in PathsOf(t)
    ensures var r := UpsertLink(t, key, row); Valid(r) && PathsOf(r) == PathsOf(t)
  {
    hide UniqueBenchmarks, UniqueScenarios, UniqueDifficulties, UniqueCategories, UniqueSubcategories;
  }

  lemma LinkFactsWith(ps: map<int, Path>, scm: map<int, string>, lm: map<LinkKey, LinkRow>, key: LinkKey, row: LinkRow)
    requires key.difficultyId in ps && key.scenarioId in scm && key !in lm
    ensures LinkFacts(ps, scm, lm[key := row]).Values
         == LinkFacts(ps, scm, lm).Values + {FactOfLink(ps, scm, key, row)}
  {
    var x := FactOfLink(ps, scm, key, row);
    assert LinkFacts(ps, scm, lm[key := row]) == LinkFacts(ps, scm, lm)[key := x];
    ValuesWith(LinkFacts(ps, scm, lm), key, x);
  }

  lemma InsertLinkView(t: Tables, key: LinkKey, row: LinkRow)
    requires Valid(t) && key.difficultyId in t.difficulties && key.scenarioId in t.scenarios && key !in t.links
    ensures key.difficultyId in PathsOf(t)
    ensures var r := UpsertLink(t, key, row);
            && Valid(r) && PathsOf(r) == PathsOf(t)
            && View(r) == View(t) + {FactOfLink(PathsOf(t), t.scenarios, key, row)}
  {
    hide Valid, PathsOf, BenchmarkFacts, DifficultyFacts, RankFacts, CategoryFacts, CategoryPaths, SubcategoryFacts, LinkFacts, FactOfLink;
    InsertLinkValid(t, key, row);
    LinkFactsWith(PathsOf(t), t.scenarios, t.links, key, row);
    ViewWith(t, FactOfLink(PathsOf(t), t.scenarios, key, row));
  }

  lemma EnsuredUnique(scm: map<int, string>, name: string, id: int)
    requires UniqueScenarios(scm) && EnsuresAt(scm, name, id)
    ensures UniqueScenarios(scm[id := name]) && forall s :: s in scm ==> scm[id := name][s] == scm[s]
  {
  }

  lemma SameLinkedScenarios(ps: map<int, Path>, scm: map<int, string>, scn: map<int, string>, lm: map<LinkKey, LinkRow>)
    requires forall k :: k in lm ==> k.scenarioId in scm
    requires forall s :: s in scm ==> s in scn && scn[s] == scm[s]
    ensures LinkFacts(ps, scn, lm) == LinkFacts(ps, scm, lm)
  {
    var f, g := LinkFacts(ps, scm, lm), LinkFacts(ps, scn, lm);
    forall k ensures k in g <==> k in f
             ensures k in g ==> g[k] == f[k]
    {
    }
  }

  lemma EnsureScenarioValid(t: Tables, name: string, id: int)
    requires Valid(t) && EnsuresAt(t.scenarios, name, id)
    ensures var r := t.(scenarios := t.scenarios[id := name]);
            Valid(r) && LinkFacts(PathsOf(t), r.scenarios, t.links) == LinkFacts(PathsOf(t), t.scenarios, t.links)
  {
    hide UniqueBenchmarks, UniqueScenarios, UniqueDifficulties, UniqueCategories, UniqueSubcategories;
    hide PathsOf, LinkFacts, EnsuresAt;
    EnsuredUnique(t.scenarios, name, id);
    SameLinkedScenarios(PathsOf(t), t.scenarios, t.scenarios[id := name], t.links);
  }

  lemma ScenariosDoNotMatter(t: Tables, scm: map<int, string>)
    ensures PathsOf(t.(scenarios := scm)) == PathsOf(t)
  {
  }

  lemma EnsureScenarioView(t: Tables, name: string, id: int)
    requires Valid(t) && EnsuresAt(t.scenarios, name, id)
    ensures var r := t.(scenarios := t.scenarios[id := name]);
            Valid(r) && PathsOf(r) == PathsOf(t) && View(r) == View(t)
  {
    hide Valid, PathsOf, BenchmarkFacts, DifficultyFacts, RankFacts, CategoryFacts, CategoryPaths, SubcategoryFacts, LinkFacts, EnsuresAt;
    EnsureScenarioValid(t, name, id);
    ScenariosDoNotMatter(t, t.scenarios[id := name]);
  }

  // difficulties

  lemma InsertDifficultyValid(t: Tables, id: int, row: DifficultyRow)
    requires Valid(t) && row.benchmarkId in t.benchmarks && id !in t.difficulties && !DifficultyConflict(t, row)
    ensures var r := t.(difficulties := t.difficulties[id := row]);
            && Valid(r)
            && PathsOf(r) == PathsOf(t)[id := Path(t.benchmarks[row.benchmarkId].name, row.kovaaksId)]
            && (forall k :: k in r.ranks ==> k.difficultyId != id)
            && (forall c :: c in r.categories ==> r.categories[c].difficultyId != id)
            && (forall k :: k in r.links ==> k.difficultyId != id)
  {
    hide UniqueBenchmarks, UniqueScenarios, UniqueCategories, UniqueSubcategories;
  }

  lemma DifficultyFactsWith(ps: map<int, Path>, dm: map<int, DifficultyRow>, id: int, row: DifficultyRow, path: Path)
    requires id !in dm
    ensures DifficultyFacts(ps[id := path], dm[id := row]).Values
         == DifficultyFacts(ps, dm).Values + {DifficultyFact(path, row.name, row.sharecode, row.sortOrder)}
  {
    var x := DifficultyFact(path, row.name, row.sharecode, row.sortOrder);
    assert DifficultyFacts(ps[id := path], dm[id := row]) == DifficultyFacts(ps, dm)[id := x];
    ValuesWith(DifficultyFacts(ps, dm), id, x);
  }

  lemma RankFactsUnaffected(ps: map<int, Path>, id: int, path: Path, rm: map<RankKey, RankRow>)
    requires forall k :: k in rm ==> k.difficultyId != id
    ensures RankFacts(ps[id := path], rm) == RankFacts(ps, rm)
  {
    var f, g := RankFacts(ps, rm), RankFacts(ps[id := path], rm);
    assert forall k :: k in g <==> k in f;
    assert forall k :: k in g ==> g[k] == f[k];
  }

  lemma LinkFactsUnaffected(ps: map<int, Path>, id: int, path: Path, scm: map<int, string>, lm: map<LinkKey, LinkRow>)
    requires forall k :: k in lm ==> k.difficultyId != id
    ensures LinkFacts(ps[id := path], scm, lm) == LinkFacts(ps, scm, lm)
  {
    var qs := ps[id := path];
    forall k | k in lm ensures k.difficultyId in qs <==> k.difficultyId in ps
                       ensures k.difficultyId in ps ==> qs[k.difficultyId] == ps[k.difficultyId]
    {
    }
    SameLinkFacts(ps, qs, scm, lm);
  }

  lemma SameLinkFacts(ps: map<int, Path>, qs: map<int, Path>, scm: map<int, string>, lm: map<LinkKey, LinkRow>)
    requires forall k :: k in lm ==> (k.difficultyId in qs <==> k.difficultyId in ps)
    requires forall k :: k in lm && k.difficultyId in ps ==> qs[k.difficultyId] == ps[k.difficultyId]
    ensures LinkFacts(qs, scm, lm) == LinkFacts(ps, scm, lm)
  {
    var f, g := LinkFacts(ps, scm, lm), LinkFacts(qs, scm, lm);
    forall k ensures k in g <==> k in f
             ensures k in g ==> g[k] == f[k]
    {
    }
  }

  lemma CategoryFactsUnaffected(ps: map<int, Path>, id: int, path: Path, cm: map<int, CategoryRow>)
    requires forall c :: c in cm ==> cm[c].difficultyId != id
    ensures CategoryFacts(ps[id := path], cm) == CategoryFacts(ps, cm)
  {
    var f, g := CategoryFacts(ps, cm), CategoryFacts(ps[id := path], cm);
    assert forall c :: c in g <==> c in f;
    assert forall c :: c in g ==> g[c] == f[c];
  }

  lemma CategoryPathsUnaffected(ps: map<int, Path>, id: int, path: Path, cm: map<int, CategoryRow>)
    requires forall c :: c in cm ==> cm[c].difficultyId != id
    ensures CategoryPaths(ps[id := path], cm) == CategoryPaths(ps, cm)
  {
    var f, g := CategoryPaths(ps, cm), CategoryPaths(ps[id := path], cm);
    assert forall c :: c in g <==> c in f;
    assert forall c :: c in g ==> g[c] == f[c];
  }

  lemma InsertDifficultyView(t: Tables, id: int, row: DifficultyRow)
    requires Valid(t) && row.benchmarkId in t.benchmarks && id !in t.difficulties && !DifficultyConflict(t, row)
    ensures var r, path := t.(difficulties := t.difficulties[id := row]),
                           Path(t.benchmarks[row.benchmarkId].name, row.kovaaksId);
            && Valid(r) && PathsOf(r) == PathsOf(t)[id := path]
            && View(r) == View(t) + {DifficultyFact(path, row.name, row.sharecode, row.sortOrder)}
            && (forall k :: k in r.ranks ==> k.difficultyId != id)
            && (forall c :: c in r.categories ==> r.categories[c].difficultyId != id)
            && (forall k :: k in r.links ==> k.difficultyId != id)
  {
    hide Valid, PathsOf, BenchmarkFacts, DifficultyFacts, RankFacts, CategoryFacts, CategoryPaths, SubcategoryFacts, LinkFacts;
    hide DifficultyConflict;
    var path := Path(t.benchmarks[row.benchmarkId].name, row.kovaaksId);
    InsertDifficultyValid(t, id, row);
    DifficultyFactsWith(PathsOf(t), t.difficulties, id, row, path);
    RankFactsUnaffected(PathsOf(t), id, path, t.ranks);
    LinkFactsUnaffected(PathsOf(t), id, path, t.scenarios, t.links);
    CategoryFactsUnaffected(PathsOf(t), id, path, t.categories);
    CategoryPathsUnaffected(PathsOf(t), id, path, t.categories);
    ViewWith(t, DifficultyFact(path, row.name, row.sharecode, row.sortOrder));
  }
}
