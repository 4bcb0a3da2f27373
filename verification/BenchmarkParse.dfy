/** `parseBenchmarks` (behind the JSON decoder) and `enrichBenchmarks`, which change the tree in place. */
module Parsing {
  import opened Common
  import opened BenchmarkSource
  import opened Merging
  import opened Placement

  datatype ParseError =
    | NoBenchmarks
    | EmptyBenchmarkName
    | DuplicateBenchmarkName
    | EmptyDifficultyName
    | InvalidKovaaksId
    | DuplicateKovaaksId
    | NegativeScenarioCount

  // ---- trimming ----

  function TrimSubcategory(s: Subcategory): Subcategory {
    Subcategory(Trim(s.subcategoryName), s.scenarioCount, Trim(s.color))
  }

  function TrimCategory(c: Category): Category {
    Category(Trim(c.categoryName), Trim(c.color), MapSeq(TrimSubcategory, c.subcategories))
  }

  function TrimDifficulty(d: Difficulty): Difficulty {
    d.(difficultyName := Trim(d.difficultyName), sharecode := Trim(d.sharecode),
       categories := MapSeq(TrimCategory, d.categories))
  }

  function TrimBenchmark(b: Benchmark): Benchmark {
    Benchmark(
      Trim(b.benchmarkName), Trim(b.rankCalculation), Trim(b.abbreviation), Trim(b.color),
      Trim(b.spreadsheetUrl), Trim(b.dateAdded), MapSeq(TrimDifficulty, b.difficulties))
  }

  function MapSeq<T, U>(f: T -> U, xs: seq<T>): (r: seq<U>)
    ensures |r| == |xs| && forall i :: 0 <= i < |xs| ==> r[i] == f(xs[i])
  {
    seq(|xs|, i requires 0 <= i < |xs| => f(xs[i]))
  }

  // ---- what is accepted ----

  predicate CountsOk(d: Difficulty) {
    forall k, m :: 0 <= k < |d.categories| && 0 <= m < |d.categories[k].subcategories| ==>
      d.categories[k].subcategories[m].scenarioCount >= 0
  }

  predicate DifficultyOk(d: Difficulty) {
    d.difficultyName != "" && d.kovaaksBenchmarkId > 0 && CountsOk(d)
  }

  function Ids(ds: seq<Difficulty>): set<int> {
    set j | 0 <= j < |ds| :: ds[j].kovaaksBenchmarkId as int
  }

  function AllIds(bs: seq<Benchmark>): set<int> {
    if bs == [] then {} else AllIds(bs[..|bs| - 1]) + Ids(bs[|bs| - 1].difficulties)
  }

  function Names(bs: seq<Benchmark>): set<string> {
    set i | 0 <= i < |bs| :: bs[i].benchmarkName
  }

  /** Difficulties in order, none of whose ids is among `seen` or repeated. */
  predicate DifficultiesOk(ds: seq<Difficulty>, seen: set<int>) {
    && (forall j :: 0 <= j < |ds| ==> DifficultyOk(ds[j]) && ds[j].kovaaksBenchmarkId !in seen)
    && (forall j, k :: 0 <= j < k < |ds| ==> ds[j].kovaaksBenchmarkId != ds[k].kovaaksBenchmarkId)
  }

  predicate BenchmarksOk(bs: seq<Benchmark>) {
    bs == [] ||
    (var front, last := bs[..|bs| - 1], bs[|bs| - 1];
     && BenchmarksOk(front)
     && last.benchmarkName != "" && last.benchmarkName !in Names(front)
     && DifficultiesOk(last.difficulties, AllIds(front)))
  }

  /** The accepted trees, said all at once: names not empty and all different, difficulties named and with positive
      ids that are all different across the tree, and no negative count. */
  ghost predicate Accepted(bs: seq<Benchmark>) {
    && (forall i :: 0 <= i < |bs| ==> bs[i].benchmarkName != "")
    && (forall i, k :: 0 <= i < k < |bs| ==> bs[i].benchmarkName != bs[k].benchmarkName)
    && (forall i :: 0 <= i < |bs| ==> DifficultiesOk(bs[i].difficulties, {}))
    && (forall i, k :: 0 <= i < k < |bs| ==> Ids(bs[i].difficulties) !! Ids(bs[k].difficulties))
  }

  lemma {:induction false} AllIdsUnion(bs: seq<Benchmark>, id: int)
    ensures id in AllIds(bs) <==> exists i :: 0 <= i < |bs| && id in Ids(bs[i].difficulties)
  {
    hide Ids;
    if bs != [] {
      var front := bs[..|bs| - 1];
      AllIdsUnion(front, id);
      if i :| 0 <= i < |bs| && id in Ids(bs[i].difficulties) && i < |front| {
        assert id in Ids(front[i].difficulties);
      }
    }
  }

  lemma DifficultiesOkSplit(ds: seq<Difficulty>, seen: set<int>)
    ensures DifficultiesOk(ds, seen) <==> DifficultiesOk(ds, {}) && Ids(ds) !! seen
  {
    hide DifficultyOk;
    if DifficultiesOk(ds, {}) && Ids(ds) !! seen {
      forall j | 0 <= j < |ds| ensures ds[j].kovaaksBenchmarkId !in seen {
        assert ds[j].kovaaksBenchmarkId in Ids(ds);
      }
    }
  }

  /** Checking each benchmark against the ones before it accepts exactly those trees. */
  lemma {:induction false} OkIsAccepted(bs: seq<Benchmark>)
    ensures BenchmarksOk(bs) <==> Accepted(bs)
  {
    hide DifficultiesOk, Ids;
    if bs != [] {
      var n := |bs| - 1;
      var front, last := bs[..n], bs[n];
      OkIsAccepted(front);
      DifficultiesOkSplit(last.difficulties, AllIds(front));
      assert Ids(last.difficulties) !! AllIds(front) <==>
             forall i :: 0 <= i < n ==> Ids(bs[i].difficulties) !! Ids(last.difficulties) by {
        forall id { AllIdsUnion(front, id); }
        assert forall i :: 0 <= i < n ==> front[i] == bs[i];
        if Ids(last.difficulties) !! AllIds(front) {
          forall i | 0 <= i < n ensures Ids(bs[i].difficulties) !! Ids(last.difficulties) {
            forall id | id in Ids(bs[i].difficulties) ensures id in AllIds(front) {
              assert id in Ids(front[i].difficulties);
            }
          }
        }
      }
      assert forall i :: 0 <= i < n ==> front[i] == bs[i];
      assert last.benchmarkName !in Names(front) <==> forall i :: 0 <= i < n ==> bs[i].benchmarkName != last.benchmarkName;
      AcceptedSplit(bs);
    }
  }

  lemma AcceptedSplit(bs: seq<Benchmark>)
    requires bs != []
    ensures var n := |bs| - 1;
            Accepted(bs) <==>
            && Accepted(bs[..n]) && bs[n].benchmarkName != ""
            && (forall i :: 0 <= i < n ==> bs[i].benchmarkName != bs[n].benchmarkName)
            && DifficultiesOk(bs[n].difficulties, {})
            && (forall i :: 0 <= i < n ==> Ids(bs[i].difficulties) !! Ids(bs[n].difficulties))
  {
    hide DifficultiesOk, Ids;
    assert forall i :: 0 <= i < |bs| - 1 ==> bs[..|bs| - 1][i] == bs[i];
  }

  lemma {:induction false} BenchmarksOkPrefix(bs: seq<Benchmark>, n: nat)
    requires n <= |bs| && BenchmarksOk(bs)
    ensures BenchmarksOk(bs[..n])
  {
    if n < |bs| {
      BenchmarksOkPrefix(bs[..|bs| - 1], n);
      assert bs[..|bs| - 1][..n] == bs[..n];
    } else {
      assert bs[..n] == bs;
    }
  }

  // ---- which error is reported: the first fault in document order ----

  /** The first test that a difficulty fails. */
  ghost predicate DifficultyFault(d: Difficulty, seen: set<int>, e: ParseError) {
    && !(DifficultyOk(d) && d.kovaaksBenchmarkId !in seen)
    && e == if d.difficultyName == "" then EmptyDifficultyName
            else if d.kovaaksBenchmarkId <= 0 then InvalidKovaaksId
            else if d.kovaaksBenchmarkId in seen then DuplicateKovaaksId
            else NegativeScenarioCount
  }

  ghost predicate FirstFault(ds: seq<Difficulty>, seen: set<int>, e: ParseError) {
    exists j :: 0 <= j < |ds| && FaultAt(ds, seen, j, e)
  }

  ghost predicate FaultAt(ds: seq<Difficulty>, seen: set<int>, j: nat, e: ParseError)
    requires j < |ds|
  {
    DifficultiesOk(ds[..j], seen) && DifficultyFault(ds[j], seen + Ids(ds[..j]), e)
  }

  ghost predicate BenchmarkFault(b: Benchmark, names: set<string>, seen: set<int>, e: ParseError) {
    if b.benchmarkName == "" then e == EmptyBenchmarkName
    else if b.benchmarkName in names then e == DuplicateBenchmarkName
    else FirstFault(b.difficulties, seen, e)
  }

  ghost predicate TreeFault(bs: seq<Benchmark>, e: ParseError) {
    if bs == [] then e == NoBenchmarks else exists i :: 0 <= i < |bs| && TreeFaultAt(bs, i, e)
  }

  ghost predicate TreeFaultAt(bs: seq<Benchmark>, i: nat, e: ParseError)
    requires i < |bs|
  {
    BenchmarksOk(bs[..i]) && BenchmarkFault(bs[i], Names(bs[..i]), AllIds(bs[..i]), e)
  }

  // ---- parsing ----

  method ParseCategories(cats: seq<Category>) returns (r: Result<seq<Category>, ParseError>)
    ensures r.Ok? <==> forall k, m :: 0 <= k < |cats| && 0 <= m < |cats[k].subcategories| ==>
                         cats[k].subcategories[m].scenarioCount >= 0
    ensures r.Ok? ==> r.value == MapSeq(TrimCategory, cats)
    ensures r.Err? ==> r.error == NegativeScenarioCount
  {
    hide Trim;
    var out: seq<Category> := cats;
    for k := 0 to |cats|
      invariant |out| == |cats|
      invariant forall i :: 0 <= i < k ==> out[i] == TrimCategory(cats[i])
      invariant forall i :: k <= i < |cats| ==> out[i] == cats[i]
      invariant forall i, m :: 0 <= i < k && 0 <= m < |cats[i].subcategories| ==>
                  cats[i].subcategories[m].scenarioCount >= 0
    {
      var subs := cats[k].subcategories;
      for m := 0 to |subs|
        invariant |subs| == |cats[k].subcategories|
        invariant forall i :: 0 <= i < m ==> subs[i] == TrimSubcategory(cats[k].subcategories[i])
        invariant forall i :: m <= i < |subs| ==> subs[i] == cats[k].subcategories[i]
        invariant forall i :: 0 <= i < m ==> cats[k].subcategories[i].scenarioCount >= 0
      {
        subs := subs[m := TrimSubcategory(subs[m])];
        if subs[m].scenarioCount < 0 {
          return Err(NegativeScenarioCount);
        }
      }
      assert subs == MapSeq(TrimSubcategory, cats[k].subcategories);
      out := out[k := Category(Trim(cats[k].categoryName), Trim(cats[k].color), subs)];
    }
    assert out == MapSeq(TrimCategory, cats);
    return Ok(out);
  }

  lemma TrimKeepsCounts(d: Difficulty)
    ensures CountsOk(TrimDifficulty(d)) <==> CountsOk(d)
  {
    hide Trim;
    var t := TrimDifficulty(d);
    forall k | 0 <= k < |d.categories|
      ensures t.categories[k] == TrimCategory(d.categories[k])
    {
    }
    forall k, m | 0 <= k < |d.categories| && 0 <= m < |d.categories[k].subcategories|
      ensures t.categories[k].subcategories[m].scenarioCount == d.categories[k].subcategories[m].scenarioCount
    {
      assert t.categories[k].subcategories[m] == TrimSubcategory(d.categories[k].subcategories[m]);
    }
  }

  method ParseDifficulty(d: Difficulty, seen: map<int, string>) returns (r: Result<Difficulty, ParseError>)
    ensures var t := TrimDifficulty(d);
            && (r.Ok? <==> DifficultyOk(t) && t.kovaaksBenchmarkId !in seen)
            && (r.Ok? ==> r.value == t)
            && (r.Err? ==> DifficultyFault(t, seen.Keys, r.error))
  {
    TrimKeepsCounts(d);
    hide Trim;
    var name, sharecode := Trim(d.difficultyName), Trim(d.sharecode);
    if name == "" {
      return Err(EmptyDifficultyName);
    }
    if d.kovaaksBenchmarkId <= 0 {
      return Err(InvalidKovaaksId);
    }
    if d.kovaaksBenchmarkId in seen {
      return Err(DuplicateKovaaksId);
    }
    var cats :- ParseCategories(d.categories);
    return Ok(d.(difficultyName := name, sharecode := sharecode, categories := cats));
  }

  method ParseDifficulties(ds: seq<Difficulty>, seen: map<int, string>, benchmarkName: string)
    returns (r: Result<(seq<Difficulty>, map<int, string>), ParseError>)
    ensures var ts := MapSeq(TrimDifficulty, ds);
            && (r.Ok? <==> DifficultiesOk(ts, seen.Keys))
            && (r.Err? ==> FirstFault(ts, seen.Keys, r.error))
            && (r.Ok? ==> r.value.0 == ts && r.value.1.Keys == seen.Keys + Ids(ts))
  {
    hide TrimDifficulty, DifficultyOk, DifficultiesOk, Ids, DifficultyFault;
    var out, owners := ds, seen;
    ghost var ts := MapSeq(TrimDifficulty, ds);
    NoDifficulties(seen.Keys);
    for j := 0 to |ds|
      invariant |out| == |ds| && (forall i :: 0 <= i < j ==> out[i] == ts[i]) && (forall i :: j <= i < |ds| ==> out[i] == ds[i])
      invariant DifficultiesOk(ts[..j], seen.Keys)
      invariant owners.Keys == seen.Keys + Ids(ts[..j])
    {
      var parsed := ParseDifficulty(ds[j], owners);
      IdsStep(ts, j);
      DifficultiesOkStep(ts, seen.Keys, j);
      if parsed.Err? {
        assert FaultAt(ts, seen.Keys, j, parsed.error);
        return Err(parsed.error);
      }
      out := out[j := parsed.value];
      owners := owners[parsed.value.kovaaksBenchmarkId := benchmarkName + "/" + parsed.value.difficultyName];
    }
    assert ts[..|ds|] == ts && out == ts;
    return Ok((out, owners));
  }

  lemma NoDifficulties(seen: set<int>)
    ensures DifficultiesOk([], seen) && Ids([]) == {}
  {
  }

  lemma DifficultiesOkStep(ds: seq<Difficulty>, seen: set<int>, j: nat)
    requires j < |ds|
    ensures DifficultiesOk(ds[..j + 1], seen) <==>
            DifficultiesOk(ds[..j], seen) && DifficultyOk(ds[j]) && ds[j].kovaaksBenchmarkId !in seen + Ids(ds[..j])
    ensures DifficultiesOk(ds, seen) ==> DifficultiesOk(ds[..j + 1], seen)
  {
    hide DifficultyOk;
    var before := ds[..j];
    assert forall i :: 0 <= i < j ==> ds[..j + 1][i] == before[i] == ds[i];
    assert ds[..j + 1][j] == ds[j];
    assert ds[j].kovaaksBenchmarkId in Ids(before) <==>
           exists i :: 0 <= i < j && before[i].kovaaksBenchmarkId == ds[j].kovaaksBenchmarkId;
  }

  lemma IdsStep(ds: seq<Difficulty>, j: nat)
    requires j < |ds|
    ensures Ids(ds[..j + 1]) == Ids(ds[..j]) + {ds[j].kovaaksBenchmarkId as int}
    ensures forall i :: 0 <= i < j ==> ds[i].kovaaksBenchmarkId in Ids(ds[..j])
  {
    forall id | id in Ids(ds[..j]) ensures id in Ids(ds[..j + 1]) {
      var i :| 0 <= i < j && ds[..j][i].kovaaksBenchmarkId == id;
      assert ds[..j + 1][i] == ds[i];
    }
    assert ds[..j + 1][j] == ds[j];
    forall i | 0 <= i < j ensures ds[i].kovaaksBenchmarkId in Ids(ds[..j]) {
      assert ds[..j][i] == ds[i];
    }
  }

  // ---- the same, said field by field ----

  ghost predicate TrimmedSubcategory(t: Subcategory, s: Subcategory) {
    t.subcategoryName == Trim(s.subcategoryName) && t.color == Trim(s.color) && t.scenarioCount == s.scenarioCount
  }

  ghost predicate TrimmedCategory(t: Category, c: Category) {
    && t.categoryName == Trim(c.categoryName) && t.color == Trim(c.color)
    && |t.subcategories| == |c.subcategories|
    && forall m :: 0 <= m < |c.subcategories| ==> TrimmedSubcategory(t.subcategories[m], c.subcategories[m])
  }

  ghost predicate TrimmedDifficulty(t: Difficulty, d: Difficulty) {
    && t.difficultyName == Trim(d.difficultyName) && t.sharecode == Trim(d.sharecode)
    && t.kovaaksBenchmarkId == d.kovaaksBenchmarkId && t.rankColors == d.rankColors
    && t.mergedScenarios == d.mergedScenarios && t.mergedRanks == d.mergedRanks
    && |t.categories| == |d.categories|
    && forall k :: 0 <= k < |d.categories| ==> TrimmedCategory(t.categories[k], d.categories[k])
  }

  /** Every text is the text of the same name with the white space around it gone; numbers stay. */
  ghost predicate Trimmed(t: Benchmark, b: Benchmark) {
    && t.benchmarkName == Trim(b.benchmarkName) && t.abbreviation == Trim(b.abbreviation)
    && t.rankCalculation == Trim(b.rankCalculation) && t.color == Trim(b.color)
    && t.spreadsheetUrl == Trim(b.spreadsheetUrl) && t.dateAdded == Trim(b.dateAdded)
    && |t.difficulties| == |b.difficulties|
    && forall j :: 0 <= j < |b.difficulties| ==> TrimmedDifficulty(t.difficulties[j], b.difficulties[j])
  }

  lemma TrimsCategory(c: Category)
    ensures TrimmedCategory(TrimCategory(c), c)
  {
    hide Trim;
  }

  lemma TrimsDifficulty(d: Difficulty)
    ensures TrimmedDifficulty(TrimDifficulty(d), d)
  {
    hide Trim, TrimmedCategory, TrimCategory;
    forall k | 0 <= k < |d.categories| ensures TrimmedCategory(TrimDifficulty(d).categories[k], d.categories[k]) {
      TrimsCategory(d.categories[k]);
    }
  }

  lemma Trims(b: Benchmark)
    ensures Trimmed(TrimBenchmark(b), b)
  {
    hide Trim, TrimmedDifficulty, TrimDifficulty;
    forall j | 0 <= j < |b.difficulties| ensures TrimmedDifficulty(TrimBenchmark(b).difficulties[j], b.difficulties[j]) {
      TrimsDifficulty(b.difficulties[j]);
    }
  }

  lemma TrimmedSubcategories(ts: seq<Subcategory>, ss: seq<Subcategory>)
    requires |ts| == |ss| && forall m :: 0 <= m < |ss| ==> TrimmedSubcategory(ts[m], ss[m])
    ensures ts == MapSeq(TrimSubcategory, ss)
  {
    hide Trim;
  }

  lemma TrimmedCategories(ts: seq<Category>, cs: seq<Category>)
    requires |ts| == |cs| && forall k :: 0 <= k < |cs| ==> TrimmedCategory(ts[k], cs[k])
    ensures ts == MapSeq(TrimCategory, cs)
  {
    hide Trim, TrimmedSubcategory, TrimSubcategory;
    forall k | 0 <= k < |cs| ensures ts[k] == TrimCategory(cs[k]) {
      TrimmedSubcategories(ts[k].subcategories, cs[k].subcategories);
    }
  }

  lemma TrimmedDifficulties(ts: seq<Difficulty>, ds: seq<Difficulty>)
    requires |ts| == |ds| && forall j :: 0 <= j < |ds| ==> TrimmedDifficulty(ts[j], ds[j])
    ensures ts == MapSeq(TrimDifficulty, ds)
  {
    hide Trim, TrimmedCategory, TrimCategory;
    forall j | 0 <= j < |ds| ensures ts[j] == TrimDifficulty(ds[j]) {
      TrimmedCategories(ts[j].categories, ds[j].categories);
    }
  }

  /** A benchmark has one trimmed form. */
  lemma TrimmedOnce(t: Benchmark, b: Benchmark)
    ensures Trimmed(t, b) <==> t == TrimBenchmark(b)
  {
    hide Trim, TrimmedDifficulty, TrimDifficulty;
    if Trimmed(t, b) {
      TrimmedDifficulties(t.difficulties, b.difficulties);
    }
    Trims(b);
  }

  ghost predicate IsDifficultyOf(bs: seq<Benchmark>, i: int, j: int) {
    0 <= i < |bs| && 0 <= j < |bs[i].difficulties|
  }

  /** The id of a difficulty before the j-th one of benchmark `i` in the document. */
  ghost predicate EarlierId(bs: seq<Benchmark>, i: int, j: int, id: int) {
    exists k, l :: IsDifficultyOf(bs, k, l) && (k < i || (k == i && l < j)) && bs[k].difficulties[l].kovaaksBenchmarkId == id
  }

  ghost predicate NegativeCount(d: Difficulty) {
    exists k, m :: 0 <= k < |d.categories| && 0 <= m < |d.categories[k].subcategories|
                   && d.categories[k].subcategories[m].scenarioCount < 0
  }

  ghost predicate SoundName(bs: seq<Benchmark>, i: int) {
    0 <= i < |bs| && bs[i].benchmarkName != "" && forall k :: 0 <= k < i ==> bs[k].benchmarkName != bs[i].benchmarkName
  }

  ghost predicate SoundDifficulty(bs: seq<Benchmark>, i: int, j: int) {
    IsDifficultyOf(bs, i, j) && var d := bs[i].difficulties[j];
    d.difficultyName != "" && d.kovaaksBenchmarkId > 0 && !EarlierId(bs, i, j, d.kovaaksBenchmarkId) && !NegativeCount(d)
  }

  /** Nothing is wrong with the first `n` benchmarks: no name empty or used before, and no difficulty unnamed, with an id
      that is not positive or has been used before, or with a negative count. */
  ghost predicate Sound(bs: seq<Benchmark>, n: int) {
    forall i :: 0 <= i < n ==> SoundName(bs, i) && SoundDifficulties(bs, i, |bs[i].difficulties|)
  }

  ghost predicate SoundDifficulties(bs: seq<Benchmark>, i: int, n: int) {
    forall j :: 0 <= j < n ==> SoundDifficulty(bs, i, j)
  }

  /** Everything before benchmark `i` is sound, and its name is not. */
  ghost predicate BadName(bs: seq<Benchmark>, i: int, e: ParseError) {
    && 0 <= i < |bs| && Sound(bs, i) && !SoundName(bs, i)
    && e == if bs[i].benchmarkName == "" then EmptyBenchmarkName else DuplicateBenchmarkName
  }

  /** Everything before the j-th difficulty of benchmark `i` is sound, and it is not. */
  ghost predicate BadDifficulty(bs: seq<Benchmark>, i: int, j: int, e: ParseError) {
    && IsDifficultyOf(bs, i, j) && Sound(bs, i) && SoundName(bs, i) && SoundDifficulties(bs, i, j)
    && !SoundDifficulty(bs, i, j)
    && var d := bs[i].difficulties[j];
       e == if d.difficultyName == "" then EmptyDifficultyName
            else if d.kovaaksBenchmarkId <= 0 then InvalidKovaaksId
            else if EarlierId(bs, i, j, d.kovaaksBenchmarkId) then DuplicateKovaaksId
            else NegativeScenarioCount
  }

  /** What is wrong with a tree, at the first place in the document where anything is. */
  ghost predicate FirstWrong(bs: seq<Benchmark>, e: ParseError) {
    if bs == [] then e == NoBenchmarks
    else (exists i :: BadName(bs, i, e)) || (exists i, j :: BadDifficulty(bs, i, j, e))
  }

  lemma IdsBefore(bs: seq<Benchmark>, i: nat, j: nat, id: int)
    requires i < |bs| && j <= |bs[i].difficulties|
    ensures EarlierId(bs, i, j, id) <==> id in AllIds(bs[..i]) + Ids(bs[i].difficulties[..j])
  {
    var front, ds := bs[..i], bs[i].difficulties[..j];
    AllIdsUnion(front, id);
    if k, l :| IsDifficultyOf(bs, k, l) && (k < i || (k == i && l < j)) && bs[k].difficulties[l].kovaaksBenchmarkId == id {
      if k < i {
        assert front[k] == bs[k] && id in Ids(front[k].difficulties);
      } else {
        assert ds[l].kovaaksBenchmarkId == id;
      }
    }
    if k :| 0 <= k < |front| && id in Ids(front[k].difficulties) {
      var l :| 0 <= l < |front[k].difficulties| && front[k].difficulties[l].kovaaksBenchmarkId == id;
      assert IsDifficultyOf(bs, k, l);
    }
    if l :| 0 <= l < |ds| && ds[l].kovaaksBenchmarkId == id {
      assert IsDifficultyOf(bs, i, l) && bs[i].difficulties[l].kovaaksBenchmarkId == id;
    }
  }

  lemma SoundDifficultyMeans(bs: seq<Benchmark>, i: nat, j: nat)
    requires IsDifficultyOf(bs, i, j)
    ensures var d := bs[i].difficulties[j];
            SoundDifficulty(bs, i, j) <==>
            DifficultyOk(d) && d.kovaaksBenchmarkId !in AllIds(bs[..i]) + Ids(bs[i].difficulties[..j])
  {
    hide Ids, AllIds;
    IdsBefore(bs, i, j, bs[i].difficulties[j].kovaaksBenchmarkId);
  }

  lemma {:induction false} SoundDifficultiesMeans(bs: seq<Benchmark>, i: nat, n: nat)
    requires i < |bs| && n <= |bs[i].difficulties|
    ensures SoundDifficulties(bs, i, n) <==> DifficultiesOk(bs[i].difficulties[..n], AllIds(bs[..i]))
  {
    hide SoundDifficulty, DifficultyOk, Ids, AllIds, DifficultiesOk;
    NoDifficulties(AllIds(bs[..i]));
    if n > 0 {
      SoundDifficultiesMeans(bs, i, n - 1);
      SoundDifficultyMeans(bs, i, n - 1);
      DifficultiesOkStep(bs[i].difficulties, AllIds(bs[..i]), n - 1);
    }
  }

  lemma SoundNameMeans(bs: seq<Benchmark>, i: nat)
    requires i < |bs|
    ensures SoundName(bs, i) <==> bs[i].benchmarkName != "" && bs[i].benchmarkName !in Names(bs[..i])
  {
    forall k | 0 <= k < i ensures bs[..i][k] == bs[k] {
    }
  }

  lemma {:induction false} SoundMeans(bs: seq<Benchmark>, n: nat)
    requires n <= |bs|
    ensures Sound(bs, n) <==> BenchmarksOk(bs[..n])
  {
    hide SoundName, SoundDifficulties, DifficultiesOk, Names, AllIds, Ids;
    if n > 0 {
      SoundMeans(bs, n - 1);
      BenchmarksOkStep(bs, n - 1);
      SoundNameMeans(bs, n - 1);
      SoundDifficultiesMeans(bs, n - 1, |bs[n - 1].difficulties|);
      assert bs[n - 1].difficulties[..|bs[n - 1].difficulties|] == bs[n - 1].difficulties;
    }
  }

  /** The accepted trees are the sound ones. */
  lemma AcceptedIsSound(bs: seq<Benchmark>)
    ensures Accepted(bs) <==> Sound(bs, |bs|)
  {
    hide Accepted, Sound, BenchmarksOk;
    OkIsAccepted(bs);
    SoundMeans(bs, |bs|);
    assert bs[..|bs|] == bs;
  }

  lemma FaultIsBad(bs: seq<Benchmark>, i: nat, e: ParseError)
    requires i < |bs| && TreeFaultAt(bs, i, e)
    ensures BadName(bs, i, e) || exists j :: BadDifficulty(bs, i, j, e)
  {
    hide SoundName, SoundDifficulty, SoundDifficulties, DifficultiesOk, Names, AllIds, Ids, Sound, BenchmarksOk, DifficultyOk, EarlierId;
    SoundMeans(bs, i);
    SoundNameMeans(bs, i);
    var ds, seen := bs[i].difficulties, AllIds(bs[..i]);
    if SoundName(bs, i) {
      var j :| 0 <= j < |ds| && FaultAt(ds, seen, j, e);
      SoundDifficultyMeans(bs, i, j);
      SoundDifficultiesMeans(bs, i, j);
      IdsBefore(bs, i, j, ds[j].kovaaksBenchmarkId);
      assert BadDifficulty(bs, i, j, e);
    }
  }

  /** The error reported is what is wrong first. */
  lemma FaultIsFirstWrong(bs: seq<Benchmark>, e: ParseError)
    requires TreeFault(bs, e)
    ensures FirstWrong(bs, e)
  {
    hide TreeFaultAt, BadName, BadDifficulty;
    if bs != [] {
      var i :| 0 <= i < |bs| && TreeFaultAt(bs, i, e);
      FaultIsBad(bs, i, e);
    }
  }

  ghost predicate AllTrimmed(ts: seq<Benchmark>, bs: seq<Benchmark>) {
    |ts| == |bs| && forall i :: 0 <= i < |bs| ==> Trimmed(ts[i], bs[i])
  }

  /** Either the tree is trimmed, not empty and sound, or the error is what is wrong first with the trimmed tree. */
  ghost predicate ParseSays(was: seq<Benchmark>, now: seq<Benchmark>, r: Result<(), ParseError>) {
    match r
    case Ok(_) => AllTrimmed(now, was) && now != [] && Sound(now, |now|)
    case Err(e) => exists ts :: AllTrimmed(ts, was) && FirstWrong(ts, e)
  }

  lemma WhatParseSays(was: seq<Benchmark>, now: seq<Benchmark>, r: Result<(), ParseError>)
    requires var ts := MapSeq(TrimBenchmark, was);
             if r.Ok? then ts != [] && Accepted(ts) && now == ts else TreeFault(ts, r.error)
    ensures ParseSays(was, now, r)
  {
    hide Accepted, TreeFault, FirstWrong, Sound, TrimBenchmark, Trimmed;
    var ts := MapSeq(TrimBenchmark, was);
    forall i | 0 <= i < |was| ensures Trimmed(ts[i], was[i]) {
      Trims(was[i]);
    }
    AcceptedIsSound(ts);
    if r.Err? {
      FaultIsFirstWrong(ts, r.error);
      assert AllTrimmed(ts, was);
    }
  }

  lemma FaultFound(ts: seq<Benchmark>, i: nat, e: ParseError)
    requires i < |ts| && TreeFaultAt(ts, i, e)
    ensures TreeFault(ts, e)
  {
    hide TreeFaultAt;
  }

  lemma NothingFound(ts: seq<Benchmark>)
    requires ts == []
    ensures TreeFault(ts, NoBenchmarks)
  {
  }

  /** `parseBenchmarks`: the tree is trimmed in place, and accepted exactly when it is not empty and fit to sync;
      the error otherwise is the first fault in document order. */
  method ParseBenchmarks(benchmarks: array<Benchmark>) returns (r: Result<(), ParseError>)
    modifies benchmarks
    ensures var ts := MapSeq(TrimBenchmark, old(benchmarks[..]));
            && (r.Ok? <==> ts != [] && Accepted(ts))
            && (r.Ok? ==> benchmarks[..] == ts)
            && (r.Err? ==> TreeFault(ts, r.error))
    ensures ParseSays(old(benchmarks[..]), benchmarks[..], r)
  {
    hide ParseSays, TreeFault;
    hide TrimBenchmark, DifficultiesOk, Ids, Accepted, BenchmarksOk, AllIds, Names, BenchmarkFault;
    ghost var ts := MapSeq(TrimBenchmark, benchmarks[..]);
    OkIsAccepted(ts);
    if benchmarks.Length == 0 {
      NothingFound(ts);
      WhatParseSays(old(benchmarks[..]), benchmarks[..], Err(NoBenchmarks));
      return Err(NoBenchmarks);
    }
    var seenNames: set<string>, seenIds: map<int, string> := {}, map[];
    NoBenchmarksYet();
    for i := 0 to benchmarks.Length
      invariant forall k :: 0 <= k < i ==> benchmarks[k] == ts[k]
      invariant forall k :: i <= k < benchmarks.Length ==> benchmarks[k] == old(benchmarks[k])
      invariant BenchmarksOk(ts[..i]) && seenNames == Names(ts[..i]) && seenIds.Keys == AllIds(ts[..i])
    {
      ghost var t := ts[i];
      assert t == TrimBenchmark(benchmarks[i]);
      BenchmarksOkStep(ts, i);
      var parsed := ParseBenchmark(benchmarks[i], seenNames, seenIds);
      if parsed.Err? {
        if BenchmarksOk(ts) {
          BenchmarksOkPrefix(ts, i + 1);
        }
        FaultFound(ts, i, parsed.error);
        WhatParseSays(old(benchmarks[..]), benchmarks[..], Err(parsed.error));
        return Err(parsed.error);
      }
      benchmarks[i] := parsed.value.0;
      seenNames := seenNames + {parsed.value.0.benchmarkName};
      seenIds := parsed.value.1;
      NamesStep(ts, i);
    }
    assert ts[..|ts|] == ts && benchmarks[..] == ts;
    WhatParseSays(old(benchmarks[..]), benchmarks[..], Ok(()));
    return Ok(());
  }

  lemma NoBenchmarksYet()
    ensures BenchmarksOk([]) && Names([]) == {} && AllIds([]) == {}
  {
  }

  lemma BenchmarksOkStep(bs: seq<Benchmark>, i: nat)
    requires i < |bs|
    ensures BenchmarksOk(bs[..i + 1]) <==>
            && BenchmarksOk(bs[..i])
            && bs[i].benchmarkName != "" && bs[i].benchmarkName !in Names(bs[..i])
            && DifficultiesOk(bs[i].difficulties, AllIds(bs[..i]))
    ensures AllIds(bs[..i + 1]) == AllIds(bs[..i]) + Ids(bs[i].difficulties)
  {
    hide DifficultiesOk, Ids, Names;
    assert bs[..i + 1][..i] == bs[..i];
  }

  lemma NamesStep(bs: seq<Benchmark>, i: nat)
    requires i < |bs|
    ensures Names(bs[..i + 1]) == Names(bs[..i]) + {bs[i].benchmarkName}
  {
    forall n | n in Names(bs[..i]) ensures n in Names(bs[..i + 1]) {
      var k :| 0 <= k < i && bs[..i][k].benchmarkName == n;
      assert bs[..i + 1][k] == bs[k];
    }
    assert bs[..i + 1][i] == bs[i];
    forall n | n in Names(bs[..i + 1]) ensures n in Names(bs[..i]) + {bs[i].benchmarkName} {
      var k :| 0 <= k < i + 1 && bs[..i + 1][k].benchmarkName == n;
      assert k < i ==> bs[..i][k] == bs[k];
    }
  }

  /** The body of the loop over benchmarks. */
  method ParseBenchmark(b: Benchmark, seenNames: set<string>, seenIds: map<int, string>)
    returns (r: Result<(Benchmark, map<int, string>), ParseError>)
    ensures var t := TrimBenchmark(b);
            && (r.Ok? <==> t.benchmarkName != "" && t.benchmarkName !in seenNames
                           && DifficultiesOk(t.difficulties, seenIds.Keys))
            && (r.Err? ==> BenchmarkFault(t, seenNames, seenIds.Keys, r.error))
            && (r.Ok? ==> r.value.0 == t && r.value.1.Keys == seenIds.Keys + Ids(t.difficulties))
  {
    hide Trim, DifficultiesOk, Ids, FirstFault;
    var name := Trim(b.benchmarkName);
    if name == "" {
      return Err(EmptyBenchmarkName);
    }
    if name in seenNames {
      return Err(DuplicateBenchmarkName);
    }
    var parsed :- ParseDifficulties(b.difficulties, seenIds, name);
    var t := Benchmark(
      name, Trim(b.rankCalculation), Trim(b.abbreviation), Trim(b.color),
      Trim(b.spreadsheetUrl), Trim(b.dateAdded), parsed.0);
    return Ok((t, parsed.1));
  }

  // ---- enriching ----

  datatype EnrichError = FetchFailed | NoScenarios | Panicked

  function Enrich(d: Difficulty, progress: seq<ProgressScenario>): Difficulty {
    d.(mergedRanks := Ranks(d.rankColors), mergedScenarios := Mapping(d.categories, progress))
  }

  /** A difficulty can be enriched: its scenarios are fetched, there are some, and their mapping does not panic. */
  ghost predicate Enrichable(d: Difficulty, fetch: int -> Option<seq<ProgressScenario>>) {
    var got := fetch(d.kovaaksBenchmarkId);
    got.Some? && |got.value| > 0 && !Overflows(Slots(d.categories), |got.value|)
  }

  function EnrichDifficulty(d: Difficulty, fetch: int -> Option<seq<ProgressScenario>>): Difficulty {
    var got := fetch(d.kovaaksBenchmarkId);
    if got.None? then d else Enrich(d, got.value)
  }

  function EnrichBenchmark(b: Benchmark, fetch: int -> Option<seq<ProgressScenario>>): Benchmark {
    b.(difficulties := MapSeq((d: Difficulty) => EnrichDifficulty(d, fetch), b.difficulties))
  }

  // ---- enriching, said field by field ----

  /** The ranks are those of the source that are complete, the scenarios are the fetched ones in their places, and the rest
      is as it was. */
  ghost predicate EnrichedDifficulty(e: Difficulty, d: Difficulty, fetch: int -> Option<seq<ProgressScenario>>) {
    && e.difficultyName == d.difficultyName && e.kovaaksBenchmarkId == d.kovaaksBenchmarkId && e.sharecode == d.sharecode
    && e.rankColors == d.rankColors && e.categories == d.categories
    && RanksSay(e.mergedRanks, d.rankColors)
    && fetch(d.kovaaksBenchmarkId).Some?
    && PlacesAll(e.mergedScenarios, d.categories, fetch(d.kovaaksBenchmarkId).value)
  }

  ghost predicate Enriched(e: Benchmark, b: Benchmark, fetch: int -> Option<seq<ProgressScenario>>) {
    && e.benchmarkName == b.benchmarkName && e.rankCalculation == b.rankCalculation && e.abbreviation == b.abbreviation
    && e.color == b.color && e.spreadsheetUrl == b.spreadsheetUrl && e.dateAdded == b.dateAdded
    && |e.difficulties| == |b.difficulties|
    && forall j :: 0 <= j < |b.difficulties| ==> EnrichedDifficulty(e.difficulties[j], b.difficulties[j], fetch)
  }

  ghost predicate CanEnrich(d: Difficulty, fetch: int -> Option<seq<ProgressScenario>>) {
    var got := fetch(d.kovaaksBenchmarkId);
    got.Some? && got.value != [] && !SomeEndOverflows(d.categories, |got.value|)
  }

  lemma EnrichableMeans(d: Difficulty, fetch: int -> Option<seq<ProgressScenario>>)
    ensures Enrichable(d, fetch) <==> CanEnrich(d, fetch)
  {
    hide Overflows, SomeEndOverflows, Slots;
    var got := fetch(d.kovaaksBenchmarkId);
    if got.Some? {
      OverflowsMeans(d.categories, |got.value|);
    }
  }

  lemma EnrichesDifficulty(d: Difficulty, fetch: int -> Option<seq<ProgressScenario>>)
    requires Enrichable(d, fetch)
    ensures EnrichedDifficulty(EnrichDifficulty(d, fetch), d, fetch)
  {
    hide Overflows, Slots, Mapping, Ranks, RanksSay, PlacesAll;
    RanksSaySource(d.rankColors);
    MappingPlaces(d.categories, fetch(d.kovaaksBenchmarkId).value);
  }

  lemma Enriches(b: Benchmark, fetch: int -> Option<seq<ProgressScenario>>)
    requires forall j :: 0 <= j < |b.difficulties| ==> Enrichable(b.difficulties[j], fetch)
    ensures Enriched(EnrichBenchmark(b, fetch), b, fetch)
  {
    hide Enrichable, EnrichDifficulty, EnrichedDifficulty;
    forall j | 0 <= j < |b.difficulties|
      ensures EnrichedDifficulty(EnrichBenchmark(b, fetch).difficulties[j], b.difficulties[j], fetch)
    {
      EnrichesDifficulty(b.difficulties[j], fetch);
    }
  }

  /** Why a difficulty cannot be enriched. */
  function EnrichFault(d: Difficulty, fetch: int -> Option<seq<ProgressScenario>>): EnrichError {
    var got := fetch(d.kovaaksBenchmarkId);
    if got.None? then FetchFailed else if got.value == [] then NoScenarios else Panicked
  }

  /** The difficulties before the j-th one of benchmark `i` can be enriched, and that one cannot. */
  ghost predicate FirstNotEnriched(bs: seq<Benchmark>, i: int, j: int, fetch: int -> Option<seq<ProgressScenario>>) {
    && IsDifficultyOf(bs, i, j) && !CanEnrich(bs[i].difficulties[j], fetch)
    && forall k, l :: IsDifficultyOf(bs, k, l) && (k < i || (k == i && l < j)) ==> CanEnrich(bs[k].difficulties[l], fetch)
  }

  /** Either every difficulty can be enriched and is, or the error is that of the first one that cannot. */
  ghost predicate EnrichSays(was: seq<Benchmark>, now: seq<Benchmark>, fetch: int -> Option<seq<ProgressScenario>>,
                             r: Result<(), EnrichError>)
  {
    match r
    case Ok(_) =>
      && |now| == |was| && (forall i :: 0 <= i < |was| ==> Enriched(now[i], was[i], fetch))
      && forall i, j :: IsDifficultyOf(was, i, j) ==> CanEnrich(was[i].difficulties[j], fetch)
    case Err(e) =>
      exists i, j :: FirstNotEnriched(was, i, j, fetch) && e == EnrichFault(was[i].difficulties[j], fetch)
  }

  lemma AllEnriched(was: seq<Benchmark>, now: seq<Benchmark>, fetch: int -> Option<seq<ProgressScenario>>)
    requires |now| == |was| && forall i :: 0 <= i < |was| ==> now[i] == EnrichBenchmark(was[i], fetch)
    requires forall i, j :: 0 <= i < |was| && 0 <= j < |was[i].difficulties| ==> Enrichable(was[i].difficulties[j], fetch)
    ensures EnrichSays(was, now, fetch, Ok(()))
  {
    hide Enrichable, EnrichBenchmark, Enriched, CanEnrich;
    forall i | 0 <= i < |was| ensures Enriched(now[i], was[i], fetch) {
      Enriches(was[i], fetch);
    }
    forall i, j | IsDifficultyOf(was, i, j) ensures CanEnrich(was[i].difficulties[j], fetch) {
      EnrichableMeans(was[i].difficulties[j], fetch);
    }
  }

  lemma NotEnriched(was: seq<Benchmark>, now: seq<Benchmark>, fetch: int -> Option<seq<ProgressScenario>>, i: nat, j: nat)
    requires IsDifficultyOf(was, i, j) && !Enrichable(was[i].difficulties[j], fetch)
    requires forall k, l :: 0 <= k < i && 0 <= l < |was[k].difficulties| ==> Enrichable(was[k].difficulties[l], fetch)
    requires forall l :: 0 <= l < j ==> Enrichable(was[i].difficulties[l], fetch)
    ensures EnrichSays(was, now, fetch, Err(EnrichFault(was[i].difficulties[j], fetch)))
  {
    hide Enrichable, CanEnrich, EnrichFault;
    EnrichableMeans(was[i].difficulties[j], fetch);
    forall k, l | IsDifficultyOf(was, k, l) && (k < i || (k == i && l < j)) ensures CanEnrich(was[k].difficulties[l], fetch) {
      EnrichableMeans(was[k].difficulties[l], fetch);
    }
    assert FirstNotEnriched(was, i, j, fetch);
  }

  method EnrichOne(d: Difficulty, fetch: int -> Option<seq<ProgressScenario>>) returns (r: Result<Difficulty, EnrichError>)
    requires forall id :: fetch(id).Some? ==> |fetch(id).value| < INT_LIMIT
    ensures r.Ok? <==> Enrichable(d, fetch)
    ensures r.Ok? ==> r.value == EnrichDifficulty(d, fetch) && r.value.mergedScenarios != []
    ensures r.Err? ==> r.error == EnrichFault(d, fetch)
  {
    hide Overflows, Slots, Mapping, Ranks;
    var got := fetch(d.kovaaksBenchmarkId);
    if got.None? {
      return Err(FetchFailed);
    }
    var progress := got.value;
    if |progress| == 0 {
      return Err(NoScenarios);
    }
    var ranks := MergedRanksFromSource(d.rankColors);
    var merged := ApplyProgressScenarios(d.categories, progress);
    if merged.Err? {
      return Err(Panicked);
    }
    // The source also rejects an empty mapping; a mapping is as long as its input, so that never happens.
    return Ok(d.(mergedRanks := ranks, mergedScenarios := merged.value));
  }

  /** `enrichBenchmarks`: every difficulty's ranks and scenarios are filled in in place. */
  method EnrichBenchmarks(benchmarks: array<Benchmark>, fetch: int -> Option<seq<ProgressScenario>>)
    returns (r: Result<(), EnrichError>)
    requires forall id :: fetch(id).Some? ==> |fetch(id).value| < INT_LIMIT
    modifies benchmarks
    ensures r.Ok? <==> forall i, j :: 0 <= i < benchmarks.Length && 0 <= j < |old(benchmarks[i]).difficulties| ==>
                         Enrichable(old(benchmarks[i]).difficulties[j], fetch)
    ensures r.Ok? ==> forall i :: 0 <= i < benchmarks.Length ==>
                        benchmarks[i] == EnrichBenchmark(old(benchmarks[i]), fetch)
    ensures EnrichSays(old(benchmarks[..]), benchmarks[..], fetch, r)
  {
    hide Enrichable, EnrichDifficulty, EnrichSays, EnrichFault;
    ghost var was := benchmarks[..];
    for i := 0 to benchmarks.Length
      invariant forall k :: 0 <= k < i ==> benchmarks[k] == EnrichBenchmark(old(benchmarks[k]), fetch)
      invariant forall k :: i <= k < benchmarks.Length ==> benchmarks[k] == old(benchmarks[k])
      invariant forall k, j :: 0 <= k < i && 0 <= j < |old(benchmarks[k]).difficulties| ==>
                  Enrichable(old(benchmarks[k]).difficulties[j], fetch)
    {
      var b := benchmarks[i];
      var ds := b.difficulties;
      for j := 0 to |ds|
        modifies {}
        invariant |ds| == |b.difficulties|
        invariant forall k :: 0 <= k < j ==> ds[k] == EnrichDifficulty(b.difficulties[k], fetch)
        invariant forall k :: j <= k < |ds| ==> ds[k] == b.difficulties[k]
        invariant forall k :: 0 <= k < j ==> Enrichable(b.difficulties[k], fetch)
      {
        var enriched := EnrichOne(ds[j], fetch);
        if enriched.Err? {
          NotEnriched(was, benchmarks[..], fetch, i, j);
          return Err(enriched.error);
        }
        ds := ds[j := enriched.value];
      }
      assert ds == EnrichBenchmark(b, fetch).difficulties;
      benchmarks[i] := b.(difficulties := ds);
    }
    AllEnriched(was, benchmarks[..], fetch);
    return Ok(());
  }

  const FULL_COUNT: int64 := 0x7fff_ffff_ffff_ffff

  function TwoSlots(): seq<Subcategory> {
    [Subcategory("first", 1, ""), Subcategory("second", FULL_COUNT, "")]
  }

  lemma TwoSlotsOverflow()
    ensures Overflows(Slots([Category("C", "", TwoSlots())]), 1)
  {
    var cats := [Category("C", "", TwoSlots())];
    var slots := Slots(cats);
    assert cats[..0] == [] && Slots([]) == [];
    assert SlotsOf("C", TwoSlots()) == [Slot("C", "first", 1), Slot("C", "second", FULL_COUNT)];
    assert slots == [Slot("C", "first", 1), Slot("C", "second", FULL_COUNT)];
    assert slots[..1] == [slots[0]] && slots[..1][..0] == [];
    assert OverflowsAt(slots, 1, 1);
  }

  /** An accepted tree whose enriching panics: one subcategory takes the only scenario, and the next has a scenario count
      at the limit of `int`. */
  lemma AcceptedTreeThatPanics()
    ensures var d := Difficulty("Easy", 1, "", [], [Category("C", "", TwoSlots())], [], []);
            var fetch := (id: int) => Some([ProgressScenario("S", [])]);
            Accepted([Benchmark("A", "", "", "", "", "", [d])]) && !Enrichable(d, fetch)
  {
    hide Overflows, Slots;
    TwoSlotsOverflow();
  }
}
