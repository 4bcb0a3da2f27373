/** The benchmark source tree, its validation, and the lists the worker merges into it. */
module BenchmarkSource {
  import opened Common

  datatype RankColor = RankColor(name: string, color: string)
  datatype Subcategory = Subcategory(subcategoryName: string, scenarioCount: int64, color: string)
  datatype Category = Category(categoryName: string, color: string, subcategories: seq<Subcategory>)
  datatype ProgressScenario = ProgressScenario(name: string, rankThresholds: seq<real>)

  /** Also a scenario link: the fields are the same. */
  datatype MergedScenario = MergedScenario(
    name: string, categoryName: string, subcategoryName: string, sortOrder: nat, rankThresholds: seq<real>)
  datatype MergedRank = MergedRank(name: string, color: string, sortOrder: nat)

  datatype Difficulty = Difficulty(
    difficultyName: string, kovaaksBenchmarkId: int64, sharecode: string,
    rankColors: seq<RankColor>, categories: seq<Category>,
    mergedScenarios: seq<MergedScenario>, mergedRanks: seq<MergedRank>)

  datatype Benchmark = Benchmark(
    benchmarkName: string, rankCalculation: string, abbreviation: string, color: string,
    spreadsheetUrl: string, dateAdded: string, difficulties: seq<Difficulty>)
}

/** `applyProgressScenariosToDifficulty`, `collectScenarioLinks` and `mergedRanksFromSource`. */
module Merging {
  import opened Common
  import opened BenchmarkSource

  // ---- the partition of progress scenarios over subcategories ----

  datatype Slot = Slot(categoryName: string, subcategoryName: string, take: nat)

  function Take(count: int): nat {
    if count < 0 then 0 else count
  }

  function SlotsOf(categoryName: string, subs: seq<Subcategory>): (slots: seq<Slot>)
    ensures |slots| == |subs|
  {
    seq(|subs|, i requires 0 <= i < |subs| =>
      Slot(categoryName, subs[i].subcategoryName, Take(subs[i].scenarioCount)))
  }

  /** The subcategories of all categories, in order. */
  function Slots(cats: seq<Category>): seq<Slot> {
    if cats == [] then [] else
      var last := cats[|cats| - 1];
      Slots(cats[..|cats| - 1]) + SlotsOf(last.categoryName, last.subcategories)
  }

  function Total(slots: seq<Slot>): nat {
    if slots == [] then 0 else Total(slots[..|slots| - 1]) + slots[|slots| - 1].take
  }

  /** Slot `k` is the one whose prefix-sum interval contains `i`. */
  predicate Covers(slots: seq<Slot>, k: nat, i: nat)
    requires k < |slots|
  {
    Total(slots[..k]) <= i < Total(slots[..k]) + slots[k].take
  }

  /** The slot of a scenario position, or None past the total. */
  function SlotAt(slots: seq<Slot>, i: nat): Option<Slot> {
    if slots == [] then None
    else if i < Total(slots[..|slots| - 1]) then SlotAt(slots[..|slots| - 1], i)
    else if i < Total(slots) then Some(slots[|slots| - 1])
    else None
  }

  lemma {:induction false} TotalMonotone(slots: seq<Slot>, k: nat)
    requires k <= |slots|
    ensures Total(slots[..k]) <= Total(slots)
  {
    if k < |slots| {
      TotalMonotone(slots[..|slots| - 1], k);
      assert slots[..|slots| - 1][..k] == slots[..k];
    } else {
      assert slots[..k] == slots;
    }
  }

  /** Every position has at most one covering slot, exactly one below the total, and `SlotAt` finds it. */
  lemma {:induction false} SlotAtCovers(slots: seq<Slot>, k: nat, i: nat)
    requires k < |slots|
    ensures Covers(slots, k, i) ==> SlotAt(slots, i) == Some(slots[k])
    ensures forall j: nat :: j < |slots| && Covers(slots, k, i) && Covers(slots, j, i) ==> j == k
  {
    var front := slots[..|slots| - 1];
    if k < |front| {
      SlotAtCovers(front, k, i);
      assert front[..k] == slots[..k];
      TotalMonotone(front, k + 1);
      assert front[..k + 1][..k] == front[..k];
    }
    forall j: nat | j < |slots| && j != k && Covers(slots, k, i)
      ensures !Covers(slots, j, i)
    {
      if j < k {
        CoversApart(slots, j, k, i);
      } else {
        CoversApart(slots, k, j, i);
      }
    }
  }

  lemma CoversApart(slots: seq<Slot>, j: nat, k: nat, i: nat)
    requires j < k < |slots|
    ensures !(Covers(slots, j, i) && Covers(slots, k, i))
  {
    TotalMonotone(slots[..k], j + 1);
    assert slots[..k][..j + 1] == slots[..j + 1];
    assert slots[..j + 1][..j] == slots[..j];
  }

  lemma {:induction false} SomeSlotCovers(slots: seq<Slot>, i: nat)
    ensures SlotAt(slots, i).Some? <==> i < Total(slots)
    ensures i < Total(slots) <==> exists k: nat :: k < |slots| && Covers(slots, k, i)
  {
    if slots != [] {
      var last := |slots| - 1;
      var front := slots[..last];
      SomeSlotCovers(front, i);
      if i < Total(front) {
        var k: nat :| k < |front| && Covers(front, k, i);
        assert front[..k] == slots[..k];
        assert Covers(slots, k, i);
      } else if i < Total(slots) {
        assert Covers(slots, last, i);
      }
      if k: nat :| k < |slots| && Covers(slots, k, i) {
        TotalMonotone(slots, k + 1);
        assert slots[..k + 1][..k] == slots[..k];
      }
    }
  }

  lemma {:induction false} SlotAtStable(slots: seq<Slot>, slot: Slot, i: nat)
    ensures SlotAt(slots + [slot], i) ==
            if i < Total(slots) then SlotAt(slots, i)
            else if i < Total(slots) + slot.take then Some(slot) else None
  {
    assert (slots + [slot])[..|slots|] == slots;
  }

  /** Which labels a scenario position gets: with categories, those of its slot, or the last category with an empty
      subcategory for what is left over. */
  function Labels(cats: seq<Category>, i: nat): (string, string) {
    if cats == [] then (Trim(""), Trim("")) else
      match SlotAt(Slots(cats), i)
      case Some(slot) => (Trim(slot.categoryName), Trim(slot.subcategoryName))
      case None => (Trim(cats[|cats| - 1].categoryName), Trim(""))
  }

  function Merged(def: ProgressScenario, labels: (string, string), i: nat): MergedScenario {
    MergedScenario(Trim(def.name), labels.0, labels.1, i, def.rankThresholds)
  }

  /** Output `i` is progress scenario `i`, with its position as sort order. */
  function Mapping(cats: seq<Category>, progress: seq<ProgressScenario>): (out: seq<MergedScenario>)
    ensures |out| == |progress|
  {
    seq(|progress|, i requires 0 <= i < |progress| => Merged(progress[i], Labels(cats, i), i))
  }

  const INT_LIMIT: int := 0x8000_0000_0000_0000

  /** 64-bit addition. */
  function WrappingAdd(a: int64, b: int64): int64 {
    var sum := a + b;
    if sum >= INT_LIMIT then sum - 2 * INT_LIMIT
    else if sum < -INT_LIMIT then sum + 2 * INT_LIMIT
    else sum
  }

  function Min(a: int, b: int): int {
    if a <= b then a else b
  }

  /** The end of some slot does not fit in an `int`, reckoned from the position reached before it. */
  ghost predicate Overflows(slots: seq<Slot>, n: nat) {
    exists k: nat :: k < |slots| && OverflowsAt(slots, n, k)
  }

  predicate OverflowsAt(slots: seq<Slot>, n: nat, k: nat)
    requires k < |slots|
  {
    Min(Total(slots[..k]), n) + slots[k].take >= INT_LIMIT
  }

  datatype Panic = SliceBoundsOutOfRange

  /** The inner loop: append the scenarios up to `end` with one pair of labels. */
  method AppendScenarios(out: seq<MergedScenario>, progress: seq<ProgressScenario>, position: nat, end: nat,
                         categoryName: string, subcategoryName: string) returns (r: seq<MergedScenario>)
    requires |out| == position <= end <= |progress|
    ensures |r| == end && r[..position] == out
    ensures forall i :: position <= i < end ==>
              r[i] == Merged(progress[i], (Trim(categoryName), Trim(subcategoryName)), i)
  {
    r := out;
    for i := position to end
      invariant |r| == i && r[..position] == out
      invariant forall j :: position <= j < i ==>
                  r[j] == Merged(progress[j], (Trim(categoryName), Trim(subcategoryName)), j)
    {
      r := r + [MergedScenario(Trim(progress[i].name), Trim(categoryName), Trim(subcategoryName), |r|,
                               progress[i].rankThresholds)];
    }
  }

  /** What has been placed after the slots `seen`. */
  ghost predicate Placed(out: seq<MergedScenario>, progress: seq<ProgressScenario>, seen: seq<Slot>) {
    && |out| == Min(Total(seen), |progress|)
    && forall i :: 0 <= i < |out| ==>
         && SlotAt(seen, i).Some?
         && out[i] == Merged(progress[i],
              (Trim(SlotAt(seen, i).value.categoryName), Trim(SlotAt(seen, i).value.subcategoryName)), i)
  }

  /** One subcategory: its share of the remaining scenarios, or a panic when the end overflows. */
  method PlaceSlot(out: seq<MergedScenario>, progress: seq<ProgressScenario>, category: Category, sub: Subcategory,
                   ghost seen: seq<Slot>) returns (r: Result<seq<MergedScenario>, Panic>)
    requires Placed(out, progress, seen) && |progress| < INT_LIMIT
    ensures r.Err? <==> Min(Total(seen), |progress|) + Take(sub.scenarioCount) >= INT_LIMIT
    ensures r.Ok? ==>
              Placed(r.value, progress, seen + [Slot(category.categoryName, sub.subcategoryName, Take(sub.scenarioCount))])
  {
    ghost var slot := Slot(category.categoryName, sub.subcategoryName, Take(sub.scenarioCount));
    var position := |out|;
    var take := sub.scenarioCount;
    if take < 0 {
      take := 0;
    }
    var end := WrappingAdd(position, take);
    if end > |progress| {
      end := |progress|;
    }
    if end < position {
      return Err(SliceBoundsOutOfRange);
    }
    var placed := AppendScenarios(out, progress, position, end, category.categoryName, sub.subcategoryName);
    assert (seen + [slot])[..|seen|] == seen;
    forall i | 0 <= i < |placed|
      ensures SlotAt(seen + [slot], i) == if i < position then SlotAt(seen, i) else Some(slot)
      ensures i < position ==> placed[i] == out[i]
    {
      SlotAtStable(seen, slot, i);
      assert i < position ==> placed[i] == placed[..position][i];
    }
    return Ok(placed);
  }

  lemma SlotsAppend(cats: seq<Category>, c: nat)
    requires c < |cats|
    ensures Slots(cats[..c + 1]) == Slots(cats[..c]) + SlotsOf(cats[c].categoryName, cats[c].subcategories)
  {
    assert cats[..c + 1][..c] == cats[..c];
  }

  lemma {:induction false} SlotsPrefix(cats: seq<Category>, c: nat)
    requires c <= |cats|
    ensures Slots(cats[..c]) <= Slots(cats)
  {
    if c == |cats| {
      assert cats[..c] == cats;
    } else {
      SlotsPrefix(cats[..|cats| - 1], c);
      assert cats[..|cats| - 1][..c] == cats[..c];
    }
  }

  /** The loop over one category's subcategories. */
  method PlaceCategory(out: seq<MergedScenario>, progress: seq<ProgressScenario>, category: Category,
                       ghost seen: seq<Slot>, ghost all: seq<Slot>) returns (r: Result<seq<MergedScenario>, Panic>)
    requires Placed(out, progress, seen) && |progress| < INT_LIMIT && !Overflows(seen, |progress|)
    requires seen + SlotsOf(category.categoryName, category.subcategories) <= all
    ensures r.Err? ==> Overflows(all, |progress|)
    ensures r.Ok? ==> Placed(r.value, progress, seen + SlotsOf(category.categoryName, category.subcategories))
    ensures r.Ok? ==> !Overflows(seen + SlotsOf(category.categoryName, category.subcategories), |progress|)
  {
    hide Overflows, Placed;
    ghost var mine := SlotsOf(category.categoryName, category.subcategories);
    ghost var soFar := seen;
    var placed := out;
    for s := 0 to |category.subcategories|
      invariant soFar == seen + mine[..s] && Placed(placed, progress, soFar)
      invariant !Overflows(soFar, |progress|)
    {
      var next := PlaceSlot(placed, progress, category, category.subcategories[s], soFar);
      assert seen + mine[..s + 1] == soFar + [mine[s]];
      assert soFar + [mine[s]] <= all by {
        assert seen + mine[..s + 1] <= seen + mine;
      }
      OverflowStep(soFar, mine[s], |progress|, all);
      if next.Err? {
        return Err(SliceBoundsOutOfRange);
      }
      placed := next.value;
      soFar := soFar + [mine[s]];
    }
    assert mine[..|mine|] == mine;
    return Ok(placed);
  }

  /** `applyProgressScenariosToDifficulty`. It panics exactly when some end position does not fit in an `int`;
      otherwise nothing is lost, repeated or reordered, and every scenario gets its labels. */
  method ApplyProgressScenarios(cats: seq<Category>, progress: seq<ProgressScenario>)
    returns (r: Result<seq<MergedScenario>, Panic>)
    requires |progress| < INT_LIMIT
    ensures r.Err? <==> Overflows(Slots(cats), |progress|)
    ensures r.Ok? ==> r.value == Mapping(cats, progress)
  {
    hide Overflows, Placed, Slots, Total;
    var out: seq<MergedScenario> := [];
    if |cats| == 0 {
      NoSlots(progress);
      out := AppendScenarios(out, progress, 0, |progress|, "", "");
      return Ok(out);
    }
    NoSlots(progress);
    for c := 0 to |cats|
      invariant Placed(out, progress, Slots(cats[..c])) && !Overflows(Slots(cats[..c]), |progress|)
    {
      SlotsAppend(cats, c);
      SlotsPrefix(cats, c + 1);
      var placed := PlaceCategory(out, progress, cats[c], Slots(cats[..c]), Slots(cats));
      if placed.Err? {
        return Err(SliceBoundsOutOfRange);
      }
      out := placed.value;
    }
    assert cats[..|cats|] == cats;
    PlacedLength(out, progress, Slots(cats));
    if |out| < |progress| {
      var rest := AppendScenarios(out, progress, |out|, |progress|, cats[|cats| - 1].categoryName, "");
      PlacedIsMapping(rest, out, progress, cats);
      return Ok(rest);
    }
    PlacedIsMapping(out, out, progress, cats);
    return Ok(out);
  }

  lemma NoSlots(progress: seq<ProgressScenario>)
    ensures Slots([]) == [] && Placed([], progress, []) && !Overflows([], |progress|)
  {
  }

  lemma PlacedLength(out: seq<MergedScenario>, progress: seq<ProgressScenario>, seen: seq<Slot>)
    requires Placed(out, progress, seen)
    ensures |out| <= |progress|
  {
  }

  /** Placed scenarios and the left over ones together are the mapping. */
  lemma {:induction false} PlacedIsMapping(all: seq<MergedScenario>, out: seq<MergedScenario>, progress: seq<ProgressScenario>,
                        cats: seq<Category>)
    requires cats != [] && Placed(out, progress, Slots(cats)) && |all| == |progress| && all[..|out|] == out
    requires forall i :: |out| <= i < |all| ==>
               all[i] == Merged(progress[i], (Trim(cats[|cats| - 1].categoryName), Trim("")), i)
    ensures all == Mapping(cats, progress)
  {
    forall i | 0 <= i < |progress| ensures all[i] == Mapping(cats, progress)[i] {
      SomeSlotCovers(Slots(cats), i);
      assert i < |out| ==> all[i] == out[i];
    }
  }

  /** Overflow before a slot, or at it, is overflow of the whole. */
  lemma OverflowStep(seen: seq<Slot>, slot: Slot, n: nat, all: seq<Slot>)
    requires seen + [slot] <= all
    ensures Overflows(seen + [slot], n) <==> Overflows(seen, n) || Min(Total(seen), n) + slot.take >= INT_LIMIT
    ensures Overflows(seen + [slot], n) ==> Overflows(all, n)
  {
    var more := seen + [slot];
    assert more[..|seen|] == seen;
    assert OverflowsAt(more, n, |seen|) <==> Min(Total(seen), n) + slot.take >= INT_LIMIT;
    forall k: nat | k < |seen| ensures OverflowsAt(more, n, k) == OverflowsAt(seen, n, k) {
      assert more[..k] == seen[..k];
    }
    forall k: nat | k < |more| ensures OverflowsAt(more, n, k) == OverflowsAt(all, n, k) {
      assert more[..k] == all[..k];
    }
  }

  /** A panic needs a scenario count near the limit of `int`. */
  lemma SmallCountsNeverOverflow(slots: seq<Slot>, n: nat)
    requires forall k :: 0 <= k < |slots| ==> slots[k].take + n < INT_LIMIT
    ensures !Overflows(slots, n)
  {
  }

  // ---- links: the first entry per name ----

  /** The case-folded key under which links are deduplicated. */
  function Key(m: MergedScenario, lower: string -> string): string {
    lower(Trim(m.name))
  }

  /** Entry `i` has a name, and no earlier entry has the same one up to case. */
  predicate IsFirst(ms: seq<MergedScenario>, lower: string -> string, i: nat)
    requires i < |ms|
  {
    && Trim(ms[i].name) != ""
    && forall j :: 0 <= j < i ==> Trim(ms[j].name) == "" || Key(ms[j], lower) != Key(ms[i], lower)
  }

  /** The indices of first entries, in order. */
  function Firsts(ms: seq<MergedScenario>, lower: string -> string, n: nat): (ixs: seq<nat>)
    requires n <= |ms|
    ensures forall p :: 0 <= p < |ixs| ==> ixs[p] < n
  {
    if n == 0 then [] else
      Firsts(ms, lower, n - 1) + if IsFirst(ms, lower, n - 1) then [n - 1] else []
  }

  lemma {:induction false} FirstsMeans(ms: seq<MergedScenario>, lower: string -> string, n: nat, ixs: seq<nat>)
    requires n <= |ms| && ixs == Firsts(ms, lower, n)
    ensures forall p :: 0 <= p < |ixs| ==> IsFirst(ms, lower, ixs[p])
    ensures forall p, q :: 0 <= p < q < |ixs| ==> ixs[p] < ixs[q]
    ensures forall i :: 0 <= i < n && IsFirst(ms, lower, i) ==> i in ixs
  {
    hide IsFirst;
    if n > 0 {
      FirstsMeans(ms, lower, n - 1, Firsts(ms, lower, n - 1));
    }
  }

  function LinkOf(m: MergedScenario, position: nat): MergedScenario {
    MergedScenario(Trim(m.name), Trim(m.categoryName), Trim(m.subcategoryName), position, m.rankThresholds)
  }

  /** The links of a difficulty: its first entries in order, numbered anew. */
  function Links(ms: seq<MergedScenario>, lower: string -> string): (links: seq<MergedScenario>)
    ensures |links| == |Firsts(ms, lower, |ms|)|
  {
    var ixs := Firsts(ms, lower, |ms|);
    seq(|ixs|, p requires 0 <= p < |ixs| => LinkOf(ms[ixs[p]], p))
  }

  lemma LinkAt(ms: seq<MergedScenario>, lower: string -> string, p: nat)
    requires p < |Links(ms, lower)|
    ensures var i := Firsts(ms, lower, |ms|)[p];
            && i < |ms| && IsFirst(ms, lower, i)
            && Links(ms, lower)[p] == LinkOf(ms[i], p)
  {
    hide IsFirst, Firsts;
    FirstsMeans(ms, lower, |ms|, Firsts(ms, lower, |ms|));
  }

  /** Links carry pairwise different names, even up to case. */
  lemma LinksDistinct(ms: seq<MergedScenario>, lower: string -> string, p: nat, q: nat)
    requires p < q < |Links(ms, lower)|
    ensures var links := Links(ms, lower);
            lower(links[p].name) != lower(links[q].name) && links[p].name != links[q].name
  {
    hide Links, Firsts, Trim;
    var ixs := Firsts(ms, lower, |ms|);
    LinkAt(ms, lower, p);
    LinkAt(ms, lower, q);
    FirstsMeans(ms, lower, |ms|, ixs);
    assert ixs[p] < ixs[q];
    assert Key(ms[ixs[p]], lower) != Key(ms[ixs[q]], lower);
  }

  /** No name of an entry is missing from the links, and the entry that stands for it is the first one. */
  lemma LinksComplete(ms: seq<MergedScenario>, lower: string -> string, i: nat)
    requires i < |ms| && Trim(ms[i].name) != ""
    ensures exists p :: 0 <= p < |Links(ms, lower)| && lower(Links(ms, lower)[p].name) == Key(ms[i], lower)
  {
    hide Links, Firsts, Trim, IsFirst;
    var first := FirstWithKey(ms, lower, i);
    var ixs := Firsts(ms, lower, |ms|);
    FirstsMeans(ms, lower, |ms|, ixs);
    assert first in ixs;
    var p :| 0 <= p < |ixs| && ixs[p] == first;
    LinkAt(ms, lower, p);
  }

  lemma {:induction false} FirstWithKey(ms: seq<MergedScenario>, lower: string -> string, i: nat) returns (first: nat)
    requires i < |ms| && Trim(ms[i].name) != ""
    ensures first <= i && IsFirst(ms, lower, first) && Key(ms[first], lower) == Key(ms[i], lower)
    decreases i
  {
    if IsFirst(ms, lower, i) {
      first := i;
    } else {
      var j :| 0 <= j < i && Trim(ms[j].name) != "" && Key(ms[j], lower) == Key(ms[i], lower);
      first := FirstWithKey(ms, lower, j);
    }
  }

  /** The names met among the first `n` entries, up to case. */
  ghost predicate Met(ms: seq<MergedScenario>, lower: string -> string, n: nat, key: string)
    requires n <= |ms|
  {
    exists j :: 0 <= j < n && Trim(ms[j].name) != "" && Key(ms[j], lower) == key
  }

  lemma NothingMet(ms: seq<MergedScenario>, lower: string -> string)
    ensures Firsts(ms, lower, 0) == [] && forall key :: !Met(ms, lower, 0, key)
  {
  }

  lemma MetStep(ms: seq<MergedScenario>, lower: string -> string, n: nat, key: string)
    requires n < |ms|
    ensures Met(ms, lower, n + 1, key) <==>
            Met(ms, lower, n, key) || (Trim(ms[n].name) != "" && Key(ms[n], lower) == key)
    ensures IsFirst(ms, lower, n) <==> Trim(ms[n].name) != "" && !Met(ms, lower, n, Key(ms[n], lower))
  {
    hide Trim;
  }

  lemma FirstsStep(ms: seq<MergedScenario>, lower: string -> string, n: nat)
    requires n < |ms|
    ensures var first := Trim(ms[n].name) != "" && !Met(ms, lower, n, Key(ms[n], lower));
            Firsts(ms, lower, n + 1) == if first then Firsts(ms, lower, n) + [n] else Firsts(ms, lower, n)
  {
    hide Met, IsFirst, Trim;
    MetStep(ms, lower, n, Key(ms[n], lower));
  }

  /** `collectScenarioLinks`. */
  method CollectScenarioLinks(ms: seq<MergedScenario>, lower: string -> string) returns (out: seq<MergedScenario>)
    ensures out == Links(ms, lower)
  {
    hide Met, IsFirst, Trim, Firsts;
    out := [];
    var seen: set<string> := {};
    ghost var ixs: seq<nat> := [];
    NothingMet(ms, lower);
    for i := 0 to |ms|
      invariant ixs == Firsts(ms, lower, i) && |out| == |ixs|
      invariant forall p :: 0 <= p < |out| ==> out[p] == LinkOf(ms[ixs[p]], p)
      invariant forall key :: key in seen <==> Met(ms, lower, i, key)
    {
      forall key
        ensures Met(ms, lower, i + 1, key) <==>
                Met(ms, lower, i, key) || (Trim(ms[i].name) != "" && Key(ms[i], lower) == key)
      {
        MetStep(ms, lower, i, key);
      }
      FirstsStep(ms, lower, i);
      var name := Trim(ms[i].name);
      if name == "" {
        continue;
      }
      var key := lower(name);
      if key in seen {
        continue;
      }
      seen := seen + {key};
      ixs := ixs + [i];
      out := out + [MergedScenario(
        name, Trim(ms[i].categoryName), Trim(ms[i].subcategoryName), |out|, ms[i].rankThresholds)];
    }
  }

  // ---- ranks ----

  predicate Kept(c: RankColor) {
    Trim(c.name) != "" && Trim(c.color) != ""
  }

  /** The indices of the ranks that have a name and a colour, in order. */
  function KeptRanks(colors: seq<RankColor>, n: nat): (ixs: seq<nat>)
    requires n <= |colors|
    ensures forall p :: 0 <= p < |ixs| ==> ixs[p] < n
  {
    if n == 0 then [] else
      KeptRanks(colors, n - 1) + if Kept(colors[n - 1]) then [n - 1] else []
  }

  /** They are the indices of exactly the ranks kept, in order. */
  lemma {:induction false} KeptRanksMeans(colors: seq<RankColor>, n: nat, ixs: seq<nat>)
    requires n <= |colors| && ixs == KeptRanks(colors, n)
    ensures forall p :: 0 <= p < |ixs| ==> Kept(colors[ixs[p]])
    ensures forall p, q :: 0 <= p < q < |ixs| ==> ixs[p] < ixs[q]
    ensures forall i :: 0 <= i < n && Kept(colors[i]) ==> i in ixs
  {
    hide Kept;
    if n > 0 {
      KeptRanksMeans(colors, n - 1, KeptRanks(colors, n - 1));
    }
  }

  lemma KeptRanksStep(colors: seq<RankColor>, n: nat)
    requires n < |colors|
    ensures KeptRanks(colors, 0) == []
    ensures KeptRanks(colors, n + 1) == if Kept(colors[n]) then KeptRanks(colors, n) + [n] else KeptRanks(colors, n)
  {
    hide Kept;
  }

  function RankOf(c: RankColor, position: nat): MergedRank {
    MergedRank(Trim(c.name), Trim(c.color), position)
  }

  /** The named and coloured ranks of a source, trimmed and numbered in order. */
  function Ranks(colors: seq<RankColor>): (ranks: seq<MergedRank>)
    ensures |ranks| == |KeptRanks(colors, |colors|)|
  {
    var ixs := KeptRanks(colors, |colors|);
    seq(|ixs|, k requires 0 <= k < |ixs| => RankOf(colors[ixs[k]], k))
  }

  /** `mergedRanksFromSource`. */
  method MergedRanksFromSource(colors: seq<RankColor>) returns (merged: seq<MergedRank>)
    ensures merged == Ranks(colors)
  {
    hide Trim;
    merged := [];
    ghost var ixs := KeptRanks(colors, 0);
    for i := 0 to |colors|
      invariant ixs == KeptRanks(colors, i) && |merged| == |ixs|
      invariant forall k :: 0 <= k < |merged| ==> merged[k] == RankOf(colors[ixs[k]], k)
    {
      KeptRanksStep(colors, i);
      var name, color := Trim(colors[i].name), Trim(colors[i].color);
      if name == "" || color == "" {
        continue;
      }
      ixs := ixs + [i];
      merged := merged + [MergedRank(name, color, |merged|)];
    }
  }

  /** What the merged ranks are: there is one for each rank of the source that has a name and a colour, and no other, in
      the order of the source, trimmed, with its position as sort order, which is what the ranks table stores. */
  lemma RanksOfSource(colors: seq<RankColor>, ixs: seq<nat>)
    requires ixs == KeptRanks(colors, |colors|)
    ensures |ixs| == |Ranks(colors)|
    ensures forall k :: 0 <= k < |ixs| ==>
              && ixs[k] < |colors| && Kept(colors[ixs[k]])
              && Ranks(colors)[k] == MergedRank(Trim(colors[ixs[k]].name), Trim(colors[ixs[k]].color), k)
    ensures forall p, q :: 0 <= p < q < |ixs| ==> ixs[p] < ixs[q]
    ensures forall i :: 0 <= i < |colors| ==> (Kept(colors[i]) <==> i in ixs)
  {
    hide Trim, Kept;
    KeptRanksMeans(colors, |colors|, ixs);
  }
}
