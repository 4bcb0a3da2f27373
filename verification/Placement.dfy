/** Where `applyProgressScenariosToDifficulty` puts each scenario, and what links and ranks are made of, said of the input's
    own fields. */
module Placement {
  import opened Common
  import opened BenchmarkSource
  import opened Merging

  // ---- positions, counted category by category ----

  function CountOf(sub: Subcategory): nat {
    if sub.scenarioCount < 0 then 0 else sub.scenarioCount
  }

  /** The scenarios that the first `s` subcategories of a category take. */
  function CountUpTo(subs: seq<Subcategory>, s: nat): nat
    requires s <= |subs|
  {
    if s == 0 then 0 else CountUpTo(subs, s - 1) + CountOf(subs[s - 1])
  }

  /** The scenarios that the first `c` categories take. */
  function CountBefore(cats: seq<Category>, c: nat): nat
    requires c <= |cats|
  {
    if c == 0 then 0 else
      CountBefore(cats, c - 1) + CountUpTo(cats[c - 1].subcategories, |cats[c - 1].subcategories|)
  }

  ghost predicate IsSubcategory(cats: seq<Category>, c: int, s: int) {
    0 <= c < |cats| && 0 <= s < |cats[c].subcategories|
  }

  /** Where the scenarios of a subcategory start. */
  ghost function StartOf(cats: seq<Category>, c: int, s: int): nat
    requires IsSubcategory(cats, c, s)
  {
    CountBefore(cats, c) + CountUpTo(cats[c].subcategories, s)
  }

  /** Position `i` is one of those that subcategory `s` of category `c` takes. */
  ghost predicate Takes(cats: seq<Category>, c: int, s: int, i: int) {
    && IsSubcategory(cats, c, s)
    && StartOf(cats, c, s) <= i < StartOf(cats, c, s) + CountOf(cats[c].subcategories[s])
  }

  /** The labels of the scenario at position `i`: without categories none; otherwise the category and the subcategory that
      take the position, or the last category alone if none does. */
  ghost predicate Labelled(m: MergedScenario, cats: seq<Category>, i: int) {
    if cats == [] then m.categoryName == "" && m.subcategoryName == ""
    else
      && (forall c, s :: Takes(cats, c, s, i) ==>
            && m.categoryName == Trim(cats[c].categoryName)
            && m.subcategoryName == Trim(cats[c].subcategories[s].subcategoryName))
      && ((forall c, s :: !Takes(cats, c, s, i)) ==>
            m.categoryName == Trim(cats[|cats| - 1].categoryName) && m.subcategoryName == "")
  }

  /** Every scenario is there once, in order, under its labels. */
  ghost predicate PlacesAll(out: seq<MergedScenario>, cats: seq<Category>, progress: seq<ProgressScenario>) {
    && |out| == |progress|
    && forall i :: 0 <= i < |out| ==>
         && out[i].name == Trim(progress[i].name) && out[i].sortOrder == i
         && out[i].rankThresholds == progress[i].rankThresholds
         && Labelled(out[i], cats, i)
  }

  /** The end of some subcategory's share does not fit in an `int`. */
  ghost predicate SomeEndOverflows(cats: seq<Category>, n: nat) {
    exists c, s :: EndOverflows(cats, c, s, n)
  }

  ghost predicate EndOverflows(cats: seq<Category>, c: int, s: int, n: nat) {
    && IsSubcategory(cats, c, s)
    && (if StartOf(cats, c, s) < n then StartOf(cats, c, s) else n) + CountOf(cats[c].subcategories[s])
       >= 0x8000_0000_0000_0000
  }

  // ---- the slots are these subcategories ----

  /** How many subcategories the first `c` categories have. */
  function IndexOf(cats: seq<Category>, c: nat): nat
    requires c <= |cats|
  {
    if c == 0 then 0 else IndexOf(cats, c - 1) + |cats[c - 1].subcategories|
  }

  /** The first slots are those of the first categories. */
  lemma {:induction false} SlotsUpTo(cats: seq<Category>, c: nat)
    requires c <= |cats|
    ensures |Slots(cats[..c])| == IndexOf(cats, c) <= |Slots(cats)| && Slots(cats)[..IndexOf(cats, c)] == Slots(cats[..c])
    ensures Total(Slots(cats[..c])) == CountBefore(cats, c)
  {
    hide SlotsOf, Total;
    SlotsPrefix(cats, c);
    if c > 0 {
      SlotsUpTo(cats, c - 1);
      SlotsAppend(cats, c - 1);
      var subs := cats[c - 1].subcategories;
      TotalUpTo(Slots(cats[..c - 1]), cats[c - 1].categoryName, subs, |subs|);
      assert SlotsOf(cats[c - 1].categoryName, subs)[..|subs|] == SlotsOf(cats[c - 1].categoryName, subs);
    } else {
      NoSlots([]);
      NoTotal();
      assert cats[..0] == [];
    }
  }

  lemma NoTotal()
    ensures Total([]) == 0
  {
  }

  lemma {:induction false} TotalUpTo(front: seq<Slot>, name: string, subs: seq<Subcategory>, s: nat)
    requires s <= |subs|
    ensures Total(front + SlotsOf(name, subs)[..s]) == Total(front) + CountUpTo(subs, s)
  {
    var all := SlotsOf(name, subs);
    if s == 0 {
      assert front + all[..0] == front;
    } else {
      TotalUpTo(front, name, subs, s - 1);
      assert (front + all[..s])[..|front| + s - 1] == front + all[..s - 1];
    }
  }

  /** The slots list the subcategories of each category under its name, category by category, in order, and a slot starts
      where its subcategory does. */
  lemma SlotsList(cats: seq<Category>, c: int, s: int)
    requires IsSubcategory(cats, c, s)
    ensures IndexOf(cats, c) + s < |Slots(cats)|
    ensures Slots(cats)[IndexOf(cats, c) + s] ==
            Slot(cats[c].categoryName, cats[c].subcategories[s].subcategoryName, CountOf(cats[c].subcategories[s]))
    ensures Total(Slots(cats)[..IndexOf(cats, c) + s]) == StartOf(cats, c, s)
  {
    hide Total, SlotsOf;
    var subs, k := cats[c].subcategories, IndexOf(cats, c);
    var mine := SlotsOf(cats[c].categoryName, subs);
    SlotsUpTo(cats, c);
    SlotsUpTo(cats, c + 1);
    SlotsAppend(cats, c);
    assert Slots(cats)[..IndexOf(cats, c + 1)] == Slots(cats[..c]) + mine;
    assert Slots(cats)[k + s] == Slots(cats)[..IndexOf(cats, c + 1)][k + s] == mine[s];
    assert Slots(cats)[..k + s] == Slots(cats)[..IndexOf(cats, c + 1)][..k + s] == Slots(cats[..c]) + mine[..s];
    TotalUpTo(Slots(cats[..c]), cats[c].categoryName, subs, s);
    SlotOfSub(cats[c].categoryName, subs, s);
  }

  lemma SlotOfSub(name: string, subs: seq<Subcategory>, s: nat)
    requires s < |subs|
    ensures SlotsOf(name, subs)[s] == Slot(name, subs[s].subcategoryName, CountOf(subs[s]))
  {
  }

  /** Every slot is that of some subcategory. */
  lemma {:induction false} SubcategoryOfSlot(cats: seq<Category>, n: nat, k: nat) returns (c: int, s: int)
    requires n <= |cats| && k < IndexOf(cats, n)
    ensures 0 <= c < n && IsSubcategory(cats, c, s) && IndexOf(cats, c) + s == k
  {
    if k < IndexOf(cats, n - 1) {
      c, s := SubcategoryOfSlot(cats, n - 1, k);
    } else {
      c, s := n - 1, k - IndexOf(cats, n - 1);
    }
  }

  lemma TakesCovers(cats: seq<Category>, c: int, s: int, i: nat)
    requires IsSubcategory(cats, c, s)
    ensures IndexOf(cats, c) + s < |Slots(cats)|
    ensures Takes(cats, c, s, i) <==> Covers(Slots(cats), IndexOf(cats, c) + s, i)
  {
    hide Total, Slots;
    SlotsList(cats, c, s);
  }

  lemma SlotsLength(cats: seq<Category>)
    ensures |Slots(cats)| == IndexOf(cats, |cats|)
  {
    SlotsUpTo(cats, |cats|);
    assert cats[..|cats|] == cats;
  }

  lemma LabelsLabel(cats: seq<Category>, i: nat, m: MergedScenario)
    requires (m.categoryName, m.subcategoryName) == Labels(cats, i)
    ensures Labelled(m, cats, i)
  {
    hide Total, Slots, Covers, SlotAt, IndexOf, StartOf;
    var slots := Slots(cats);
    SlotsLength(cats);
    SomeSlotCovers(slots, i);
    forall c, s | IsSubcategory(cats, c, s) && Takes(cats, c, s, i)
      ensures SlotAt(slots, i).Some? && SlotAt(slots, i).value.categoryName == cats[c].categoryName
      ensures SlotAt(slots, i).value.subcategoryName == cats[c].subcategories[s].subcategoryName
    {
      TakesCovers(cats, c, s, i);
      SlotsList(cats, c, s);
      SlotAtCovers(slots, IndexOf(cats, c) + s, i);
    }
    if cats != [] && SlotAt(slots, i).Some? {
      var k: nat :| k < |slots| && Covers(slots, k, i);
      var c, s := SubcategoryOfSlot(cats, |cats|, k);
      TakesCovers(cats, c, s, i);
    }
  }

  /** The mapping puts every scenario where it belongs. */
  lemma MappingPlaces(cats: seq<Category>, progress: seq<ProgressScenario>)
    ensures PlacesAll(Mapping(cats, progress), cats, progress)
  {
    hide Labels, Labelled;
    forall i | 0 <= i < |progress| ensures Labelled(Mapping(cats, progress)[i], cats, i) {
      LabelsLabel(cats, i, Mapping(cats, progress)[i]);
    }
  }

  /** The panic, said of the counts. */
  lemma OverflowsMeans(cats: seq<Category>, n: nat)
    ensures Overflows(Slots(cats), n) <==> SomeEndOverflows(cats, n)
  {
    hide Total, Slots, StartOf, IndexOf;
    SlotsLength(cats);
    forall c, s | IsSubcategory(cats, c, s)
      ensures IndexOf(cats, c) + s < |Slots(cats)|
      ensures OverflowsAt(Slots(cats), n, IndexOf(cats, c) + s) <==> EndOverflows(cats, c, s, n)
    {
      SlotsList(cats, c, s);
    }
    if Overflows(Slots(cats), n) {
      var k: nat :| k < |Slots(cats)| && OverflowsAt(Slots(cats), n, k);
      var c, s := SubcategoryOfSlot(cats, |cats|, k);
      assert EndOverflows(cats, c, s, n);
    }
  }

  // ---- links ----

  /** Entry `i` has a name, and is the first one with it, up to case. */
  ghost predicate Represents(ms: seq<MergedScenario>, lower: string -> string, i: int) {
    && 0 <= i < |ms| && Trim(ms[i].name) != ""
    && forall j :: 0 <= j < i && Trim(ms[j].name) != "" ==> lower(Trim(ms[j].name)) != lower(Trim(ms[i].name))
  }

  ghost function RepresentsBefore(ms: seq<MergedScenario>, lower: string -> string, i: int): set<int> {
    set j | 0 <= j < i && Represents(ms, lower, j)
  }

  /** A link made of entry `i`, numbered by the links before it. */
  ghost predicate LinkSays(link: MergedScenario, ms: seq<MergedScenario>, lower: string -> string, i: int) {
    && Represents(ms, lower, i)
    && link.name == Trim(ms[i].name) && link.categoryName == Trim(ms[i].categoryName)
    && link.subcategoryName == Trim(ms[i].subcategoryName) && link.rankThresholds == ms[i].rankThresholds
    && link.sortOrder == |RepresentsBefore(ms, lower, i)|
  }

  /** One link for each entry that is the first of its name, numbered in order. */
  ghost predicate LinksSay(links: seq<MergedScenario>, ms: seq<MergedScenario>, lower: string -> string) {
    && (forall k :: 0 <= k < |links| ==> links[k].sortOrder == k && IsLink(links[k], ms, lower))
    && (forall i :: Represents(ms, lower, i) ==> HasLink(links, ms, lower, i))
  }

  ghost predicate IsLink(link: MergedScenario, ms: seq<MergedScenario>, lower: string -> string) {
    exists i :: LinkSays(link, ms, lower, i)
  }

  ghost predicate HasLink(links: seq<MergedScenario>, ms: seq<MergedScenario>, lower: string -> string, i: int) {
    exists k :: 0 <= k < |links| && LinkSays(links[k], ms, lower, i)
  }

  lemma FirstRepresents(ms: seq<MergedScenario>, lower: string -> string, i: nat)
    requires i < |ms|
    ensures IsFirst(ms, lower, i) <==> Represents(ms, lower, i)
  {
    hide Trim;
  }

  lemma {:induction false} FirstsCount(ms: seq<MergedScenario>, lower: string -> string, n: nat)
    requires n <= |ms|
    ensures |Firsts(ms, lower, n)| == |RepresentsBefore(ms, lower, n)|
  {
    hide Represents, IsFirst;
    if n > 0 {
      FirstsCount(ms, lower, n - 1);
      FirstRepresents(ms, lower, n - 1);
      var front := RepresentsBefore(ms, lower, n - 1);
      assert RepresentsBefore(ms, lower, n) == front + if Represents(ms, lower, n - 1) then {n - 1} else {};
    }
  }

  /** The p-th first entry has p of them before it. */
  lemma {:induction false} FirstsPosition(ms: seq<MergedScenario>, lower: string -> string, n: nat, p: nat)
    requires n <= |ms| && p < |Firsts(ms, lower, n)|
    ensures |Firsts(ms, lower, Firsts(ms, lower, n)[p])| == p
  {
    hide IsFirst;
    if p < |Firsts(ms, lower, n - 1)| {
      FirstsPosition(ms, lower, n - 1, p);
    }
  }

  lemma LinkSaysEntry(ms: seq<MergedScenario>, lower: string -> string, p: nat)
    requires p < |Links(ms, lower)|
    ensures Links(ms, lower)[p].sortOrder == p && LinkSays(Links(ms, lower)[p], ms, lower, Firsts(ms, lower, |ms|)[p])
  {
    hide Trim, Firsts, IsFirst, Represents, RepresentsBefore, Links;
    var i := Firsts(ms, lower, |ms|)[p];
    LinkAt(ms, lower, p);
    FirstRepresents(ms, lower, i);
    FirstsPosition(ms, lower, |ms|, p);
    FirstsCount(ms, lower, i);
  }

  /** What the links of a difficulty are. */
  lemma LinksSayEntries(ms: seq<MergedScenario>, lower: string -> string)
    ensures LinksSay(Links(ms, lower), ms, lower)
  {
    hide LinkSays, Represents, Firsts, IsFirst;
    var links, ixs := Links(ms, lower), Firsts(ms, lower, |ms|);
    forall p | 0 <= p < |links|
      ensures links[p].sortOrder == p && LinkSays(links[p], ms, lower, ixs[p]) && IsLink(links[p], ms, lower)
    {
      LinkSaysEntry(ms, lower, p);
    }
    forall i | Represents(ms, lower, i) ensures HasLink(links, ms, lower, i) {
      RepresentsIndex(ms, lower, i);
      FirstRepresents(ms, lower, i);
      FirstsMeans(ms, lower, |ms|, ixs);
      assert i in ixs;
      var k :| 0 <= k < |ixs| && ixs[k] == i;
      assert LinkSays(links[k], ms, lower, i);
    }
  }

  lemma RepresentsIndex(ms: seq<MergedScenario>, lower: string -> string, i: int)
    requires Represents(ms, lower, i)
    ensures 0 <= i < |ms|
  {
  }

  // ---- ranks ----

  /** Rank `i` has a name and a colour. */
  ghost predicate Complete(colors: seq<RankColor>, i: int) {
    0 <= i < |colors| && Trim(colors[i].name) != "" && Trim(colors[i].color) != ""
  }

  ghost function CompleteBefore(colors: seq<RankColor>, i: int): set<int> {
    set j | 0 <= j < i && Complete(colors, j)
  }

  ghost predicate RankSays(rank: MergedRank, colors: seq<RankColor>, i: int) {
    && Complete(colors, i) && rank.name == Trim(colors[i].name) && rank.color == Trim(colors[i].color)
    && rank.sortOrder == |CompleteBefore(colors, i)|
  }

  /** One rank for each with a name and a colour, numbered in order. */
  ghost predicate RanksSay(ranks: seq<MergedRank>, colors: seq<RankColor>) {
    && (forall k :: 0 <= k < |ranks| ==> ranks[k].sortOrder == k && IsRank(ranks[k], colors))
    && (forall i :: Complete(colors, i) ==> HasRank(ranks, colors, i))
  }

  ghost predicate IsRank(rank: MergedRank, colors: seq<RankColor>) {
    exists i :: RankSays(rank, colors, i)
  }

  ghost predicate HasRank(ranks: seq<MergedRank>, colors: seq<RankColor>, i: int) {
    exists k :: 0 <= k < |ranks| && RankSays(ranks[k], colors, i)
  }

  lemma {:induction false} KeptCount(colors: seq<RankColor>, n: nat)
    requires n <= |colors|
    ensures |KeptRanks(colors, n)| == |CompleteBefore(colors, n)|
  {
    hide Trim;
    if n > 0 {
      KeptCount(colors, n - 1);
      var front := CompleteBefore(colors, n - 1);
      assert CompleteBefore(colors, n) == front + if Complete(colors, n - 1) then {n - 1} else {};
    }
  }

  lemma {:induction false} KeptPosition(colors: seq<RankColor>, n: nat, p: nat)
    requires n <= |colors| && p < |KeptRanks(colors, n)|
    ensures |KeptRanks(colors, KeptRanks(colors, n)[p])| == p
  {
    hide Kept;
    if p < |KeptRanks(colors, n - 1)| {
      KeptPosition(colors, n - 1, p);
    }
  }

  /** What the merged ranks of a source are. */
  lemma RanksSaySource(colors: seq<RankColor>)
    ensures RanksSay(Ranks(colors), colors)
  {
    hide Trim, KeptRanks, CompleteBefore, Ranks;
    var ranks, ixs := Ranks(colors), KeptRanks(colors, |colors|);
    RanksOfSource(colors, ixs);
    forall k | 0 <= k < |ranks|
      ensures ranks[k].sortOrder == k && RankSays(ranks[k], colors, ixs[k]) && IsRank(ranks[k], colors)
    {
      KeptPosition(colors, |colors|, k);
      KeptCount(colors, ixs[k]);
    }
    hide RankSays;
    forall i | Complete(colors, i) ensures HasRank(ranks, colors, i) {
      assert i in ixs;
      var k :| 0 <= k < |ixs| && ixs[k] == i;
      assert RankSays(ranks[k], colors, i);
    }
  }
}
