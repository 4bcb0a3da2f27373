/** The difficulty leaderboard query: composite scores over a difficulty's linked scenarios. */
module DifficultyLeaderboards {
  import opened Common
  import opened Ordering
  import opened Boards
  import opened ScenarioLeaderboards

  /** A row of `benchmark_difficulty_scenarios`, as far as the query reads it. */
  datatype Link = Link(difficulty: int, scenario: int)

  /** The table's primary key. */
  ghost predicate DistinctLinks(links: seq<Link>) {
    forall i, j :: 0 <= i < j < |links| ==> links[i] != links[j]
  }

  // ---- the query ----

  /** The joined row of a link and a best run: one scenario's part of a composite. */
  function PartOf(l: Link, e: Entry): Standing {
    Standing(l.difficulty, e.player, e.score, e.at, 1)
  }

  /** The join partners of one link among the first `n` best runs. */
  function Matches(l: Link, es: seq<Entry>, n: nat): seq<Standing>
    requires n <= |es|
  {
    if n == 0 then [] else
      Matches(l, es, n - 1) + if es[n - 1].scenario == l.scenario then [PartOf(l, es[n - 1])] else []
  }

  /** `benchmark_difficulty_scenarios JOIN per_player_best`. */
  function Join(links: seq<Link>, es: seq<Entry>): seq<Standing> {
    if links == [] then [] else
      Join(links[..|links| - 1], es) + Matches(links[|links| - 1], es, |es|)
  }

  predicate SameGroup(a: Standing, b: Standing) {
    a.group == b.group && a.player == b.player
  }

  /** `SUM(best_score), COUNT(*), MAX(best_played_at)`, one row at a time. */
  function Combine(total: Standing, part: Standing): Standing {
    total.(score := total.score + part.score, at := if total.at < part.at then part.at else total.at,
           matched := total.matched + part.matched)
  }

  function Accumulate(totals: seq<Standing>, part: Standing): seq<Standing> {
    if totals == [] then [part]
    else if SameGroup(totals[0], part) then [Combine(totals[0], part)] + totals[1..]
    else [totals[0]] + Accumulate(totals[1..], part)
  }

  /** `GROUP BY difficulty_id, player_id`. */
  function GroupBy(parts: seq<Standing>): seq<Standing> {
    if parts == [] then [] else Accumulate(GroupBy(parts[..|parts| - 1]), parts[|parts| - 1])
  }

  function RefreshDifficulties(runs: seq<Run>, links: seq<Link>, maxRank: int): seq<Row> {
    Cut(RowNumbers(GroupBy(Join(links, PerPlayerBest(runs)))), maxRank)
  }

  // ---- the specification ----

  function Add(total: Option<Standing>, part: Standing): Option<Standing> {
    if total.None? then Some(part) else Some(Combine(total.value, part))
  }

  /** A player's standing in a difficulty: over the links of the difficulty, the player's best runs added up. */
  function Composite(runs: seq<Run>, links: seq<Link>, difficulty: int, player: int): Option<Standing> {
    if links == [] then None else
      var total, l := Composite(runs, links[..|links| - 1], difficulty, player), links[|links| - 1];
      var best := BestRun(runs, l.scenario, player);
      if l.difficulty == difficulty && best.Some? then Add(total, PartOf(l, best.value)) else total
  }

  ghost function CompositeBoard(runs: seq<Run>, links: seq<Link>, difficulty: int): map<int, Standing> {
    map p | p in PlayersOf(runs) && Composite(runs, links, difficulty, p).Some? ::
      Composite(runs, links, difficulty, p).value
  }

  /** The scenarios of a difficulty in which a player has a scored run. */
  ghost function MatchedScenarios(runs: seq<Run>, links: seq<Link>, difficulty: int, player: int): set<int> {
    set l | l in links && l.difficulty == difficulty && BestRun(runs, l.scenario, player).Some? :: l.scenario
  }

  /** The sum over those scenarios of the player's best score, which `BestRunIsMaximum` says is the largest. */
  function SumOfBests(runs: seq<Run>, links: seq<Link>, difficulty: int, player: int): real {
    if links == [] then 0.0 else
      var l := links[|links| - 1];
      var best := BestRun(runs, l.scenario, player);
      SumOfBests(runs, links[..|links| - 1], difficulty, player)
      + if l.difficulty == difficulty && best.Some? then best.value.score else 0.0
  }

  /** A composite is the sum of the best scores, counts each matched scenario once, and exists when there is one. */
  lemma {:induction false} CompositeMeans(runs: seq<Run>, links: seq<Link>, difficulty: int, player: int)
    requires DistinctLinks(links)
    ensures var c, scenarios := Composite(runs, links, difficulty, player), MatchedScenarios(runs, links, difficulty, player);
            if c.Some?
            then && c.value.group == difficulty && c.value.player == player
                 && c.value.score == SumOfBests(runs, links, difficulty, player)
                 && c.value.matched == |scenarios| && scenarios != {}
            else SumOfBests(runs, links, difficulty, player) == 0.0 && scenarios == {}
  {
    hide BestRun;
    if links != [] {
      var front, l := links[..|links| - 1], links[|links| - 1];
      CompositeMeans(runs, front, difficulty, player);
      MatchedStep(runs, links, difficulty, player);
      if BestRun(runs, l.scenario, player).Some? {
        BestRunPlayer(runs, l.scenario, player);
      }
    }
  }

  lemma MatchedStep(runs: seq<Run>, links: seq<Link>, difficulty: int, player: int)
    requires links != [] && DistinctLinks(links)
    ensures var front, l := links[..|links| - 1], links[|links| - 1];
            var was, now := MatchedScenarios(runs, front, difficulty, player), MatchedScenarios(runs, links, difficulty, player);
            if l.difficulty == difficulty && BestRun(runs, l.scenario, player).Some?
            then now == was + {l.scenario} && l.scenario !in was
            else now == was
  {
    hide BestRun;
    var front, l := links[..|links| - 1], links[|links| - 1];
    assert links == front + [l];
    var was, now := MatchedScenarios(runs, front, difficulty, player), MatchedScenarios(runs, links, difficulty, player);
    assert l !in front;
    forall s ensures s in now <==> s in was || (s == l.scenario && l.difficulty == difficulty && BestRun(runs, s, player).Some?) {
      assert s in was <==> Link(difficulty, s) in front && BestRun(runs, s, player).Some?;
      assert s in now <==> Link(difficulty, s) in links && BestRun(runs, s, player).Some?;
    }
  }

  /** The last time a composite was improved: no matched scenario's best run is later, and one is that late. */
  lemma {:induction false} CompositeLastPlayed(runs: seq<Run>, links: seq<Link>, difficulty: int, player: int)
    requires Composite(runs, links, difficulty, player).Some?
    ensures var at := Composite(runs, links, difficulty, player).value.at;
            && (exists s :: Link(difficulty, s) in links && BestRun(runs, s, player).Some?
                            && BestRun(runs, s, player).value.at == at)
            && (forall s :: Link(difficulty, s) in links && BestRun(runs, s, player).Some? ==>
                  BestRun(runs, s, player).value.at <= at)
  {
    hide BestRun;
    var front, l := links[..|links| - 1], links[|links| - 1];
    assert links == front + [l];
    if Composite(runs, front, difficulty, player).Some? {
      CompositeLastPlayed(runs, front, difficulty, player);
    } else {
      NoPart(runs, front, difficulty, player);
    }
  }

  lemma {:induction false} NoPart(runs: seq<Run>, links: seq<Link>, difficulty: int, player: int)
    requires Composite(runs, links, difficulty, player).None?
    ensures forall s :: Link(difficulty, s) in links ==> BestRun(runs, s, player).None?
  {
    hide BestRun;
    if links != [] {
      NoPart(runs, links[..|links| - 1], difficulty, player);
      assert links == links[..|links| - 1] + [links[|links| - 1]];
    }
  }

  // ---- the query refines it ----

  /** What grouping a list of parts gives one group. */
  function TotalOf(parts: seq<Standing>, group: int, player: int): Option<Standing> {
    if parts == [] then None else
      var total, part := TotalOf(parts[..|parts| - 1], group, player), parts[|parts| - 1];
      if part.group == group && part.player == player then Add(total, part) else total
  }

  ghost predicate DistinctGroups(xs: seq<Standing>) {
    forall i, j :: 0 <= i < j < |xs| ==> !SameGroup(xs[i], xs[j])
  }

  function Find(xs: seq<Standing>, group: int, player: int): Option<Standing> {
    if xs == [] then None
    else if xs[0].group == group && xs[0].player == player then Some(xs[0])
    else Find(xs[1..], group, player)
  }

  lemma {:induction false} FindMeans(xs: seq<Standing>, x: Standing)
    ensures Find(xs, x.group, x.player).None? <==> forall y :: y in xs ==> !SameGroup(y, x)
    ensures DistinctGroups(xs) ==> (x in xs <==> Find(xs, x.group, x.player) == Some(x))
  {
    if xs != [] {
      FindMeans(xs[1..], x);
      assert xs == [xs[0]] + xs[1..];
      assert xs[0] in xs && forall y :: y in xs <==> y == xs[0] || y in xs[1..];
    }
  }

  lemma {:induction false} AccumulateMeans(totals: seq<Standing>, part: Standing)
    requires DistinctGroups(totals)
    ensures DistinctGroups(Accumulate(totals, part))
    ensures forall g, p :: Find(Accumulate(totals, part), g, p) ==
              if g == part.group && p == part.player then Add(Find(totals, g, p), part) else Find(totals, g, p)
  {
    hide Combine;
    if totals != [] {
      var rest := totals[1..];
      AccumulateMeans(rest, part);
      CombineKeepsGroup(totals[0], part);
      FindMeans(rest, totals[0]);
      FindMeans(Accumulate(rest, part), totals[0]);
      if !SameGroup(totals[0], part) {
        DistinctWithFirst(totals[0], Accumulate(rest, part));
      }
    }
  }

  lemma DistinctWithFirst(x: Standing, rest: seq<Standing>)
    requires DistinctGroups(rest) && forall y :: y in rest ==> !SameGroup(y, x)
    ensures DistinctGroups([x] + rest)
  {
    forall j | 0 <= j < |rest| ensures !SameGroup(x, rest[j]) {
      assert rest[j] in rest;
    }
  }

  lemma CombineKeepsGroup(a: Standing, b: Standing)
    ensures SameGroup(Combine(a, b), a)
  {
  }

  lemma {:induction false} GroupByTotals(parts: seq<Standing>)
    ensures DistinctGroups(GroupBy(parts))
    ensures forall g, p :: Find(GroupBy(parts), g, p) == TotalOf(parts, g, p)
  {
    hide Add, DistinctGroups, Find, Accumulate;
    if parts != [] {
      GroupByTotals(parts[..|parts| - 1]);
      AccumulateMeans(GroupBy(parts[..|parts| - 1]), parts[|parts| - 1]);
    } else {
      NoGroups();
    }
  }

  lemma NoGroups()
    ensures DistinctGroups([]) && forall g, p :: Find([], g, p) == None
  {
  }

  /** One row per group, holding what adding up the group's parts gives. */
  lemma GroupByMeans(parts: seq<Standing>)
    ensures DistinctGroups(GroupBy(parts))
    ensures forall x: Standing :: x in GroupBy(parts) <==> TotalOf(parts, x.group, x.player) == Some(x)
  {
    hide Find, TotalOf, GroupBy, DistinctGroups;
    GroupByTotals(parts);
    forall x: Standing ensures x in GroupBy(parts) <==> TotalOf(parts, x.group, x.player) == Some(x) {
      FindMeans(GroupBy(parts), x);
    }
  }

  lemma {:induction false} TotalAfterMatches(parts: seq<Standing>, l: Link, es: seq<Entry>, n: nat, difficulty: int, player: int)
    requires n <= |es| && SeatsAscend(es)
    ensures var was, now := TotalOf(parts, difficulty, player), TotalOf(parts + Matches(l, es, n), difficulty, player);
            && ((l.difficulty != difficulty || forall k :: 0 <= k < n ==> es[k].scenario != l.scenario || es[k].player != player)
                ==> now == was)
            && (l.difficulty == difficulty ==>
                  forall k :: 0 <= k < n && es[k].scenario == l.scenario && es[k].player == player ==>
                    now == Add(was, PartOf(l, es[k])))
  {
    hide Add;
    if n == 0 {
      assert parts + Matches(l, es, n) == parts;
    } else {
      TotalAfterMatches(parts, l, es, n - 1, difficulty, player);
      var some, all := parts + Matches(l, es, n - 1), parts + Matches(l, es, n);
      if es[n - 1].scenario == l.scenario {
        assert all[..|all| - 1] == some && all[|all| - 1] == PartOf(l, es[n - 1]);
      } else {
        assert all == some;
      }
    }
  }

  /** Joining and grouping adds up exactly the best runs that the specification does. */
  lemma {:induction false} JoinTotals(runs: seq<Run>, links: seq<Link>, difficulty: int, player: int)
    requires UniqueIds(runs)
    ensures TotalOf(Join(links, PerPlayerBest(runs)), difficulty, player) == Composite(runs, links, difficulty, player)
  {
    hide BestRun, PerPlayerBest, Add, SeatsAscend, UniqueIds;
    if links != [] {
      var front, l, es := links[..|links| - 1], links[|links| - 1], PerPlayerBest(runs);
      JoinTotals(runs, front, difficulty, player);
      PerPlayerBestIsBest(runs);
      TotalAfterMatches(Join(front, es), l, es, |es|, difficulty, player);
      var best := BestRun(runs, l.scenario, player);
      if best.Some? {
        BestRunPlayer(runs, l.scenario, player);
        var k :| 0 <= k < |es| && es[k] == best.value;
      } else {
        forall k | 0 <= k < |es| ensures es[k].scenario != l.scenario || es[k].player != player {
          assert es[k] in es;
        }
      }
    }
  }

  lemma CompositePlayer(runs: seq<Run>, links: seq<Link>, difficulty: int, player: int)
    requires Composite(runs, links, difficulty, player).Some?
    ensures player in PlayersOf(runs)
    ensures Composite(runs, links, difficulty, player).value.player == player
    ensures Composite(runs, links, difficulty, player).value.group == difficulty
    decreases links
  {
    hide BestRun, PlayersOf;
    var front, l := links[..|links| - 1], links[|links| - 1];
    if BestRun(runs, l.scenario, player).Some? {
      BestRunPlayer(runs, l.scenario, player);
    }
    if Composite(runs, front, difficulty, player).Some? {
      CompositePlayer(runs, front, difficulty, player);
    }
  }

  lemma CompositeBoardIsBoard(runs: seq<Run>, links: seq<Link>, difficulty: int)
    ensures IsBoard(CompositeBoard(runs, links, difficulty), difficulty)
    ensures forall p :: p in CompositeBoard(runs, links, difficulty) <==> Composite(runs, links, difficulty, p).Some?
  {
    hide Composite, PlayersOf;
    forall p | Composite(runs, links, difficulty, p).Some?
      ensures p in PlayersOf(runs)
      ensures var c := Composite(runs, links, difficulty, p).value; c.group == difficulty && c.player == p
    {
      CompositePlayer(runs, links, difficulty, p);
    }
  }

  lemma DistinctGroupsCompare(xs: seq<Standing>)
    requires DistinctGroups(xs)
    ensures Comparable(xs, InOrder)
  {
  }

  lemma TotalsListBoards(runs: seq<Run>, links: seq<Link>, difficulty: int)
    requires UniqueIds(runs)
    ensures var xs := GroupBy(Join(links, PerPlayerBest(runs)));
            Comparable(xs, InOrder) && Lists(xs, CompositeBoard(runs, links, difficulty), difficulty)
  {
    hide PerPlayerBest, Composite, Join, GroupBy, TotalOf, PlayersOf, Comparable, DistinctGroups;
    var parts, b := Join(links, PerPlayerBest(runs)), CompositeBoard(runs, links, difficulty);
    var xs := GroupBy(parts);
    GroupByMeans(parts);
    DistinctGroupsCompare(xs);
    CompositeBoardIsBoard(runs, links, difficulty);
    forall x: Standing ensures x in xs && x.group == difficulty <==> x.player in b && b[x.player] == x {
      JoinTotals(runs, links, difficulty, x.player);
    }
  }

  /** The rows inserted: one per player with a scored run in a linked scenario, carrying the player's composite and
      ranked one more than the number of players strictly ahead, as far as the cut-off. */
  lemma RefreshDifficultiesMeans(runs: seq<Run>, links: seq<Link>, maxRank: int, row: Row)
    requires UniqueIds(runs)
    ensures var p, b := row.standing.player, CompositeBoard(runs, links, row.standing.group);
            row in RefreshDifficulties(runs, links, maxRank) <==>
            p in b && b[p] == row.standing && row.rank == Place(b, p) && row.rank <= maxRank
  {
    hide PerPlayerBest, CompositeBoard, Join, GroupBy, RowNumbers, Cut, Place, Comparable, IsBoard, Lists;
    var d := row.standing.group;
    TotalsListBoards(runs, links, d);
    CompositeBoardIsBoard(runs, links, d);
    RowsArePlaces(GroupBy(Join(links, PerPlayerBest(runs))), CompositeBoard(runs, links, d), d, row);
  }

  // ---- one more run ----

  /** Not behind in score and time. */
  predicate NoWorse(now: Standing, was: Standing) {
    now.score > was.score || (now.score == was.score && now.at <= was.at)
  }

  lemma CombineBetterPart(a: Standing, b: Standing, x: Standing, y: Standing)
    requires NoWorse(b, a) && NoWorse(y, x)
    ensures NoWorse(Combine(b, y), Combine(a, x))
  {
  }

  /** A further run in a scenario the player already has a scored run in leaves the composite no worse. */
  lemma {:induction false} FurtherRunComposite(runs: seq<Run>, r: Run, links: seq<Link>, difficulty: int)
    requires Scored(r) && BestRun(runs, r.scenario, r.player.value).Some?
    ensures var p := r.player.value;
            var was, now := Composite(runs, links, difficulty, p), Composite(runs + [r], links, difficulty, p);
            && (was.Some? <==> now.Some?)
            && (was.Some? ==> NoWorse(now.value, was.value) && now.value.player == was.value.player
                              && now.value.matched == was.value.matched)
  {
    hide BestRun, NoWorse;
    if links != [] {
      var p, front, l := r.player.value, links[..|links| - 1], links[|links| - 1];
      FurtherRunComposite(runs, r, front, difficulty);
      FurtherRunPart(runs, r, l, p);
      var was, now := Composite(runs, front, difficulty, p), Composite(runs + [r], front, difficulty, p);
      var before, after := BestRun(runs, l.scenario, p), BestRun(runs + [r], l.scenario, p);
      if before.Some? && was.Some? {
        CombineBetterPart(was.value, now.value, PartOf(l, before.value), PartOf(l, after.value));
      }
    }
  }

  lemma FurtherRunPart(runs: seq<Run>, r: Run, l: Link, p: int)
    requires Scored(r) && p == r.player.value && BestRun(runs, r.scenario, p).Some?
    ensures var was, now := BestRun(runs, l.scenario, p), BestRun(runs + [r], l.scenario, p);
            && (was.Some? <==> now.Some?)
            && (was.Some? ==> was.value.player == now.value.player == p && NoWorse(PartOf(l, now.value), PartOf(l, was.value)))
  {
    BestAfterRun(runs, r, l.scenario, p);
    hide BestRun;
    if BestRun(runs, l.scenario, p).Some? {
      BestRunPlayer(runs, l.scenario, p);
    }
  }

  lemma {:induction false} OthersComposite(runs: seq<Run>, r: Run, links: seq<Link>, difficulty: int, player: int)
    requires !Scored(r) || r.player.value != player || Link(difficulty, r.scenario) !in links
    ensures Composite(runs + [r], links, difficulty, player) == Composite(runs, links, difficulty, player)
  {
    hide BestRun, Add;
    if links != [] {
      OthersComposite(runs, r, links[..|links| - 1], difficulty, player);
      BestAfterRun(runs, r, links[|links| - 1].scenario, player);
    }
  }

  /** So it never worsens the player's place in any difficulty. */
  lemma FurtherRunPlace(runs: seq<Run>, r: Run, links: seq<Link>, difficulty: int)
    requires Scored(r) && BestRun(runs, r.scenario, r.player.value).Some?
    ensures var p, b, c := r.player.value, CompositeBoard(runs, links, difficulty), CompositeBoard(runs + [r], links, difficulty);
            && (p in b <==> p in c)
            && (p in b ==> Place(c, p) <= Place(b, p))
            && (forall q :: q in b && q != p && p in b ==> q in c && Place(b, q) <= Place(c, q) <= Place(b, q) + 1)
  {
    hide BestRun, Composite, PlayersOf, Place;
    var p, b, c := r.player.value, CompositeBoard(runs, links, difficulty), CompositeBoard(runs + [r], links, difficulty);
    BoardsAfterRun(runs, r, links, difficulty);
    FurtherRunComposite(runs, r, links, difficulty);
    if p in b {
      FallsBehind(b, c, difficulty, p);
      forall q | q in b && q != p ensures Place(b, q) <= Place(c, q) <= Place(b, q) + 1 {
        OthersMoveByOne(b, c, p, q);
      }
    }
  }

  lemma BoardsAfterRun(runs: seq<Run>, r: Run, links: seq<Link>, difficulty: int)
    requires Scored(r)
    ensures var p, b, c := r.player.value, CompositeBoard(runs, links, difficulty), CompositeBoard(runs + [r], links, difficulty);
            && IsBoard(b, difficulty) && IsBoard(c, difficulty) && AgreeOff(b, c, p)
            && (p in b <==> Composite(runs, links, difficulty, p).Some?)
            && (p in c <==> Composite(runs + [r], links, difficulty, p).Some?)
            && (p in b ==> b[p] == Composite(runs, links, difficulty, p).value)
            && (p in c ==> c[p] == Composite(runs + [r], links, difficulty, p).value)
  {
    hide BestRun, Composite, PlayersOf;
    CompositeBoardIsBoard(runs, links, difficulty);
    CompositeBoardIsBoard(runs + [r], links, difficulty);
    forall q | q != r.player.value
      ensures Composite(runs + [r], links, difficulty, q) == Composite(runs, links, difficulty, q)
    {
      OthersComposite(runs, r, links, difficulty, q);
    }
  }

  lemma AddCommutes(total: Option<Standing>, x: Standing, y: Standing)
    requires SameGroup(x, y) && (total.Some? ==> SameGroup(total.value, x))
    ensures Add(Add(total, x), y) == Add(Add(total, y), x)
  {
  }

  /** A first score in a scenario of the difficulty is added to the composite. */
  lemma {:induction false} FirstScoreComposite(runs: seq<Run>, r: Run, links: seq<Link>, difficulty: int)
    requires Scored(r) && BestRun(runs, r.scenario, r.player.value).None?
    requires DistinctLinks(links) && Link(difficulty, r.scenario) in links
    ensures var p := r.player.value;
            Composite(runs + [r], links, difficulty, p) ==
            Add(Composite(runs, links, difficulty, p), PartOf(Link(difficulty, r.scenario), EntryOf(r)))
  {
    hide BestRun;
    var p, front, l := r.player.value, links[..|links| - 1], links[|links| - 1];
    assert links == front + [l];
    BestAfterRun(runs, r, l.scenario, p);
    if l == Link(difficulty, r.scenario) {
      assert l !in front;
      OthersComposite(runs, r, front, difficulty, p);
    } else {
      FirstScoreComposite(runs, r, front, difficulty);
      var was, best := Composite(runs, front, difficulty, p), BestRun(runs, l.scenario, p);
      if was.Some? {
        CompositePlayer(runs, front, difficulty, p);
      }
      if best.Some? {
        BestRunPlayer(runs, l.scenario, p);
        AddCommutes(was, PartOf(Link(difficulty, r.scenario), EntryOf(r)), PartOf(Link(difficulty, l.scenario), best.value));
      }
    }
  }

  /** When a first score cannot cost a place: it is positive, or zero and no later than the last one. */
  predicate FirstScoreHelps(r: Run, was: Standing)
    requires Scored(r)
  {
    r.score.value > 0.0 || (r.score.value == 0.0 && r.playedAt <= was.at)
  }

  /** A first score in a new scenario keeps the player from falling behind where they stood exactly when it helps; and
      the place worsens exactly when someone who was not ahead before is ahead of the new standing. */
  lemma FirstScorePlace(runs: seq<Run>, r: Run, links: seq<Link>, difficulty: int)
    requires Scored(r) && BestRun(runs, r.scenario, r.player.value).None?
    requires DistinctLinks(links) && Link(difficulty, r.scenario) in links
    requires r.player.value in CompositeBoard(runs, links, difficulty)
    ensures var p, b, c := r.player.value, CompositeBoard(runs, links, difficulty), CompositeBoard(runs + [r], links, difficulty);
            && p in c && c[p] == Combine(b[p], PartOf(Link(difficulty, r.scenario), EntryOf(r)))
            && (Ahead(b[p], c[p]) <==> !FirstScoreHelps(r, b[p]))
            && (FirstScoreHelps(r, b[p]) ==> Place(c, p) <= Place(b, p))
            && (Place(c, p) > Place(b, p) <==>
                exists q :: q in b && q != p && Ahead(b[q], c[p]) && !Ahead(b[q], b[p]))
  {
    hide BestRun, Composite, PlayersOf, Place;
    var p, b, c := r.player.value, CompositeBoard(runs, links, difficulty), CompositeBoard(runs + [r], links, difficulty);
    BoardsAfterRun(runs, r, links, difficulty);
    FirstScoreComposite(runs, r, links, difficulty);
    FallsBehind(b, c, difficulty, p);
  }

  /** Two players with the same single score, the second later. The first plays another scenario of the difficulty for
      the first time, scores nothing, and drops from first to second place. */
  lemma FirstScoreCanCostAPlace()
    ensures var links := [Link(7, 10), Link(7, 20)];
            var runs := [Run(1, Some(1), 10, Some(5.0), 100), Run(2, Some(2), 10, Some(5.0), 200)];
            var r := Run(3, Some(1), 20, Some(0.0), 300);
            && UniqueIds(runs + [r]) && DistinctLinks(links)
            && var b, c := CompositeBoard(runs, links, 7), CompositeBoard(runs + [r], links, 7);
               1 in b && 1 in c && Place(b, 1) == 1 && Place(c, 1) == 2
  {
    var links := [Link(7, 10), Link(7, 20)];
    var first, second := Run(1, Some(1), 10, Some(5.0), 100), Run(2, Some(2), 10, Some(5.0), 200);
    var runs, r := [first, second], Run(3, Some(1), 20, Some(0.0), 300);
    forall p ensures BestRun(runs, 20, p) == None
             ensures BestRun(runs, 10, p) == if p == 1 then Some(EntryOf(first)) else if p == 2 then Some(EntryOf(second)) else None
    {
      BestRunOfTwo(first, second, 20, p);
      BestRunOfTwo(first, second, 10, p);
    }
    hide BestRun;
    forall p ensures Composite(runs, links, 7, p) ==
                     if p == 1 then Some(Standing(7, 1, 5.0, 100, 1)) else if p == 2 then Some(Standing(7, 2, 5.0, 200, 1)) else None
    {
      CompositeOfTwo(runs, Link(7, 10), Link(7, 20), p);
    }
    hide Composite, PlayersOf, Place;
    var b, c := CompositeBoard(runs, links, 7), CompositeBoard(runs + [r], links, 7);
    CompositeBoardIsBoard(runs, links, 7);
    BoardsAfterRun(runs, r, links, 7);
    FirstScoreComposite(runs, r, links, 7);
    assert c[1] == Standing(7, 1, 5.0, 300, 2);
    PlacesOfTwo(b, c);
  }

  lemma PlacesOfTwo(b: map<int, Standing>, c: map<int, Standing>)
    requires forall p :: (p in b <==> p == 1 || p == 2) && (p in c <==> p == 1 || p == 2)
    requires b[1] == Standing(7, 1, 5.0, 100, 1) && b[2] == Standing(7, 2, 5.0, 200, 1)
    requires c[1] == Standing(7, 1, 5.0, 300, 2) && c[2] == b[2]
    ensures Place(b, 1) == 1 && Place(c, 1) == 2
  {
    forall q: int ensures q !in PlayersAhead(b, 1) && (q in PlayersAhead(c, 1) <==> q == 2) {
    }
    SameSet(PlayersAhead(b, 1), {});
    SameSet(PlayersAhead(c, 1), {2});
  }

  lemma BestRunOfTwo(first: Run, second: Run, scenario: int, p: int)
    requires Scored(first) && Scored(second) && first.player != second.player && first.scenario == second.scenario
    ensures BestRun([first, second], scenario, p) ==
            if scenario != first.scenario then None
            else if first.player == Some(p) then Some(EntryOf(first))
            else if second.player == Some(p) then Some(EntryOf(second)) else None
  {
    assert [] + [first] == [first] && [first] + [second] == [first, second];
    BestAfterRun([], first, scenario, p);
    BestAfterRun([first], second, scenario, p);
  }

  lemma CompositeOfTwo(runs: seq<Run>, k: Link, l: Link, p: int)
    requires k.difficulty == l.difficulty && BestRun(runs, l.scenario, p).None?
    ensures var best := BestRun(runs, k.scenario, p);
            Composite(runs, [k, l], k.difficulty, p) == if best.Some? then Some(PartOf(k, best.value)) else None
  {
    hide BestRun;
    assert [k, l][..1] == [k] && [k][..0] == [];
    assert Composite(runs, [], k.difficulty, p) == None;
    var best := BestRun(runs, k.scenario, p);
    assert Composite(runs, [k], k.difficulty, p) == if best.Some? then Some(PartOf(k, best.value)) else None;
  }
}
