/** What the two leaderboards show, said of the table of runs: a player's best run, the totals of a difficulty, and who is
    ahead of whom. */
module PlayerStandings {
  import opened Common
  import opened Boards
  import opened ScenarioLeaderboards
  import opened DifficultyLeaderboards

  /** Run `i` is a scored run of player `p` in scenario `s`. */
  ghost predicate ScoredBy(runs: seq<Run>, s: int, p: int, i: int) {
    0 <= i < |runs| && runs[i].scenario == s && runs[i].player == Some(p) && runs[i].score.Some?
  }

  ghost predicate PlaysIn(runs: seq<Run>, s: int, p: int) {
    exists i :: ScoredBy(runs, s, p, i)
  }

  /** No scored run of the player there has a larger score than run `i`, and none the same score at an earlier time. */
  ghost predicate IsBestRun(runs: seq<Run>, s: int, p: int, i: int) {
    && ScoredBy(runs, s, p, i)
    && forall k :: ScoredBy(runs, s, p, k) ==>
         || runs[k].score.value < runs[i].score.value
         || (runs[k].score.value == runs[i].score.value && runs[i].playedAt <= runs[k].playedAt)
  }

  /** The player's best run has this score and this time. */
  ghost predicate StandsWith(runs: seq<Run>, s: int, p: int, score: real, at: int) {
    exists i :: IsBestRun(runs, s, p, i) && runs[i].score == Some(score) && runs[i].playedAt == at
  }

  /** The larger score comes first, then the earlier time, then the smaller player id. */
  predicate ComesFirst(score: real, at: int, p: int, score': real, at': int, p': int) {
    || score > score'
    || (score == score' && at < at')
    || (score == score' && at == at' && p < p')
  }

  ghost predicate IsAhead(runs: seq<Run>, s: int, q: int, p: int) {
    exists i, k :: IsBestRun(runs, s, q, i) && IsBestRun(runs, s, p, k)
      && ComesFirst(runs[i].score.value, runs[i].playedAt, q, runs[k].score.value, runs[k].playedAt, p)
  }

  /** The players ahead of `p` in a scenario. */
  ghost function AheadInScenario(runs: seq<Run>, s: int, p: int): set<int> {
    set i | 0 <= i < |runs| && runs[i].player.Some? && IsAhead(runs, s, runs[i].player.value, p) :: runs[i].player.value
  }

  // ---- a scenario's board ----

  lemma BestRunOf(runs: seq<Run>, s: int, p: int) returns (i: int)
    requires UniqueIds(runs) && BestRun(runs, s, p).Some?
    ensures IsBestRun(runs, s, p, i) && EntryOf(runs[i]) == BestRun(runs, s, p).value
  {
    hide ScoredRuns, BestRun;
    BestRunIsBest(runs, s, p);
    var e := BestRun(runs, s, p).value;
    i := ScoredFrom(runs, e);
    forall k | ScoredBy(runs, s, p, k)
      ensures || runs[k].score.value < runs[i].score.value
              || (runs[k].score.value == runs[i].score.value && runs[i].playedAt <= runs[k].playedAt)
    {
      BestRunIsMaximum(runs, k);
    }
  }

  lemma SameBest(runs: seq<Run>, s: int, p: int, i: int, k: int)
    requires IsBestRun(runs, s, p, i) && IsBestRun(runs, s, p, k)
    ensures runs[i].score == runs[k].score && runs[i].playedAt == runs[k].playedAt
  {
  }

  lemma PlaysWithBest(runs: seq<Run>, s: int, p: int)
    requires UniqueIds(runs)
    ensures PlaysIn(runs, s, p) <==> BestRun(runs, s, p).Some?
  {
    hide BestRun;
    if i :| ScoredBy(runs, s, p, i) {
      BestRunIsMaximum(runs, i);
    }
    if BestRun(runs, s, p).Some? {
      var i := BestRunOf(runs, s, p);
    }
  }

  /** A player's standing on the board of a scenario. */
  lemma BoardSays(runs: seq<Run>, s: int, p: int)
    requires UniqueIds(runs)
    ensures p in Board(runs, s) <==> PlaysIn(runs, s, p)
    ensures p in Board(runs, s) ==> var x := Board(runs, s)[p];
              x.group == s && x.player == p && x.matched == 1
              && forall i :: IsBestRun(runs, s, p, i) ==> runs[i].score == Some(x.score) && runs[i].playedAt == x.at
    ensures p in Board(runs, s) ==> exists i :: IsBestRun(runs, s, p, i)
  {
    hide BestRun, PlayersOf, PlaysIn;
    BoardIsBoard(runs, s);
    PlaysWithBest(runs, s, p);
    if p in Board(runs, s) {
      var i := BestRunOf(runs, s, p);
      forall k | IsBestRun(runs, s, p, k) ensures runs[k].score == runs[i].score && runs[k].playedAt == runs[i].playedAt {
        SameBest(runs, s, p, i, k);
      }
    }
  }

  lemma AheadSays(runs: seq<Run>, s: int, q: int, p: int)
    requires UniqueIds(runs)
    ensures IsAhead(runs, s, q, p) <==> q in Board(runs, s) && p in Board(runs, s) && Ahead(Board(runs, s)[q], Board(runs, s)[p])
  {
    hide Board, PlaysIn;
    BoardSays(runs, s, q);
    BoardSays(runs, s, p);
    if i, k :| IsBestRun(runs, s, q, i) && IsBestRun(runs, s, p, k)
               && ComesFirst(runs[i].score.value, runs[i].playedAt, q, runs[k].score.value, runs[k].playedAt, p) {
      BestPlays(runs, s, q, i);
      BestPlays(runs, s, p, k);
    }
    if q in Board(runs, s) && p in Board(runs, s) && Ahead(Board(runs, s)[q], Board(runs, s)[p]) {
      var i :| IsBestRun(runs, s, q, i);
      var k :| IsBestRun(runs, s, p, k);
    }
  }

  lemma BestPlays(runs: seq<Run>, s: int, p: int, i: int)
    requires IsBestRun(runs, s, p, i)
    ensures PlaysIn(runs, s, p) && 0 <= i < |runs| && runs[i].player == Some(p) && runs[i].score.Some?
  {
  }

  /** A player's place is one more than the number of players ahead. */
  lemma PlaceSays(runs: seq<Run>, s: int, p: int)
    requires UniqueIds(runs) && p in Board(runs, s)
    ensures Place(Board(runs, s), p) == 1 + |AheadInScenario(runs, s, p)|
  {
    hide Board, IsAhead;
    var b := Board(runs, s);
    forall q ensures q in PlayersAhead(b, p) <==> q in AheadInScenario(runs, s, p) {
      AheadSays(runs, s, q, p);
      if IsAhead(runs, s, q, p) {
        var i := RunOfAhead(runs, s, q, p);
      }
    }
    SameSet(PlayersAhead(b, p), AheadInScenario(runs, s, p));
  }

  lemma RunOfAhead(runs: seq<Run>, s: int, q: int, p: int) returns (i: int)
    requires IsAhead(runs, s, q, p)
    ensures 0 <= i < |runs| && runs[i].player == Some(q)
  {
    var k;
    i, k :| IsBestRun(runs, s, q, i) && IsBestRun(runs, s, p, k)
            && ComesFirst(runs[i].score.value, runs[i].playedAt, q, runs[k].score.value, runs[k].playedAt, p);
  }

  /** A row of the scenario leaderboard: the player's best run, and one more than the players ahead. */
  ghost predicate ScenarioRowSays(row: Row, runs: seq<Run>) {
    var x := row.standing;
    && StandsWith(runs, x.group, x.player, x.score, x.at)
    && row.rank == 1 + |AheadInScenario(runs, x.group, x.player)|
  }

  /** The rows that the scenario refresh inserts are exactly those, as far as the cut-off. */
  lemma RefreshSays(runs: seq<Run>, maxRank: int, row: Row)
    requires UniqueIds(runs)
    ensures row in Refresh(runs, maxRank) <==> row.standing.matched == 1 && ScenarioRowSays(row, runs) && row.rank <= maxRank
  {
    hide Refresh, Board, Place, AheadInScenario, PlaysIn;
    var x := row.standing;
    RefreshMeans(runs, maxRank, row);
    BoardSays(runs, x.group, x.player);
    if x.player in Board(runs, x.group) {
      PlaceSays(runs, x.group, x.player);
      var i :| IsBestRun(runs, x.group, x.player, i);
      BestPlays(runs, x.group, x.player, i);
    }
    if i :| IsBestRun(runs, x.group, x.player, i) && runs[i].score == Some(x.score) && runs[i].playedAt == x.at {
      BestPlays(runs, x.group, x.player, i);
    }
  }

  // ---- a difficulty's board ----

  /** `lks` are the links of the difficulty to scenarios the player plays, in order, and `ixs` a best run for each. */
  ghost predicate Picks(runs: seq<Run>, links: seq<Link>, d: int, p: int, lks: seq<nat>, ixs: seq<nat>) {
    && |ixs| == |lks| && (forall j, k :: 0 <= j < k < |lks| ==> lks[j] < lks[k])
    && (forall k :: 0 <= k < |lks| ==>
          lks[k] < |links| && links[lks[k]].difficulty == d && IsBestRun(runs, links[lks[k]].scenario, p, ixs[k]))
    && (forall l :: 0 <= l < |links| && links[l].difficulty == d && PlaysIn(runs, links[l].scenario, p) ==> l in lks)
  }

  function ScoreAt(runs: seq<Run>, i: nat): real {
    if i < |runs| && runs[i].score.Some? then runs[i].score.value else 0.0
  }

  function ScoreSum(runs: seq<Run>, ixs: seq<nat>): real {
    if ixs == [] then 0.0 else ScoreSum(runs, ixs[..|ixs| - 1]) + ScoreAt(runs, ixs[|ixs| - 1])
  }

  /** The latest time at which one of these runs was played. */
  ghost predicate IsLatest(runs: seq<Run>, ixs: seq<nat>, at: int) {
    && (forall k :: 0 <= k < |ixs| && ixs[k] < |runs| ==> runs[ixs[k]].playedAt <= at)
    && (exists k :: 0 <= k < |ixs| && ixs[k] < |runs| && runs[ixs[k]].playedAt == at)
  }

  /** What a player's best runs in a difficulty add up to: their scores, the time of the latest, and their number. */
  ghost predicate TotalsWith(runs: seq<Run>, links: seq<Link>, d: int, p: int, score: real, at: int, matched: nat) {
    exists lks, ixs :: PicksAddUp(runs, links, d, p, lks, ixs, score, at, matched)
  }

  ghost predicate PicksAddUp(runs: seq<Run>, links: seq<Link>, d: int, p: int, lks: seq<nat>, ixs: seq<nat>,
                             score: real, at: int, matched: nat) {
    && Picks(runs, links, d, p, lks, ixs) && lks != []
    && score == ScoreSum(runs, ixs) && IsLatest(runs, ixs, at) && matched == |lks|
  }

  ghost predicate IsAheadIn(runs: seq<Run>, links: seq<Link>, d: int, q: int, p: int) {
    exists score, at, m, score', at', n ::
      && TotalsWith(runs, links, d, q, score, at, m) && TotalsWith(runs, links, d, p, score', at', n)
      && ComesFirst(score, at, q, score', at', p)
  }

  /** The players ahead of `p` in a difficulty. */
  ghost function AheadInDifficulty(runs: seq<Run>, links: seq<Link>, d: int, p: int): set<int> {
    set i | 0 <= i < |runs| && runs[i].player.Some? && IsAheadIn(runs, links, d, runs[i].player.value, p) :: runs[i].player.value
  }

  lemma LastPick(runs: seq<Run>, links: seq<Link>, d: int, p: int, lks: seq<nat>, ixs: seq<nat>)
    requires links != [] && Picks(runs, links, d, p, lks, ixs)
    requires links[|links| - 1].difficulty == d && PlaysIn(runs, links[|links| - 1].scenario, p)
    ensures lks != [] && lks[|lks| - 1] == |links| - 1 && IsBestRun(runs, links[|links| - 1].scenario, p, ixs[|ixs| - 1])
  {
    hide PlaysIn, IsBestRun;
    var k :| 0 <= k < |lks| && lks[k] == |links| - 1;
    var last := lks[|lks| - 1];
    assert lks[k] <= last < |links|;
  }

  /** The picks without the last link, if it is one of them. */
  lemma PicksBefore(runs: seq<Run>, links: seq<Link>, d: int, p: int, lks: seq<nat>, ixs: seq<nat>)
    requires links != [] && Picks(runs, links, d, p, lks, ixs) && lks != [] && lks[|lks| - 1] == |links| - 1
    ensures Picks(runs, links[..|links| - 1], d, p, lks[..|lks| - 1], ixs[..|ixs| - 1])
  {
    hide PlaysIn, IsBestRun;
    var m, n := |lks| - 1, |links| - 1;
    forall l | 0 <= l < n && links[l].difficulty == d && PlaysIn(runs, links[l].scenario, p) ensures l in lks[..m] {
      assert l in lks;
    }
  }

  /** The picks when the last link is not one. */
  lemma PicksWithout(runs: seq<Run>, links: seq<Link>, d: int, p: int, lks: seq<nat>, ixs: seq<nat>)
    requires links != [] && Picks(runs, links, d, p, lks, ixs)
    requires links[|links| - 1].difficulty != d || !PlaysIn(runs, links[|links| - 1].scenario, p)
    ensures Picks(runs, links[..|links| - 1], d, p, lks, ixs)
  {
    hide PlaysIn, IsBestRun;
    forall k | 0 <= k < |lks| ensures lks[k] < |links| - 1 {
      BestPlays(runs, links[lks[k]].scenario, p, ixs[k]);
    }
  }

  lemma BestRunIs(runs: seq<Run>, s: int, p: int, i: int)
    requires UniqueIds(runs) && IsBestRun(runs, s, p, i)
    ensures BestRun(runs, s, p).Some?
    ensures var e := BestRun(runs, s, p).value;
            e.scenario == s && e.player == p && runs[i].score == Some(e.score) && runs[i].playedAt == e.at
  {
    hide BestRun;
    PlaysWithBest(runs, s, p);
    var k := BestRunOf(runs, s, p);
    SameBest(runs, s, p, i, k);
  }

  lemma LatestStep(runs: seq<Run>, ixs: seq<nat>, i: nat, at: int)
    requires i < |runs| && (ixs != [] ==> IsLatest(runs, ixs, at))
    ensures IsLatest(runs, ixs + [i], if ixs != [] && runs[i].playedAt <= at then at else runs[i].playedAt)
  {
    var all := ixs + [i];
    assert all[|ixs|] == i;
    if ixs != [] && runs[i].playedAt <= at {
      var k :| 0 <= k < |ixs| && ixs[k] < |runs| && runs[ixs[k]].playedAt == at;
      assert all[k] == ixs[k];
    }
  }

  /** Adding up the picks one by one gives the composite. */
  lemma {:induction false} PicksMakeComposite(runs: seq<Run>, links: seq<Link>, d: int, p: int, lks: seq<nat>, ixs: seq<nat>)
    requires UniqueIds(runs) && Picks(runs, links, d, p, lks, ixs)
    ensures var c := Composite(runs, links, d, p);
            && (lks == [] <==> c.None?)
            && (c.Some? ==> c.value.group == d && c.value.player == p && c.value.score == ScoreSum(runs, ixs)
                            && IsLatest(runs, ixs, c.value.at) && c.value.matched == |lks|)
    decreases |links|
  {
    hide BestRun, Picks, PlaysIn, IsLatest, ScoreSum, UniqueIds;
    if links == [] {
      NoPicks(runs, links, d, p, lks, ixs);
    } else {
      var n := |links| - 1;
      var front, l := links[..n], links[n];
      PlaysWithBest(runs, l.scenario, p);
      if l.difficulty == d && PlaysIn(runs, l.scenario, p) {
        SamePicks(runs, links, d, p, lks, ixs);
        LastPick(runs, links, d, p, lks, ixs);
        PicksBefore(runs, links, d, p, lks, ixs);
        var m := |lks| - 1;
        PicksMakeComposite(runs, front, d, p, lks[..m], ixs[..m]);
        BestRunIs(runs, l.scenario, p, ixs[m]);
        var was := Composite(runs, front, d, p);
        LatestStep(runs, ixs[..m], ixs[m], if was.Some? then was.value.at else 0);
        SumStep(runs, ixs, m);
      } else {
        PicksWithout(runs, links, d, p, lks, ixs);
        PicksMakeComposite(runs, front, d, p, lks, ixs);
      }
    }
  }

  lemma SamePicks(runs: seq<Run>, links: seq<Link>, d: int, p: int, lks: seq<nat>, ixs: seq<nat>)
    requires Picks(runs, links, d, p, lks, ixs)
    ensures |ixs| == |lks|
  {
  }

  lemma {:induction false} AscendingBelow(lks: seq<nat>, n: nat)
    requires forall j, k :: 0 <= j < k < |lks| ==> lks[j] < lks[k]
    requires forall k :: 0 <= k < |lks| ==> lks[k] < n
    ensures |lks| <= n
  {
    if lks != [] {
      var m := |lks| - 1;
      AscendingBelow(lks[..m], lks[m]);
    }
  }

  lemma NoPicks(runs: seq<Run>, links: seq<Link>, d: int, p: int, lks: seq<nat>, ixs: seq<nat>)
    requires links == [] && Picks(runs, links, d, p, lks, ixs)
    ensures lks == []
  {
    AscendingBelow(lks, |links|);
  }

  lemma SumStep(runs: seq<Run>, ixs: seq<nat>, m: nat)
    requires |ixs| == m + 1
    ensures ixs == ixs[..m] + [ixs[m]] && ScoreSum(runs, ixs) == ScoreSum(runs, ixs[..m]) + ScoreAt(runs, ixs[m])
    ensures ScoreSum(runs, []) == 0.0
  {
    assert |ixs| - 1 == m;
  }

  /** There is a pick for every difficulty and player. */
  lemma {:induction false} SomePicks(runs: seq<Run>, links: seq<Link>, d: int, p: int) returns (lks: seq<nat>, ixs: seq<nat>)
    requires UniqueIds(runs)
    ensures Picks(runs, links, d, p, lks, ixs)
    decreases |links|
  {
    hide BestRun, PlaysIn, IsBestRun, UniqueIds;
    lks, ixs := [], [];
    if links != [] {
      var n := |links| - 1;
      lks, ixs := SomePicks(runs, links[..n], d, p);
      PlaysWithBest(runs, links[n].scenario, p);
      if links[n].difficulty == d && PlaysIn(runs, links[n].scenario, p) {
        var i := BestRunOf(runs, links[n].scenario, p);
        IndexOfBest(runs, links[n].scenario, p, i);
        lks, ixs := lks + [n], ixs + [i];
        assert lks[|lks| - 1] == n;
      }
    }
  }

  lemma IndexOfBest(runs: seq<Run>, s: int, p: int, i: int)
    requires IsBestRun(runs, s, p, i)
    ensures 0 <= i < |runs|
  {
  }

  /** A player's composite is what the best runs add up to. */
  lemma CompositeSays(runs: seq<Run>, links: seq<Link>, d: int, p: int)
    requires UniqueIds(runs)
    ensures forall score, at, matched :: TotalsWith(runs, links, d, p, score, at, matched) <==>
              Composite(runs, links, d, p) == Some(Standing(d, p, score, at, matched))
  {
    hide Composite, Picks, IsLatest, ScoreSum, UniqueIds;
    var lks, ixs := SomePicks(runs, links, d, p);
    PicksMakeComposite(runs, links, d, p, lks, ixs);
    var c := Composite(runs, links, d, p);
    forall score, at, matched
      ensures TotalsWith(runs, links, d, p, score, at, matched) <==> c == Some(Standing(d, p, score, at, matched))
    {
      if xs, ys :| PicksAddUp(runs, links, d, p, xs, ys, score, at, matched) {
        PicksMakeComposite(runs, links, d, p, xs, ys);
        LatestOnce(runs, ys, at, c.value.at);
      }
      if c == Some(Standing(d, p, score, at, matched)) {
        assert PicksAddUp(runs, links, d, p, lks, ixs, score, at, matched);
      }
    }
  }

  lemma LatestOnce(runs: seq<Run>, ixs: seq<nat>, at: int, at': int)
    requires IsLatest(runs, ixs, at) && IsLatest(runs, ixs, at')
    ensures at == at'
  {
  }

  lemma AheadInSays(runs: seq<Run>, links: seq<Link>, d: int, q: int, p: int)
    requires UniqueIds(runs)
    ensures var b := CompositeBoard(runs, links, d);
            IsAheadIn(runs, links, d, q, p) <==> q in b && p in b && Ahead(b[q], b[p])
  {
    hide Composite, TotalsWith, PlayersOf;
    var b := CompositeBoard(runs, links, d);
    CompositeBoardIsBoard(runs, links, d);
    CompositeSays(runs, links, d, q);
    CompositeSays(runs, links, d, p);
    if q in b && p in b && Ahead(b[q], b[p]) {
      assert TotalsWith(runs, links, d, q, b[q].score, b[q].at, b[q].matched);
      assert TotalsWith(runs, links, d, p, b[p].score, b[p].at, b[p].matched);
    }
  }

  lemma PlaceInSays(runs: seq<Run>, links: seq<Link>, d: int, p: int)
    requires UniqueIds(runs) && p in CompositeBoard(runs, links, d)
    ensures Place(CompositeBoard(runs, links, d), p) == 1 + |AheadInDifficulty(runs, links, d, p)|
  {
    hide Composite, IsAheadIn;
    var b := CompositeBoard(runs, links, d);
    forall q ensures q in PlayersAhead(b, p) <==> q in AheadInDifficulty(runs, links, d, p) {
      AheadInSays(runs, links, d, q, p);
      if q in b {
        assert q in PlayersOf(runs);
      }
    }
    SameSet(PlayersAhead(b, p), AheadInDifficulty(runs, links, d, p));
  }

  /** A row of the difficulty leaderboard: the player's totals, and one more than the players ahead. */
  ghost predicate DifficultyRowSays(row: Row, runs: seq<Run>, links: seq<Link>) {
    var x := row.standing;
    && TotalsWith(runs, links, x.group, x.player, x.score, x.at, x.matched)
    && row.rank == 1 + |AheadInDifficulty(runs, links, x.group, x.player)|
  }

  /** The rows that the difficulty refresh inserts are exactly those, as far as the cut-off. */
  lemma RefreshDifficultiesSays(runs: seq<Run>, links: seq<Link>, maxRank: int, row: Row)
    requires UniqueIds(runs)
    ensures row in RefreshDifficulties(runs, links, maxRank) <==> DifficultyRowSays(row, runs, links) && row.rank <= maxRank
  {
    hide RefreshDifficulties, Composite, Place, AheadInDifficulty, TotalsWith, PlayersOf;
    var x := row.standing;
    RefreshDifficultiesMeans(runs, links, maxRank, row);
    CompositeBoardIsBoard(runs, links, x.group);
    CompositeSays(runs, links, x.group, x.player);
    if x.player in CompositeBoard(runs, links, x.group) {
      PlaceInSays(runs, links, x.group, x.player);
    }
  }
}
