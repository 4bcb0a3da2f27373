/** The scenario leaderboard query: each player's best run per scenario, ranked and cut off. */
module ScenarioLeaderboards {
  import opened Common
  import opened Ordering
  import opened Boards

  /** A row of the runs table, in whatever order the database reads it. */
  datatype Run = Run(id: int, player: Option<int>, scenario: int, score: Option<real>, playedAt: int)

  /** A run with a player and a score. */
  datatype Entry = Entry(scenario: int, player: int, score: real, at: int, id: int)

  ghost predicate UniqueIds(runs: seq<Run>) {
    forall i, j :: 0 <= i < j < |runs| ==> runs[i].id != runs[j].id
  }

  predicate Scored(r: Run) {
    r.player.Some? && r.score.Some?
  }

  function EntryOf(r: Run): Entry
    requires Scored(r)
  {
    Entry(r.scenario, r.player.value, r.score.value, r.playedAt, r.id)
  }

  /** `WHERE player_id IS NOT NULL AND score IS NOT NULL`. */
  function ScoredRuns(runs: seq<Run>): seq<Entry> {
    if runs == [] then [] else
      var last := runs[|runs| - 1];
      ScoredRuns(runs[..|runs| - 1]) + if Scored(last) then [EntryOf(last)] else []
  }

  predicate SameSeat(a: Entry, b: Entry) {
    a.scenario == b.scenario && a.player == b.player
  }

  predicate SeatLess(a: Entry, b: Entry) {
    a.scenario < b.scenario || (a.scenario == b.scenario && a.player < b.player)
  }

  /** `score DESC, played_at ASC, id ASC`. */
  predicate Better(a: Entry, b: Entry) {
    || a.score > b.score
    || (a.score == b.score && (a.at < b.at || (a.at == b.at && a.id < b.id)))
  }

  predicate RunOrder(a: Entry, b: Entry) {
    SeatLess(a, b) || (SameSeat(a, b) && Better(a, b))
  }

  /** `DISTINCT ON (scenario_id, player_id)`: the first of each stretch of equal keys. */
  function DistinctOn(zs: seq<Entry>): (ys: seq<Entry>)
    ensures forall y :: y in ys ==> y in zs
  {
    if zs == [] then [] else
      var n := |zs| - 1;
      DistinctOn(zs[..n]) + if n > 0 && SameSeat(zs[n - 1], zs[n]) then [] else [zs[n]]
  }

  function PerPlayerBest(runs: seq<Run>): seq<Entry> {
    DistinctOn(SortBy(ScoredRuns(runs), RunOrder))
  }

  function StandingOf(e: Entry): Standing {
    Standing(e.scenario, e.player, e.score, e.at, 1)
  }

  function Standings(es: seq<Entry>): (xs: seq<Standing>)
    ensures |xs| == |es| && forall i :: 0 <= i < |es| ==> xs[i] == StandingOf(es[i])
  {
    seq(|es|, i requires 0 <= i < |es| => StandingOf(es[i]))
  }

  /** The rows that the query inserts. */
  function Refresh(runs: seq<Run>, maxRank: int): seq<Row> {
    Cut(RowNumbers(Standings(PerPlayerBest(runs))), maxRank)
  }

  ghost predicate DistinctEntries(es: seq<Entry>) {
    forall i, j :: 0 <= i < j < |es| ==> es[i].id != es[j].id
  }

  ghost predicate SeatsAscend(es: seq<Entry>) {
    forall i, j :: 0 <= i < j < |es| ==> SeatLess(es[i], es[j])
  }

  // ---- the specification ----

  /** The best scored run of a player in a scenario, found run by run. */
  function BestRun(runs: seq<Run>, scenario: int, player: int): Option<Entry> {
    if runs == [] then None else
      var best, last := BestRun(runs[..|runs| - 1], scenario, player), runs[|runs| - 1];
      if Scored(last) && last.scenario == scenario && last.player.value == player
         && (best.None? || Better(EntryOf(last), best.value))
      then Some(EntryOf(last)) else best
  }

  function PlayersOf(runs: seq<Run>): set<int> {
    set i | 0 <= i < |runs| && runs[i].player.Some? :: runs[i].player.value
  }

  ghost function Board(runs: seq<Run>, scenario: int): map<int, Standing> {
    map p | p in PlayersOf(runs) && BestRun(runs, scenario, p).Some? :: StandingOf(BestRun(runs, scenario, p).value)
  }

  /** Nothing in the list with the same seat comes before `e`. */
  ghost predicate IsBest(es: seq<Entry>, e: Entry) {
    e in es && forall x :: x in es && SameSeat(x, e) && x != e ==> Better(e, x)
  }

  lemma {:induction false} ScoredFrom(runs: seq<Run>, e: Entry) returns (i: nat)
    requires e in ScoredRuns(runs)
    ensures i < |runs| && Scored(runs[i]) && EntryOf(runs[i]) == e
  {
    var n := |runs| - 1;
    if e in ScoredRuns(runs[..n]) {
      i := ScoredFrom(runs[..n], e);
    } else {
      i := n;
    }
  }

  lemma {:induction false} ScoredIds(runs: seq<Run>)
    requires UniqueIds(runs)
    ensures DistinctEntries(ScoredRuns(runs))
  {
    if runs != [] {
      var n := |runs| - 1;
      ScoredIds(runs[..n]);
      forall e | e in ScoredRuns(runs[..n]) ensures e.id != runs[n].id {
        var i := ScoredFrom(runs[..n], e);
      }
      var es, fs := ScoredRuns(runs), ScoredRuns(runs[..n]);
      forall i, j | 0 <= i < j < |es| ensures es[i].id != es[j].id {
        assert es[i] == fs[i] && fs[i] in fs;
        assert es[j] == if j < |fs| then fs[j] else EntryOf(runs[n]);
      }
    }
  }

  /** The best run is a run of that player there, and no other comes before it; without one there are no runs. */
  lemma {:induction false} BestRunIsBest(runs: seq<Run>, scenario: int, player: int)
    requires UniqueIds(runs)
    ensures var best := BestRun(runs, scenario, player);
            if best.Some? then IsBest(ScoredRuns(runs), best.value) && best.value.scenario == scenario && best.value.player == player
            else forall x :: x in ScoredRuns(runs) ==> x.scenario != scenario || x.player != player
  {
    if runs != [] {
      var n := |runs| - 1;
      var front, last := runs[..n], runs[n];
      BestRunIsBest(front, scenario, player);
      forall e | e in ScoredRuns(front) ensures e.id != last.id {
        var i := ScoredFrom(front, e);
      }
    }
  }

  /** So a run is the best one of its player and scenario exactly when nothing comes before it. */
  lemma BestRunUnique(runs: seq<Run>, e: Entry)
    requires UniqueIds(runs)
    ensures BestRun(runs, e.scenario, e.player) == Some(e) <==> IsBest(ScoredRuns(runs), e)
  {
    hide ScoredRuns, BestRun;
    BestRunIsBest(runs, e.scenario, e.player);
  }

  /** A player's best score in a scenario is the largest of all their scores there, reached at the earliest time. */
  lemma BestRunIsMaximum(runs: seq<Run>, i: nat)
    requires UniqueIds(runs) && i < |runs| && Scored(runs[i])
    ensures var best := BestRun(runs, runs[i].scenario, runs[i].player.value);
            && best.Some? && best.value.score >= runs[i].score.value
            && (best.value.score == runs[i].score.value ==> best.value.at <= runs[i].playedAt)
  {
    hide ScoredRuns, BestRun;
    ScoredHas(runs, i);
    BestRunIsBest(runs, runs[i].scenario, runs[i].player.value);
    assert SameSeat(EntryOf(runs[i]), EntryOf(runs[i]));
  }

  lemma {:induction false} ScoredHas(runs: seq<Run>, i: nat)
    requires i < |runs| && Scored(runs[i])
    ensures EntryOf(runs[i]) in ScoredRuns(runs)
  {
    if i < |runs| - 1 {
      ScoredHas(runs[..|runs| - 1], i);
    }
  }

  // ---- the query refines it ----

  lemma SeatBetween(x: Entry, y: Entry, z: Entry)
    requires RunOrder(x, y) && RunOrder(y, z) && SameSeat(x, z)
    ensures SameSeat(y, z)
  {
  }

  lemma NewSeat(front: seq<Entry>, last: Entry)
    requires Sorted(front + [last], RunOrder)
    requires front != [] ==> !SameSeat(front[|front| - 1], last)
    ensures forall x :: x in front ==> !SameSeat(x, last) && SeatLess(x, last)
  {
    var zs, n := front + [last], |front|;
    forall j | 0 <= j < n ensures !SameSeat(front[j], last) && SeatLess(front[j], last) {
      assert RunOrder(zs[j], zs[n]);
      if j < n - 1 && SameSeat(zs[j], zs[n]) {
        SeatBetween(zs[j], zs[n - 1], zs[n]);
      }
    }
  }

  /** On a sorted list, `DISTINCT ON` keeps exactly the best entry of each seat, in the order of the seats. */
  lemma {:induction false} DistinctKeepsBest(zs: seq<Entry>)
    requires Sorted(zs, RunOrder)
    ensures forall e :: e in DistinctOn(zs) <==> IsBest(zs, e)
    ensures SeatsAscend(DistinctOn(zs))
  {
    if zs != [] {
      var n := |zs| - 1;
      var front, last := zs[..n], zs[n];
      DistinctKeepsBest(front);
      assert zs == front + [last];
      forall x | x in front ensures RunOrder(x, last) {
        var j :| 0 <= j < n && front[j] == x;
        assert RunOrder(zs[j], zs[n]);
      }
      if n > 0 && SameSeat(zs[n - 1], last) {
        LastIsWorse(front, last);
        assert DistinctOn(zs) == DistinctOn(front);
      } else {
        NewSeat(front, last);
        LastIsAlone(front, last);
        var ys := DistinctOn(front);
        forall i | 0 <= i < |ys| ensures SeatLess(ys[i], last) {
          assert ys[i] in front;
        }
      }
    }
  }

  lemma LastIsWorse(front: seq<Entry>, last: Entry)
    requires front != [] && SameSeat(front[|front| - 1], last) && forall x :: x in front ==> RunOrder(x, last)
    ensures forall e :: IsBest(front + [last], e) <==> IsBest(front, e)
  {
    var prev, all := front[|front| - 1], front + [last];
    assert prev in front && prev in all && RunOrder(prev, last) && Better(prev, last);
    forall e ensures IsBest(all, e) <==> IsBest(front, e) {
      if IsBest(front, e) {
        forall x | x in all && SameSeat(x, e) && x != e ensures Better(e, x) {
          if x !in front {
            assert RunOrder(e, last);
          }
        }
        assert e in all;
      }
      if IsBest(all, e) {
        if e == last {
          assert false;
        }
        assert forall x :: x in front ==> x in all;
        assert e in front;
      }
    }
  }

  lemma LastIsAlone(front: seq<Entry>, last: Entry)
    requires forall x :: x in front ==> !SameSeat(x, last)
    ensures forall e :: IsBest(front + [last], e) <==> IsBest(front, e) || e == last
  {
    hide Better;
  }

  lemma RunOrderTransitive()
    ensures Transitive(RunOrder)
  {
    forall x, y, z | RunOrder(x, y) && RunOrder(y, z) ensures RunOrder(x, z) {
    }
  }

  lemma RunOrderCompares(es: seq<Entry>)
    requires DistinctEntries(es)
    ensures Comparable(es, RunOrder)
  {
  }

  lemma RunOrderSorts(runs: seq<Run>)
    requires UniqueIds(runs)
    ensures var es := ScoredRuns(runs);
            && Sorted(SortBy(es, RunOrder), RunOrder)
            && forall e :: e in SortBy(es, RunOrder) <==> e in es
  {
    hide ScoredRuns, SortBy;
    var es := ScoredRuns(runs);
    ScoredIds(runs);
    RunOrderTransitive();
    RunOrderCompares(es);
    SortByIsSort(es, RunOrder);
  }

  lemma SameElements(zs: seq<Entry>, es: seq<Entry>, e: Entry)
    requires forall x :: x in zs <==> x in es
    ensures IsBest(zs, e) <==> IsBest(es, e)
  {
    hide Better;
  }

  /** Sorting and scanning finds the best run of every player in every scenario, once. */
  lemma PerPlayerBestIsBest(runs: seq<Run>)
    requires UniqueIds(runs)
    ensures forall e :: e in PerPlayerBest(runs) <==> BestRun(runs, e.scenario, e.player) == Some(e)
    ensures SeatsAscend(PerPlayerBest(runs))
  {
    hide ScoredRuns, SortBy, DistinctOn, BestRun, Sorted, SeatsAscend, Better;
    RunOrderSorts(runs);
    var zs := SortBy(ScoredRuns(runs), RunOrder);
    DistinctKeepsBest(zs);
    forall e ensures e in PerPlayerBest(runs) <==> BestRun(runs, e.scenario, e.player) == Some(e) {
      BestRunUnique(runs, e);
      SameElements(zs, ScoredRuns(runs), e);
    }
  }

  lemma {:induction false} BestRunPlayer(runs: seq<Run>, scenario: int, player: int)
    requires BestRun(runs, scenario, player).Some?
    ensures player in PlayersOf(runs)
    ensures var e := BestRun(runs, scenario, player).value; e.scenario == scenario && e.player == player
  {
    var n := |runs| - 1;
    if BestRun(runs[..n], scenario, player).Some? {
      BestRunPlayer(runs[..n], scenario, player);
      var i :| 0 <= i < n && runs[..n][i].player == Some(player);
      assert runs[i].player == Some(player);
    } else {
      assert runs[n].player == Some(player);
    }
  }

  lemma BoardIsBoard(runs: seq<Run>, scenario: int)
    ensures IsBoard(Board(runs, scenario), scenario)
    ensures forall p :: p in Board(runs, scenario) <==> BestRun(runs, scenario, p).Some?
  {
    hide BestRun, PlayersOf;
    forall p | BestRun(runs, scenario, p).Some?
      ensures p in PlayersOf(runs)
      ensures var e := BestRun(runs, scenario, p).value; e.scenario == scenario && e.player == p
    {
      BestRunPlayer(runs, scenario, p);
    }
  }

  /** What the ranking step gets: comparable standings that list every scenario's board. */
  lemma StandingsListBoards(runs: seq<Run>, scenario: int)
    requires UniqueIds(runs)
    ensures var xs := Standings(PerPlayerBest(runs)); Comparable(xs, InOrder) && Lists(xs, Board(runs, scenario), scenario)
  {
    hide BestRun, PerPlayerBest, PlayersOf;
    PerPlayerBestIsBest(runs);
    BoardIsBoard(runs, scenario);
    var es, b := PerPlayerBest(runs), Board(runs, scenario);
    var xs := Standings(es);
    forall x: Standing ensures x in xs && x.group == scenario <==> x.player in b && b[x.player] == x {
      if x in xs && x.group == scenario {
        var i :| 0 <= i < |xs| && xs[i] == x;
        assert es[i] in es;
      }
      if x.player in b && b[x.player] == x {
        var e := BestRun(runs, scenario, x.player).value;
        BestRunPlayer(runs, scenario, x.player);
        assert e in es;
        var i :| 0 <= i < |es| && es[i] == e;
        assert xs[i] == x;
      }
    }
  }

  /** The rows inserted, for every table of runs: one per player with a scored run, carrying that player's best run and
      ranked one more than the number of players strictly ahead, as far as the cut-off. */
  lemma RefreshMeans(runs: seq<Run>, maxRank: int, row: Row)
    requires UniqueIds(runs)
    ensures var p, b := row.standing.player, Board(runs, row.standing.group);
            row in Refresh(runs, maxRank) <==>
            p in b && b[p] == row.standing && row.rank == Place(b, p) && row.rank <= maxRank
  {
    hide BestRun, PerPlayerBest, Board, Standings, RowNumbers, Cut, Place, IsBoard, Lists, Comparable;
    var s := row.standing.group;
    StandingsListBoards(runs, s);
    BoardIsBoard(runs, s);
    RowsArePlaces(Standings(PerPlayerBest(runs)), Board(runs, s), s, row);
  }

  // ---- one more run ----

  lemma BestAfterRun(runs: seq<Run>, r: Run, scenario: int, player: int)
    ensures var was, now := BestRun(runs, scenario, player), BestRun(runs + [r], scenario, player);
            if Scored(r) && r.scenario == scenario && r.player.value == player
            then now == if was.None? || Better(EntryOf(r), was.value) then Some(EntryOf(r)) else was
            else now == was
  {
    assert (runs + [r])[..|runs|] == runs;
  }

  /** A new scored run never worsens its player's place in its scenario, moves every other player by at most one, and
      changes no other scenario. */
  lemma NewRunMovesPlaces(runs: seq<Run>, r: Run, scenario: int)
    requires Scored(r)
    ensures var p, b, c := r.player.value, Board(runs, scenario), Board(runs + [r], scenario);
            if scenario != r.scenario then c == b
            else
              && p in c && (p in b ==> Place(c, p) <= Place(b, p))
              && (forall q :: q in b && q != p ==> q in c && Place(b, q) <= Place(c, q) <= Place(b, q) + 1)
  {
    hide BestRun, PlayersOf, Place, Ahead;
    var p, b, c := r.player.value, Board(runs, scenario), Board(runs + [r], scenario);
    BoardIsBoard(runs, scenario);
    BoardIsBoard(runs + [r], scenario);
    forall q ensures q in c && q in b && (q != p || scenario != r.scenario) ==> c[q] == b[q] {
      BestAfterRun(runs, r, scenario, q);
    }
    forall q ensures q in c <==> q in b || (q == p && scenario == r.scenario) {
      BestAfterRun(runs, r, scenario, q);
    }
    if scenario == r.scenario {
      BestAfterRun(runs, r, scenario, p);
      assert AgreeOff(b, c, p);
      if p in b {
        NewBestNotBehind(BestRun(runs, scenario, p).value, EntryOf(r));
        FallsBehind(b, c, scenario, p);
      }
      forall q | q in b && q != p ensures Place(b, q) <= Place(c, q) <= Place(b, q) + 1 {
        OthersMoveByOne(b, c, p, q);
      }
    }
  }

  lemma NewBestNotBehind(was: Entry, now: Entry)
    requires SameSeat(was, now)
    ensures Better(now, was) ==> !Ahead(StandingOf(was), StandingOf(now))
    ensures !Ahead(StandingOf(was), StandingOf(was))
  {
  }
}
