/** `Run` of the leaderboard refresh: both tables are emptied and filled again in one transaction. */
module LeaderboardRuns {
  import opened Common
  import opened Ordering
  import opened Boards
  import opened ScenarioLeaderboards
  import opened DifficultyLeaderboards
  import opened PlayerStandings

  datatype Seat = Seat(group: int, player: int)

  datatype Failure = UniqueViolation | StatementFailed(statement: nat)

  function SeatOf(row: Row): Seat {
    Seat(row.standing.group, row.standing.player)
  }

  /** A table holds these rows and no others. */
  ghost predicate HoldsRows(table: map<Seat, Row>, rows: seq<Row>) {
    && (forall k :: k in table ==> SeatOf(table[k]) == k && table[k] in rows)
    && (forall row :: row in rows ==> SeatOf(row) in table && table[SeatOf(row)] == row)
  }

  /** Inserting rows into an empty table, with its two unique keys checked row by row. */
  method Fill(rows: seq<Row>) returns (r: Result<map<Seat, Row>, Failure>)
    ensures r.Ok? <==> NoClash(rows)
    ensures r.Ok? ==> HoldsRows(r.value, rows) && |r.value| == |rows|
  {
    var table: map<Seat, Row> := map[];
    for i := 0 to |rows|
      invariant HoldsRows(table, rows[..i]) && |table| == i && NoClash(rows[..i])
    {
      assert rows[..i + 1] == rows[..i] + [rows[i]];
      if k :| k in table && Clash(table[k], rows[i]) {
        ClashFound(rows, i, table[k]);
        return Err(UniqueViolation);
      }
      FreshSeat(table, rows, i);
      table := table[SeatOf(rows[i]) := rows[i]];
    }
    assert rows[..|rows|] == rows;
    return Ok(table);
  }

  lemma ClashFound(rows: seq<Row>, i: nat, row: Row)
    requires i < |rows| && row in rows[..i] && Clash(row, rows[i])
    ensures !NoClash(rows)
  {
    var j :| 0 <= j < i && rows[j] == row;
  }

  lemma FreshSeat(table: map<Seat, Row>, rows: seq<Row>, i: nat)
    requires i < |rows| && HoldsRows(table, rows[..i]) && NoClash(rows[..i])
    requires forall k :: k in table ==> !Clash(table[k], rows[i])
    ensures SeatOf(rows[i]) !in table && NoClash(rows[..i + 1])
  {
    forall j | 0 <= j < i ensures !Clash(rows[j], rows[i]) {
      assert rows[..i][j] == rows[j] && rows[j] in rows[..i];
    }
    forall j, k | 0 <= j < k < i ensures !Clash(rows[j], rows[k]) {
      assert rows[..i][j] == rows[j] && rows[..i][k] == rows[k];
    }
  }

  /** The rows of a scenario refresh never break a key. */
  lemma RefreshApart(runs: seq<Run>, maxRank: int)
    requires UniqueIds(runs)
    ensures NoClash(Refresh(runs, maxRank))
  {
    hide PerPlayerBest, ScenarioLeaderboards.Board, Standings, RowNumbers, Cut, IsBoard, Lists, Comparable;
    var xs := Standings(PerPlayerBest(runs));
    var rows := RowNumbers(xs);
    forall i, j | 0 <= i < j < |rows| ensures !Clash(rows[i], rows[j]) {
      var s := rows[i].standing.group;
      StandingsListBoards(runs, s);
      BoardIsBoard(runs, s);
      NumberedApart(xs, ScenarioLeaderboards.Board(runs, s), s, i, j);
    }
    CutKeepsApart(rows, maxRank);
  }

  /** Nor do those of a difficulty refresh. */
  lemma RefreshDifficultiesApart(runs: seq<Run>, links: seq<Link>, maxRank: int)
    requires UniqueIds(runs)
    ensures NoClash(RefreshDifficulties(runs, links, maxRank))
  {
    hide PerPlayerBest, CompositeBoard, Join, GroupBy, RowNumbers, Cut, IsBoard, Lists, Comparable;
    var xs := GroupBy(Join(links, PerPlayerBest(runs)));
    var rows := RowNumbers(xs);
    forall i, j | 0 <= i < j < |rows| ensures !Clash(rows[i], rows[j]) {
      var d := rows[i].standing.group;
      TotalsListBoards(runs, links, d);
      CompositeBoardIsBoard(runs, links, d);
      NumberedApart(xs, CompositeBoard(runs, links, d), d, i, j);
    }
    CutKeepsApart(rows, maxRank);
  }

  /** A row for exactly the players of the board whose place is within the cut-off, with their standing and place. */
  ghost predicate ShowsBoard(table: map<Seat, Row>, board: map<int, Standing>, group: int, maxRank: int) {
    && (forall p :: Seat(group, p) in table <==> p in board && Place(board, p) <= maxRank)
    && (forall p :: Seat(group, p) in table ==> table[Seat(group, p)] == Row(board[p], Place(board, p)))
  }

  lemma TableShowsBoard(table: map<Seat, Row>, rows: seq<Row>, board: map<int, Standing>, group: int, maxRank: int)
    requires HoldsRows(table, rows) && IsBoard(board, group)
    requires forall row: Row :: row.standing.group == group ==>
               (row in rows <==>
                var p := row.standing.player;
                p in board && board[p] == row.standing && row.rank == Place(board, p) && row.rank <= maxRank)
    ensures ShowsBoard(table, board, group, maxRank)
  {
    hide Place;
    forall p ensures Seat(group, p) in table <==> p in board && Place(board, p) <= maxRank
             ensures Seat(group, p) in table ==> table[Seat(group, p)] == Row(board[p], Place(board, p))
    {
      if p in board && Place(board, p) <= maxRank {
        assert SeatOf(Row(board[p], Place(board, p))) == Seat(group, p);
        assert Row(board[p], Place(board, p)) in rows;
      }
      if Seat(group, p) in table {
        var row := table[Seat(group, p)];
        assert row in rows && row.standing.group == group && row.standing.player == p;
      }
    }
  }

  ghost predicate ShowsScenarios(table: map<Seat, Row>, runs: seq<Run>, maxRank: int) {
    forall s :: ShowsBoard(table, ScenarioLeaderboards.Board(runs, s), s, maxRank)
  }

  ghost predicate ShowsDifficulties(table: map<Seat, Row>, runs: seq<Run>, links: seq<Link>, maxRank: int) {
    forall d :: ShowsBoard(table, CompositeBoard(runs, links, d), d, maxRank)
  }

  lemma ScenariosShown(table: map<Seat, Row>, runs: seq<Run>, maxRank: int)
    requires UniqueIds(runs) && HoldsRows(table, Refresh(runs, maxRank))
    ensures ShowsScenarios(table, runs, maxRank)
  {
    hide Refresh, ScenarioLeaderboards.Board, Place, HoldsRows, ShowsBoard;
    forall s ensures ShowsBoard(table, ScenarioLeaderboards.Board(runs, s), s, maxRank) {
      BoardIsBoard(runs, s);
      forall row: Row | row.standing.group == s
        ensures row in Refresh(runs, maxRank) <==>
                var p, b := row.standing.player, ScenarioLeaderboards.Board(runs, s);
                p in b && b[p] == row.standing && row.rank == Place(b, p) && row.rank <= maxRank
      {
        RefreshMeans(runs, maxRank, row);
      }
      TableShowsBoard(table, Refresh(runs, maxRank), ScenarioLeaderboards.Board(runs, s), s, maxRank);
    }
  }

  lemma DifficultiesShown(table: map<Seat, Row>, runs: seq<Run>, links: seq<Link>, maxRank: int)
    requires UniqueIds(runs) && HoldsRows(table, RefreshDifficulties(runs, links, maxRank))
    ensures ShowsDifficulties(table, runs, links, maxRank)
  {
    hide RefreshDifficulties, CompositeBoard, Place, HoldsRows, ShowsBoard;
    forall d ensures ShowsBoard(table, CompositeBoard(runs, links, d), d, maxRank) {
      CompositeBoardIsBoard(runs, links, d);
      forall row: Row | row.standing.group == d
        ensures row in RefreshDifficulties(runs, links, maxRank) <==>
                var p, b := row.standing.player, CompositeBoard(runs, links, d);
                p in b && b[p] == row.standing && row.rank == Place(b, p) && row.rank <= maxRank
      {
        RefreshDifficultiesMeans(runs, links, maxRank, row);
      }
      TableShowsBoard(table, RefreshDifficulties(runs, links, maxRank), CompositeBoard(runs, links, d), d, maxRank);
    }
  }

  // ---- what the tables show, said of the runs ----

  /** A row for exactly the players of a scenario within the cut-off, with their best run and their rank. */
  ghost predicate ScenarioTableSays(table: map<Seat, Row>, runs: seq<Run>, maxRank: int) {
    && (forall s, p :: Seat(s, p) in table <==> PlaysIn(runs, s, p) && 1 + |AheadInScenario(runs, s, p)| <= maxRank)
    && (forall k :: k in table ==>
          && table[k].standing.group == k.group && table[k].standing.player == k.player
          && ScenarioRowSays(table[k], runs))
  }

  /** A row for exactly the players with a run in a linked scenario within the cut-off, with their totals and their rank. */
  ghost predicate DifficultyTableSays(table: map<Seat, Row>, runs: seq<Run>, links: seq<Link>, maxRank: int) {
    && (forall d, p :: Seat(d, p) in table <==>
          PlaysLinked(runs, links, d, p) && 1 + |AheadInDifficulty(runs, links, d, p)| <= maxRank)
    && (forall k :: k in table ==>
          && table[k].standing.group == k.group && table[k].standing.player == k.player
          && DifficultyRowSays(table[k], runs, links))
  }

  ghost predicate PlaysLinked(runs: seq<Run>, links: seq<Link>, d: int, p: int) {
    exists l :: 0 <= l < |links| && links[l].difficulty == d && PlaysIn(runs, links[l].scenario, p)
  }

  lemma ScenarioTable(table: map<Seat, Row>, runs: seq<Run>, maxRank: int)
    requires UniqueIds(runs) && HoldsRows(table, Refresh(runs, maxRank)) && ShowsScenarios(table, runs, maxRank)
    ensures ScenarioTableSays(table, runs, maxRank)
  {
    hide Refresh, ScenarioLeaderboards.Board, Place, AheadInScenario, PlaysIn, ScenarioRowSays, UniqueIds;
    forall s, p ensures Seat(s, p) in table <==> PlaysIn(runs, s, p) && 1 + |AheadInScenario(runs, s, p)| <= maxRank {
      assert ShowsBoard(table, ScenarioLeaderboards.Board(runs, s), s, maxRank);
      BoardSays(runs, s, p);
      if p in ScenarioLeaderboards.Board(runs, s) {
        PlaceSays(runs, s, p);
      }
    }
    forall k | k in table ensures ScenarioRowSays(table[k], runs) {
      RefreshSays(runs, maxRank, table[k]);
    }
  }

  lemma DifficultyTable(table: map<Seat, Row>, runs: seq<Run>, links: seq<Link>, maxRank: int)
    requires UniqueIds(runs) && HoldsRows(table, RefreshDifficulties(runs, links, maxRank))
    requires ShowsDifficulties(table, runs, links, maxRank)
    ensures DifficultyTableSays(table, runs, links, maxRank)
  {
    hide RefreshDifficulties, CompositeBoard, Place, AheadInDifficulty, PlaysLinked, DifficultyRowSays, UniqueIds;
    forall d, p
      ensures Seat(d, p) in table <==> PlaysLinked(runs, links, d, p) && 1 + |AheadInDifficulty(runs, links, d, p)| <= maxRank
    {
      assert ShowsBoard(table, CompositeBoard(runs, links, d), d, maxRank);
      LinkedOnBoard(runs, links, d, p);
      if p in CompositeBoard(runs, links, d) {
        PlaceInSays(runs, links, d, p);
      }
    }
    forall k | k in table ensures DifficultyRowSays(table[k], runs, links) {
      RefreshDifficultiesSays(runs, links, maxRank, table[k]);
    }
  }

  lemma LinkedOnBoard(runs: seq<Run>, links: seq<Link>, d: int, p: int)
    requires UniqueIds(runs)
    ensures PlaysLinked(runs, links, d, p) <==> p in CompositeBoard(runs, links, d)
  {
    hide Composite, PlaysIn, UniqueIds, PlayersOf, ScoreSum, IsLatest;
    CompositeBoardIsBoard(runs, links, d);
    var lks, ixs := SomePicks(runs, links, d, p);
    PicksMakeComposite(runs, links, d, p, lks, ixs);
    if l :| 0 <= l < |links| && links[l].difficulty == d && PlaysIn(runs, links[l].scenario, p) {
      assert l in lks;
    }
    if lks != [] {
      BestPlays(runs, links[lks[0]].scenario, p, ixs[0]);
    }
  }

  class Leaderboards {
    var scenarios: map<Seat, Row>
    var difficulties: map<Seat, Row>
    const maxRank: int

    constructor (maxRank: int)
      requires maxRank > 0
      ensures this.maxRank == maxRank && scenarios == map[] && difficulties == map[]
    {
      this.maxRank, scenarios, difficulties := maxRank, map[], map[];
    }

    /** `Run`. The two inserts are separate statements and, at the default isolation, may see different runs. `failsAt`
        is the statement that fails, if any: two truncations, two inserts and the commit. */
    method Run(firstRuns: seq<Run>, secondRuns: seq<Run>, links: seq<Link>, failsAt: nat)
      returns (r: Result<(nat, nat), Failure>)
      requires UniqueIds(firstRuns) && UniqueIds(secondRuns)
      modifies this
      ensures r.Ok? <==> failsAt > 4
      ensures r.Ok? ==> ShowsScenarios(scenarios, firstRuns, maxRank) && ShowsDifficulties(difficulties, secondRuns, links, maxRank)
      ensures r.Ok? ==> ScenarioTableSays(scenarios, firstRuns, maxRank)
      ensures r.Ok? ==> DifficultyTableSays(difficulties, secondRuns, links, maxRank)
      ensures r.Ok? ==> r.value == (|scenarios|, |difficulties|)
      ensures r.Err? ==> scenarios == old(scenarios) && difficulties == old(difficulties)
    {
      hide Refresh, RefreshDifficulties, HoldsRows, NoClash, ShowsScenarios, ShowsDifficulties, UniqueIds;
      hide ScenarioTableSays, DifficultyTableSays;
      if failsAt == 0 {
        return Err(StatementFailed(0));
      }
      RefreshApart(firstRuns, maxRank);
      var filled := Fill(Refresh(firstRuns, maxRank));
      if failsAt == 1 {
        return Err(StatementFailed(1));
      }
      if failsAt == 2 {
        return Err(StatementFailed(2));
      }
      RefreshDifficultiesApart(secondRuns, links, maxRank);
      var refilled := Fill(RefreshDifficulties(secondRuns, links, maxRank));
      if failsAt == 3 || failsAt == 4 {
        return Err(StatementFailed(failsAt));
      }
      ScenariosShown(filled.value, firstRuns, maxRank);
      DifficultiesShown(refilled.value, secondRuns, links, maxRank);
      ScenarioTable(filled.value, firstRuns, maxRank);
      DifficultyTable(refilled.value, secondRuns, links, maxRank);
      scenarios, difficulties := filled.value, refilled.value;
      return Ok((|scenarios|, |difficulties|));
    }
  }

  ghost predicate HasRank(table: map<Seat, Row>, group: int, rank: int) {
    exists p :: Seat(group, p) in table && table[Seat(group, p)].rank == rank
  }

  /** What a refreshed table holds of one group: ranks exactly 1 to min(players, cut-off), each once, and every player
      left out behind every one kept. */
  lemma ShownRanks(table: map<Seat, Row>, board: map<int, Standing>, group: int, maxRank: nat)
    requires ShowsBoard(table, board, group, maxRank) && IsBoard(board, group)
    ensures forall rank :: HasRank(table, group, rank) <==> 1 <= rank <= (if |board| <= maxRank then |board| else maxRank)
    ensures forall p, q :: Seat(group, p) in table && Seat(group, q) in table && p != q ==>
              table[Seat(group, p)].rank != table[Seat(group, q)].rank
    ensures forall p, q :: Seat(group, p) in table && q in board && Seat(group, q) !in table ==> Ahead(board[p], board[q])
  {
    hide Place, IsBoard, Ahead, UpTo;
    var kept := if |board| <= maxRank then |board| else maxRank;
    var stored := set p | p in board && Place(board, p) <= maxRank;
    StoredRanks(board, group, maxRank);
    UpToHolds(kept);
    forall rank ensures HasRank(table, group, rank) <==> 1 <= rank <= kept {
      if HasRank(table, group, rank) {
        var p :| Seat(group, p) in table && table[Seat(group, p)].rank == rank;
        assert p in stored && Place(board, p) in PlacesOf(board, stored);
      }
      if 1 <= rank <= kept {
        assert rank in PlacesOf(board, stored);
        var p :| p in stored && Place(board, p) == rank;
        assert Seat(group, p) in table;
      }
    }
    forall p, q | Seat(group, p) in table && Seat(group, q) in table && p != q
      ensures table[Seat(group, p)].rank != table[Seat(group, q)].rank
    {
      PlaceFollowsOrder(board, group, p, q);
    }
  }
}
