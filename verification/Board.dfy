/** Leaderboards: the order of standings, places, and `ROW_NUMBER`. */
module Boards {
  import opened Common
  import opened Ordering

  /** A player's standing in a scenario or a difficulty. `matched` counts scenarios and does not affect the order. */
  datatype Standing = Standing(group: int, player: int, score: real, at: int, matched: nat)
  datatype Row = Row(standing: Standing, rank: int)

  /** `ORDER BY score DESC, at ASC, player_id ASC`. */
  predicate Ahead(a: Standing, b: Standing) {
    || a.score > b.score
    || (a.score == b.score && (a.at < b.at || (a.at == b.at && a.player < b.player)))
  }

  predicate InOrder(a: Standing, b: Standing) {
    a.group < b.group || (a.group == b.group && Ahead(a, b))
  }

  // ---- the specification: a board gives each of its players a standing ----

  ghost predicate IsBoard(board: map<int, Standing>, group: int) {
    forall p :: p in board ==> board[p].player == p && board[p].group == group
  }

  ghost function PlayersAhead(board: map<int, Standing>, p: int): set<int>
    requires p in board
  {
    set q | q in board && Ahead(board[q], board[p])
  }

  /** One more than the number of players strictly ahead. */
  ghost function Place(board: map<int, Standing>, p: int): nat
    requires p in board
  {
    1 + |PlayersAhead(board, p)|
  }

  lemma SmallerOrEqual(a: set<int>, b: set<int>)
    requires a <= b
    ensures |a| <= |b| && (a != b ==> |a| < |b|)
  {
    assert |b - a| + |a| == |b|;
    if a != b {
      assert b - a != {};
    }
  }

  /** What stands ahead of someone who is ahead is ahead. */
  lemma AheadChain(board: map<int, Standing>, p: int, q: int)
    requires p in board && q in board && Ahead(board[p], board[q])
    ensures PlayersAhead(board, p) + {p} <= PlayersAhead(board, q) && p !in PlayersAhead(board, p)
  {
    forall x | x in PlayersAhead(board, p) ensures x in PlayersAhead(board, q) {
      assert Ahead(board[x], board[p]);
    }
  }

  /** Being ahead is having the better place, and nobody shares one. */
  lemma PlaceFollowsOrder(board: map<int, Standing>, group: int, p: int, q: int)
    requires IsBoard(board, group) && p in board && q in board
    ensures Ahead(board[p], board[q]) <==> Place(board, p) < Place(board, q)
    ensures Place(board, p) == Place(board, q) ==> p == q
  {
    assert board[p].player == p && board[q].player == q;
    if Ahead(board[p], board[q]) {
      AheadChain(board, p, q);
      SmallerOrEqual(PlayersAhead(board, p) + {p}, PlayersAhead(board, q));
    } else if p != q {
      AheadChain(board, q, p);
      SmallerOrEqual(PlayersAhead(board, q) + {q}, PlayersAhead(board, p));
    }
  }

  ghost function UpTo(n: nat): set<int> {
    if n == 0 then {} else UpTo(n - 1) + {n as int}
  }

  lemma {:induction false} UpToHolds(n: nat)
    ensures |UpTo(n)| == n
    ensures forall r :: r in UpTo(n) <==> 1 <= r <= n
  {
    if n > 0 {
      UpToHolds(n - 1);
    }
  }

  ghost function PlacesOf(board: map<int, Standing>, players: set<int>): set<int>
    requires players <= board.Keys
  {
    set p | p in players :: Place(board, p)
  }

  lemma {:induction false} AsManyPlaces(board: map<int, Standing>, group: int, players: set<int>)
    requires IsBoard(board, group) && players <= board.Keys
    ensures |PlacesOf(board, players)| == |players|
    decreases players
  {
    hide Place, IsBoard;
    if players == {} {
      assert PlacesOf(board, players) == {};
    } else {
      var p := Someone(players);
      var rest := players - {p};
      AsManyPlaces(board, group, rest);
      assert PlacesOf(board, players) == PlacesOf(board, rest) + {Place(board, p)};
      forall q | q in rest ensures Place(board, q) != Place(board, p) {
        PlaceFollowsOrder(board, group, p, q);
      }
    }
  }

  /** The places of a board with n players are exactly 1 to n. */
  lemma PlacesAreRanks(board: map<int, Standing>, group: int)
    requires IsBoard(board, group)
    ensures PlacesOf(board, board.Keys) == UpTo(|board|)
  {
    hide Ahead, IsBoard, UpTo;
    var places := PlacesOf(board, board.Keys);
    AsManyPlaces(board, group, board.Keys);
    UpToHolds(|board|);
    assert |board.Keys| == |board|;
    forall p | p in board ensures Place(board, p) in UpTo(|board|) {
      NotAheadOfOneself(board, p);
      SmallerOrEqual(PlayersAhead(board, p) + {p}, board.Keys);
    }
    assert places <= UpTo(|board|);
    SmallerOrEqual(places, UpTo(|board|));
  }

  lemma NotAheadOfOneself(board: map<int, Standing>, p: int)
    requires p in board
    ensures p !in PlayersAhead(board, p)
  {
  }

  // ---- when one player's standing changes ----

  ghost predicate AgreeOff(b: map<int, Standing>, c: map<int, Standing>, p: int) {
    forall q :: q != p ==> (q in b <==> q in c) && (q in b ==> b[q] == c[q])
  }

  /** Another player's place stays or grows by one when `p` comes to stand no worse than before. */
  lemma OthersMoveByOne(b: map<int, Standing>, c: map<int, Standing>, p: int, q: int)
    requires AgreeOff(b, c, p) && p in c && (p in b ==> b[p].player == c[p].player && !Ahead(b[p], c[p]))
    requires q != p && q in b
    ensures Place(b, q) <= Place(c, q) <= Place(b, q) + 1
    ensures Place(c, q) == Place(b, q) + 1 <==> Ahead(c[p], c[q]) && (p in b ==> !Ahead(b[p], b[q]))
  {
    var was, now := PlayersAhead(b, q), PlayersAhead(c, q);
    forall x | x != p ensures x in was <==> x in now {
    }
    if p in was {
      NotBehindChain(b[p], c[p], b[q]);
      assert now == was;
    } else if p in now {
      assert now == was + {p};
    } else {
      assert now == was;
    }
  }

  lemma NotBehindChain(x: Standing, y: Standing, z: Standing)
    requires !Ahead(x, y) && x.player == y.player && Ahead(x, z)
    ensures Ahead(y, z)
  {
  }

  /** The player's own place worsens exactly when someone who was not ahead of the old standing is ahead of the new. */
  lemma FallsBehind(b: map<int, Standing>, c: map<int, Standing>, group: int, p: int)
    requires IsBoard(b, group) && IsBoard(c, group) && AgreeOff(b, c, p) && p in b && p in c
    ensures Place(c, p) > Place(b, p) <==>
            exists q :: q in b && q != p && Ahead(b[q], c[p]) && !Ahead(b[q], b[p])
    ensures !Ahead(b[p], c[p]) ==> Place(c, p) <= Place(b, p)
  {
    var was, now := PlayersAhead(b, p), PlayersAhead(c, p);
    NotAheadOfOneself(b, p);
    NotAheadOfOneself(c, p);
    assert b[p].player == c[p].player;
    forall q | q in was || q in now
      ensures q != p && q in b && q in c && b[q] == c[q]
      ensures if Ahead(b[p], c[p]) then q in now else q in was
    {
    }
    if Ahead(b[p], c[p]) {
      SmallerOrEqual(was, now);
      if now != was {
        var q :| q in now && q !in was;
      }
    } else {
      SmallerOrEqual(now, was);
    }
  }

  // ---- ROW_NUMBER() OVER (PARTITION BY group ORDER BY ...) ----

  /** The number of an entry in its partition: one more than that of the entry before it, or 1 where a partition starts. */
  function NumberAt(zs: seq<Standing>, i: nat): nat
    requires i < |zs|
  {
    if i > 0 && zs[i - 1].group == zs[i].group then NumberAt(zs, i - 1) + 1 else 1
  }

  function RowNumbers(xs: seq<Standing>): (rows: seq<Row>)
    ensures |rows| == |SortBy(xs, InOrder)|
  {
    var zs := SortBy(xs, InOrder);
    seq(|zs|, i requires 0 <= i < |zs| => Row(zs[i], NumberAt(zs, i)))
  }

  /** The board of a group lists exactly the standings of that group. */
  ghost predicate Lists(xs: seq<Standing>, board: map<int, Standing>, group: int) {
    forall x: Standing :: x in xs && x.group == group <==> x.player in board && board[x.player] == x
  }

  lemma InOrderTransitive()
    ensures Transitive(InOrder)
  {
  }

  lemma {:induction false} NumberIsPlace(zs: seq<Standing>, board: map<int, Standing>, group: int, i: nat)
    requires Sorted(zs, InOrder) && IsBoard(board, group) && Lists(zs, board, group)
    requires i < |zs| && zs[i].group == group
    ensures zs[i].player in board && NumberAt(zs, i) == Place(board, zs[i].player)
  {
    hide Ahead;
    assert zs[i] in zs;
    if i > 0 && zs[i - 1].group == group {
      NumberIsPlace(zs, board, group, i - 1);
      AheadOfNext(zs, board, group, i);
    } else {
      NoneAheadOfFirst(zs, board, group, i);
    }
  }

  lemma NothingBetween(x: Standing, y: Standing, z: Standing)
    requires x.group == z.group && InOrder(x, y) && InOrder(y, z)
    ensures y.group == z.group
  {
  }

  lemma NoneAheadOfFirst(zs: seq<Standing>, board: map<int, Standing>, group: int, i: nat)
    requires Sorted(zs, InOrder) && IsBoard(board, group) && Lists(zs, board, group)
    requires i < |zs| && zs[i].group == group && (i > 0 ==> zs[i - 1].group != group)
    requires zs[i].player in board && board[zs[i].player] == zs[i]
    ensures PlayersAhead(board, zs[i].player) == {}
  {
    if PlayersAhead(board, zs[i].player) != {} {
      var q := Someone(PlayersAhead(board, zs[i].player));
      var j := EarlierIndex(zs, board, group, i, q);
      if j < i - 1 {
        NothingBetween(zs[j], zs[i - 1], zs[i]);
      }
      assert false;
    }
  }

  lemma EarlierIndex(zs: seq<Standing>, board: map<int, Standing>, group: int, i: nat, q: int) returns (j: nat)
    requires Sorted(zs, InOrder) && IsBoard(board, group) && Lists(zs, board, group)
    requires i < |zs| && zs[i].group == group && q in board && Ahead(board[q], zs[i])
    ensures j < i && zs[j] == board[q]
  {
    assert board[q] in zs;
    j :| 0 <= j < |zs| && zs[j] == board[q];
    assert j > i ==> InOrder(zs[i], zs[j]);
  }

  lemma AheadOfNext(zs: seq<Standing>, board: map<int, Standing>, group: int, i: nat)
    requires Sorted(zs, InOrder) && IsBoard(board, group) && Lists(zs, board, group)
    requires 0 < i < |zs| && zs[i].group == group && zs[i - 1].group == group
    requires zs[i].player in board && board[zs[i].player] == zs[i]
    requires zs[i - 1].player in board && board[zs[i - 1].player] == zs[i - 1]
    ensures Place(board, zs[i].player) == Place(board, zs[i - 1].player) + 1
  {
    var prev, here := zs[i - 1].player, zs[i].player;
    assert InOrder(zs[i - 1], zs[i]);
    forall q | q in PlayersAhead(board, here) ensures q == prev || q in PlayersAhead(board, prev) {
      var j := EarlierIndex(zs, board, group, i, q);
      assert j < i - 1 ==> InOrder(zs[j], zs[i - 1]);
    }
    AheadChain(board, prev, here);
    assert PlayersAhead(board, here) == PlayersAhead(board, prev) + {prev};
  }

  /** Sorting and numbering gives every player of every group one row, with the player's place. */
  lemma RowsArePlaces(xs: seq<Standing>, board: map<int, Standing>, group: int, row: Row)
    requires Comparable(xs, InOrder) && IsBoard(board, group) && Lists(xs, board, group) && row.standing.group == group
    ensures row in RowNumbers(xs) <==>
            var p := row.standing.player; p in board && board[p] == row.standing && row.rank == Place(board, p)
  {
    hide Ahead, Place, SortBy, NumberAt, IsBoard;
    InOrderTransitive();
    SortByIsSort(xs, InOrder);
    var zs, rows := SortBy(xs, InOrder), RowNumbers(xs);
    forall i | 0 <= i < |zs| && zs[i].group == group
      ensures zs[i].player in board && rows[i] == Row(zs[i], Place(board, zs[i].player))
    {
      NumberIsPlace(zs, board, group, i);
    }
    var p := row.standing.player;
    if p in board && board[p] == row.standing && row.rank == Place(board, p) {
      var i :| 0 <= i < |zs| && zs[i] == row.standing;
      assert rows[i] == row;
    }
    if row in rows {
      var i :| 0 <= i < |rows| && rows[i] == row;
      assert zs[i] == row.standing;
      assert zs[i] in zs;
    }
  }

  // ---- the cut-off ----

  /** `WHERE rank <= maxRank`. */
  function Cut(rows: seq<Row>, maxRank: int): (kept: seq<Row>)
    ensures forall row :: row in kept <==> row in rows && row.rank <= maxRank
  {
    if rows == [] then [] else
      var last := rows[|rows| - 1];
      var front := Cut(rows[..|rows| - 1], maxRank);
      assert rows == rows[..|rows| - 1] + [last];
      if last.rank <= maxRank then front + [last] else front
  }

  // ---- the keys of a leaderboard table ----

  /** The two rows break the primary key (group, player) or the unique index (group, rank). */
  predicate Clash(a: Row, b: Row) {
    a.standing.group == b.standing.group && (a.standing.player == b.standing.player || a.rank == b.rank)
  }

  ghost predicate NoClash(rows: seq<Row>) {
    forall i, j :: 0 <= i < j < |rows| ==> !Clash(rows[i], rows[j])
  }

  lemma NumberedApart(xs: seq<Standing>, board: map<int, Standing>, group: int, i: nat, j: nat)
    requires Comparable(xs, InOrder) && IsBoard(board, group) && Lists(xs, board, group)
    requires i < j < |RowNumbers(xs)| && RowNumbers(xs)[i].standing.group == group
    ensures !Clash(RowNumbers(xs)[i], RowNumbers(xs)[j])
  {
    hide Place, SortBy, NumberAt;
    InOrderTransitive();
    SortByIsSort(xs, InOrder);
    var zs := SortBy(xs, InOrder);
    assert InOrder(zs[i], zs[j]);
    if zs[j].group == group {
      NumberIsPlace(zs, board, group, i);
      NumberIsPlace(zs, board, group, j);
      assert zs[i] in zs && zs[j] in zs;
      PlaceFollowsOrder(board, group, zs[i].player, zs[j].player);
    }
  }

  lemma {:induction false} CutKeepsApart(rows: seq<Row>, maxRank: int)
    requires NoClash(rows)
    ensures NoClash(Cut(rows, maxRank))
  {
    hide Clash;
    if rows != [] {
      var n := |rows| - 1;
      CutKeepsApart(rows[..n], maxRank);
      var front := Cut(rows[..n], maxRank);
      forall i | 0 <= i < |front| ensures !Clash(front[i], rows[n]) {
        assert front[i] in rows[..n];
        var j :| 0 <= j < n && rows[j] == front[i];
      }
    }
  }

  /** Which players are stored: their ranks are exactly 1 to min(n, maxRank), and whoever is left out is behind. */
  lemma StoredRanks(board: map<int, Standing>, group: int, maxRank: nat)
    requires IsBoard(board, group)
    ensures var stored := set p | p in board && Place(board, p) <= maxRank;
            && PlacesOf(board, stored) == UpTo(if |board| <= maxRank then |board| else maxRank)
            && forall p, q :: p in stored && q in board && q !in stored ==> Ahead(board[p], board[q])
  {
    hide Place, IsBoard, Ahead, UpTo;
    PlacesAreRanks(board, group);
    UpToHolds(|board|);
    UpToHolds(if |board| <= maxRank then |board| else maxRank);
    var stored := set p | p in board && Place(board, p) <= maxRank;
    var all, places := PlacesOf(board, board.Keys), PlacesOf(board, stored);
    var min := if |board| <= maxRank then |board| else maxRank;
    forall r ensures r in places <==> r in UpTo(min) {
      assert r in UpTo(min) <==> r in all && r <= maxRank;
      if r in all && r <= maxRank {
        var p :| p in board.Keys && Place(board, p) == r;
        assert p in stored;
      }
    }
    SameSet(places, UpTo(min));
    forall p, q | p in stored && q in board && q !in stored ensures Ahead(board[p], board[q]) {
      PlaceFollowsOrder(board, group, p, q);
    }
  }
}
