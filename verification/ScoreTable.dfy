/** The score table of a contest and the list read from it
    (backend/internal/repository/contest_repository.go, contest_score_service.go). */
module ScoreTable {
  import opened Common

  /** A row; its position in the table is its id. `rank` 0 means not ranked yet, and `user` is
      the member whose submission created the row. */
  datatype Row = Row(team: nat, user: nat, total: int, solves: nat, lastSolve: int, rank: nat)

  datatype Entry = Entry(team: nat, user: nat, rank: nat, total: int, solves: nat, lastSolve: int)

  type Rows = seq<Row>

  /** Largest page the table hands out. */
  const PAGE := 100

  predicate HasRow(rows: Rows, team: nat) { exists i | 0 <= i < |rows| :: rows[i].team == team }

  function Bump(row: Row, points: int, now: int): Row {
    row.(total := row.total + points, solves := row.solves + 1, lastSolve := now)
  }

  /** Adds a solve to every row of the team, or gives the team its first row. */
  function AddScore(rows: Rows, team: nat, user: nat, points: int, now: int): Rows {
    if HasRow(rows, team) then
      seq(|rows|, i requires 0 <= i < |rows| => if rows[i].team == team then Bump(rows[i], points, now) else rows[i])
    else rows + [Row(team, user, points, 1, now, 0)]
  }

  /** The order of the board: higher total first, then earlier last solve; rows that tie in both
      keep the order of their ids. */
  predicate Before(rows: Rows, i: nat, j: nat)
    requires i < |rows| && j < |rows|
  {
    var a, b := rows[i], rows[j];
    a.total > b.total || (a.total == b.total && (a.lastSolve < b.lastSolve || (a.lastSolve == b.lastSolve && i < j)))
  }

  function Ahead(rows: Rows, i: nat): set<nat>
    requires i < |rows|
  {
    set j: nat | j < |rows| && Before(rows, j, i)
  }

  function RankOf(rows: Rows, i: nat): nat
    requires i < |rows|
  {
    1 + |Ahead(rows, i)|
  }

  function UpdateRanks(rows: Rows): Rows {
    seq(|rows|, i requires 0 <= i < |rows| => rows[i].(rank := RankOf(rows, i)))
  }

  predicate InTable(rows: Rows, board: seq<nat>) { forall k | 0 <= k < |board| :: board[k] < |rows| }

  /** Row ids in board order. */
  function Place(rows: Rows, i: nat, board: seq<nat>): (r: seq<nat>)
    requires i < |rows| && InTable(rows, board)
    ensures InTable(rows, r) && |r| == |board| + 1
  {
    if board == [] || Before(rows, i, board[0]) then [i] + board else [board[0]] + Place(rows, i, board[1..])
  }

  function Board(rows: Rows, n: nat): (board: seq<nat>)
    requires n <= |rows|
    ensures InTable(rows, board) && |board| == n
  {
    if n == 0 then [] else Place(rows, n - 1, Board(rows, n - 1))
  }

  function ToEntry(row: Row, place: nat): Entry {
    Entry(row.team, row.user, if row.rank == 0 then place + 1 else row.rank, row.total, row.solves, row.lastSolve)
  }

  function Page(rows: Rows): (page: seq<nat>)
    ensures InTable(rows, page)
  {
    Board(rows, |rows|)[..Min(PAGE, |rows|)]
  }

  /** The first page of the board, as it is shown and cached. */
  function Load(rows: Rows): seq<Entry> {
    var page := Page(rows);
    seq(|page|, i requires 0 <= i < |page| => ToEntry(rows[page[i]], i))
  }

  method LoadScoreboardList(rows: Rows) returns (list: seq<Entry>)
    ensures list == Load(rows)
  {
    var page := Page(rows);
    list := [];
    for i := 0 to |page|
      invariant |list| == i
      invariant forall k | 0 <= k < i :: list[k] == ToEntry(rows[page[k]], k)
    {
      var row := rows[page[i]];
      var rank := row.rank;
      if rank == 0 {
        rank := i + 1;
      }
      list := list + [Entry(row.team, row.user, rank, row.total, row.solves, row.lastSolve)];
    }
  }

  // ---- The board is the sorted table -----------------------------------------------------------

  ghost predicate Sorted(rows: Rows, board: seq<nat>)
    requires InTable(rows, board)
  {
    forall a, b | 0 <= a < b < |board| :: Before(rows, board[a], board[b])
  }

  lemma {:induction false} PlaceSorts(rows: Rows, i: nat, board: seq<nat>)
    requires i < |rows| && InTable(rows, board) && i !in board && Sorted(rows, board)
    ensures Sorted(rows, Place(rows, i, board))
    ensures forall k: nat :: k in Place(rows, i, board) <==> k == i || k in board
  {
    if board != [] && !Before(rows, i, board[0]) {
      var rest := board[1..];
      assert Sorted(rows, rest);
      PlaceSorts(rows, i, rest);
      var r := Place(rows, i, board);
      assert forall k | k in rest :: Before(rows, board[0], k);
      assert forall b | 0 < b < |r| :: r[b] in Place(rows, i, rest);
    }
  }

  /** The board holds every row once, in order. */
  lemma {:induction false} BoardSorts(rows: Rows, n: nat)
    requires n <= |rows|
    ensures Sorted(rows, Board(rows, n))
    ensures forall k: nat :: k in Board(rows, n) <==> k < n
  {
    if n > 0 {
      BoardSorts(rows, n - 1);
      PlaceSorts(rows, n - 1, Board(rows, n - 1));
    }
  }

  function Elements(s: seq<nat>): set<nat> { set x | x in s }

  lemma {:induction false} DistinctSize(s: seq<nat>)
    requires Distinct(s)
    ensures |Elements(s)| == |s|
  {
    if s != [] {
      var front, last := s[..|s| - 1], s[|s| - 1];
      DistinctSize(front);
      assert s == front + [last];
      assert Elements(s) == Elements(front) + {last};
    }
  }

  /** The rank of a row is its place on the board, counted from 1. */
  lemma RankIsPlace(rows: Rows, k: nat)
    requires k < |rows|
    ensures RankOf(rows, Board(rows, |rows|)[k]) == k + 1
  {
    var board := Board(rows, |rows|);
    BoardSorts(rows, |rows|);
    var front := board[..k];
    forall j: nat | j in Ahead(rows, board[k]) ensures j in front {
      assert j in board;
      var a :| 0 <= a < |board| && board[a] == j;
      assert front[a] == j;
    }
    assert Ahead(rows, board[k]) == Elements(front);
    DistinctSize(front);
  }

  ghost predicate Ranked(rows: Rows) {
    forall i | 0 <= i < |rows| :: rows[i].rank == RankOf(rows, i)
  }

  lemma UpdateRanksRanks(rows: Rows)
    ensures Ranked(UpdateRanks(rows))
  {
    var v := UpdateRanks(rows);
    forall i | 0 <= i < |v| ensures v[i].rank == RankOf(v, i) {
      assert forall j | 0 <= j < |rows| :: Before(v, j, i) <==> Before(rows, j, i);
      assert Ahead(v, i) == Ahead(rows, i);
    }
  }

  /** A row holds rank r. */
  ghost predicate Holds(rows: Rows, r: nat) { exists i | 0 <= i < |rows| :: rows[i].rank == r }

  lemma RankedAt(rows: Rows, i: nat)
    requires Ranked(rows) && i < |rows|
    ensures 1 <= rows[i].rank <= |rows| && Board(rows, |rows|)[rows[i].rank - 1] == i
  {
    var board := Board(rows, |rows|);
    BoardSorts(rows, |rows|);
    assert i in board;
    var k :| 0 <= k < |board| && board[k] == i;
    RankIsPlace(rows, k);
  }

  lemma RankedOrder(rows: Rows, i: nat, j: nat)
    requires Ranked(rows) && i < |rows| && j < |rows|
    ensures rows[i].rank < rows[j].rank <==> Before(rows, i, j)
    ensures i != j ==> rows[i].rank != rows[j].rank
  {
    var board := Board(rows, |rows|);
    BoardSorts(rows, |rows|);
    RankedAt(rows, i);
    RankedAt(rows, j);
    var a, b := rows[i].rank - 1, rows[j].rank - 1;
    if a < b {
      assert Before(rows, board[a], board[b]);
    } else if b < a {
      assert Before(rows, board[b], board[a]);
    }
  }

  /** In a ranked table the ranks are 1 to n, each once, in the order of the board. */
  lemma RanksAreABijection(rows: Rows)
    requires Ranked(rows)
    ensures forall r: nat :: Holds(rows, r) <==> 1 <= r <= |rows|
    ensures forall i, j | 0 <= i < |rows| && 0 <= j < |rows| :: rows[i].rank < rows[j].rank <==> Before(rows, i, j)
    ensures forall i, j | 0 <= i < j < |rows| :: rows[i].rank != rows[j].rank
  {
    hide Before, RankOf, Board, Ahead;
    var board := Board(rows, |rows|);
    forall r: nat ensures Holds(rows, r) <==> 1 <= r <= |rows| {
      if 1 <= r <= |rows| {
        RankIsPlace(rows, r - 1);
        assert rows[board[r - 1]].rank == r;
      } else if i :| 0 <= i < |rows| && rows[i].rank == r {
        RankedAt(rows, i);
      }
    }
    forall i, j | 0 <= i < |rows| && 0 <= j < |rows|
      ensures (rows[i].rank < rows[j].rank <==> Before(rows, i, j)) && (i != j ==> rows[i].rank != rows[j].rank)
    {
      RankedOrder(rows, i, j);
    }
  }

  /** The list of a ranked table shows ranks 1, 2, 3 and so on. */
  lemma ListShowsRanks(rows: Rows, k: nat)
    requires Ranked(rows) && k < |Load(rows)|
    ensures Load(rows)[k].rank == k + 1
    ensures |Load(rows)| == Min(PAGE, |rows|)
  {
    RankIsPlace(rows, k);
  }

  // ---- The board, written out ---------------------------------------------------------------------

  /** In a ranked table the larger total has the smaller rank, and of two equal ones the earlier last
      solve; if these are equal too, the older row. */
  lemma RanksFollowScores(rows: Rows, i: nat, j: nat)
    requires Ranked(rows) && i < |rows| && j < |rows|
    ensures rows[i].total > rows[j].total ==> rows[i].rank < rows[j].rank
    ensures rows[i].total == rows[j].total && rows[i].lastSolve < rows[j].lastSolve ==> rows[i].rank < rows[j].rank
    ensures rows[i].total == rows[j].total && rows[i].lastSolve == rows[j].lastSolve && i < j ==>
              rows[i].rank < rows[j].rank
  {
    RankedOrder(rows, i, j);
  }

  /** Row `i` as the list shows it, with the rank `rank`. */
  ghost predicate Shows(e: Entry, rows: Rows, i: nat, rank: nat) {
    i < |rows| && e == Entry(rows[i].team, rows[i].user, rank, rows[i].total, rows[i].solves, rows[i].lastSolve)
  }

  /** Each entry of the list shows a row, with its stored rank or, if it has none, its place. */
  lemma ListShowsRows(rows: Rows, k: nat)
    requires k < |Load(rows)|
    ensures exists i: nat ::
              Shows(Load(rows)[k], rows, i, if i < |rows| && rows[i].rank > 0 then rows[i].rank else k + 1)
  {
    var i := Page(rows)[k];
    assert Shows(Load(rows)[k], rows, i, if rows[i].rank > 0 then rows[i].rank else k + 1);
  }

  /** The list goes down from larger to smaller totals, and from earlier to later last solves. */
  lemma ListGoesDown(rows: Rows, a: nat, b: nat)
    requires a < b < |Load(rows)|
    ensures var x, y := Load(rows)[a], Load(rows)[b];
            x.total > y.total || (x.total == y.total && x.lastSolve <= y.lastSolve)
  {
    BoardSorts(rows, |rows|);
    assert Before(rows, Board(rows, |rows|)[a], Board(rows, |rows|)[b]);
  }

  /** It shows the best hundred rows of a ranked table: exactly those with a rank up to 100. */
  lemma ListHoldsTheBest(rows: Rows, i: nat)
    requires Ranked(rows) && i < |rows|
    ensures |Load(rows)| == if |rows| <= 100 then |rows| else 100
    ensures rows[i].rank > 0
    ensures rows[i].rank <= 100 ==>
              rows[i].rank <= |Load(rows)| && Shows(Load(rows)[rows[i].rank - 1], rows, i, rows[i].rank)
  {
    RankedAt(rows, i);
  }

  /** A solve adds its points to every row of the team, and gives a team without a row its first one. */
  lemma ScoreIsAdded(rows: Rows, team: nat, user: nat, points: int, now: int)
    ensures var v := AddScore(rows, team, user, points, now);
            && (forall i | 0 <= i < |rows| ::
                  i < |v| && v[i] == if rows[i].team != team then rows[i]
                                     else Row(team, rows[i].user, rows[i].total + points, rows[i].solves + 1, now,
                                              rows[i].rank))
            && if exists i | 0 <= i < |rows| :: rows[i].team == team then |v| == |rows|
               else |v| == |rows| + 1 && v[|rows|] == Row(team, user, points, 1, now, 0)
  {
  }
}
