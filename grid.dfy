/** The board: a jagged grid of booleans (true where a coin stands), its
    occupied-cell listing, coin count, and the jump that moves one coin.
    The pure value `Board` is what the search reasons about; `CoinGrid` is
    the grid the program writes in place, holding a `Board`. */
module Grid {
  import opened Geometry

  /** Row y of a valid board has y + 1 cells. */
  type Board = seq<seq<bool>>

  predicate ValidBoard(b: Board)
  {
    |b| == SIZE && forall y :: 0 <= y < SIZE ==> |b[y]| == y + 1
  }

  /** A coin stands at `p`. */
  predicate IsFilled(b: Board, p: Point)
    requires ValidBoard(b)
  {
    InBounds(p) && b[p.y][p.x]
  }

  /** The board with cell `p` set to `v`; every other cell is as before. */
  function SetCell(b: Board, p: Point, v: bool): (r: Board)
    requires ValidBoard(b) && InBounds(p)
    ensures ValidBoard(r)
    ensures r[p.y][p.x] == v
    ensures forall q :: q != p ==> IsFilled(r, q) == IsFilled(b, q)
  {
    b[p.y := b[p.y][p.x := v]]
  }

  // ---------------------------------------------------------------------
  // Counting coins

  /** The number of true cells of `row` from column `x` on. */
  function CountTrue(row: seq<bool>, x: nat): nat
    requires x <= |row|
    decreases |row| - x
  {
    if x == |row| then 0 else (if row[x] then 1 else 0) + CountTrue(row, x + 1)
  }

  /** The number of coins in rows `y` and below. */
  function CountFrom(b: Board, y: nat): nat
    requires y <= |b|
    decreases |b| - y
  {
    if y == |b| then 0 else CountTrue(b[y], 0) + CountFrom(b, y + 1)
  }

  /** The number of coins on the board. */
  function Count(b: Board): nat
  {
    CountFrom(b, 0)
  }

  lemma {:induction false} CountTrueSet(row: seq<bool>, x: nat, c: nat, v: bool)
    requires x <= |row| && c < |row|
    ensures CountTrue(row[c := v], x) ==
      CountTrue(row, x) - (if x <= c && row[c] then 1 else 0) + (if x <= c && v then 1 else 0)
    decreases |row| - x
  {
    if x < |row| {
      CountTrueSet(row, x + 1, c, v);
    }
  }

  lemma {:induction false} CountFromSet(b: Board, y: nat, k: nat, row: seq<bool>)
    requires y <= |b| && k < |b|
    ensures CountFrom(b[k := row], y) ==
      CountFrom(b, y) - (if y <= k then CountTrue(b[k], 0) else 0)
                      + (if y <= k then CountTrue(row, 0) else 0)
    decreases |b| - y
  {
    if y < |b| {
      CountFromSet(b, y + 1, k, row);
    }
  }

  /** Setting one cell changes the coin count by the difference it makes. */
  lemma {:induction false} CountSet(b: Board, p: Point, v: bool)
    requires ValidBoard(b) && InBounds(p)
    ensures Count(SetCell(b, p, v)) ==
      Count(b) - (if b[p.y][p.x] then 1 else 0) + (if v then 1 else 0)
  {
    CountTrueSet(b[p.y], 0, p.x, v);
    CountFromSet(b, 0, p.y, b[p.y][p.x := v]);
  }

  // ---------------------------------------------------------------------
  // Listing the occupied cells

  /** Row-major order: by row, then by column. */
  predicate Before(p: Point, q: Point)
  {
    p.y < q.y || (p.y == q.y && p.x < q.x)
  }

  /** The occupied cells of row `y` from column `x` on, left to right. */
  function RowPoints(row: seq<bool>, y: int, x: nat): (ps: seq<Point>)
    requires x <= |row|
    decreases |row| - x
    ensures |ps| == CountTrue(row, x)
    ensures forall i :: 0 <= i < |ps| ==> ps[i].y == y && x <= ps[i].x < |row| && row[ps[i].x]
  {
    if x == |row| then []
    else (if row[x] then [Point(x, y)] else []) + RowPoints(row, y, x + 1)
  }

  /** Every occupied cell of the row from column `x` on is listed. */
  lemma {:induction false} RowPointsHas(row: seq<bool>, y: int, x: nat, c: int)
    requires x <= c < |row| && row[c]
    ensures Point(c, y) in RowPoints(row, y, x)
    decreases |row| - x
  {
    if c > x {
      RowPointsHas(row, y, x + 1, c);
    }
  }

  /** The cells of a row are listed left to right. */
  lemma {:induction false} RowPointsOrdered(row: seq<bool>, y: int, x: nat)
    requires x <= |row|
    ensures ColumnsIncrease(RowPoints(row, y, x))
    decreases |row| - x
  {
    if x < |row| {
      RowPointsOrdered(row, y, x + 1);
      RowPointsCons(row, y, x);
    }
  }

  /** Putting an occupied cell in front of the listing from x + 1 keeps the
      columns increasing. */
  lemma RowPointsCons(row: seq<bool>, y: int, x: nat)
    requires x < |row| && ColumnsIncrease(RowPoints(row, y, x + 1))
    ensures ColumnsIncrease(RowPoints(row, y, x))
  {
    RowPointsStep(row, y, x);
    var ps := RowPoints(row, y, x);
    var rest := RowPoints(row, y, x + 1);
    if row[x] {
      ConsLeftOf(Point(x, y), rest, ps);
    }
  }

  /** The points of a list come in strictly increasing column order. */
  ghost predicate ColumnsIncrease(ps: seq<Point>)
  {
    forall i, j :: 0 <= i < j < |ps| ==> ps[i].x < ps[j].x
  }

  /** A point left of every point of an increasing list keeps it increasing
      when put in front. */
  lemma ConsLeftOf(p: Point, rest: seq<Point>, ps: seq<Point>)
    requires ps == [p] + rest
    requires forall k :: 0 <= k < |rest| ==> p.x < rest[k].x
    requires ColumnsIncrease(rest)
    ensures ColumnsIncrease(ps)
  {
    forall i, j | 0 <= i < j < |ps|
      ensures ps[i].x < ps[j].x
    {
      assert ps[j] == rest[j - 1];
      if i > 0 {
        assert ps[i] == rest[i - 1];
      }
    }
  }

  /** The listing of a row from column x is the cell at x, if occupied,
      followed by the listing from x + 1. */
  lemma RowPointsStep(row: seq<bool>, y: int, x: nat)
    requires x < |row|
    ensures RowPoints(row, y, x) == (if row[x] then [Point(x, y)] else []) + RowPoints(row, y, x + 1)
  {
  }

  /** The occupied cells of rows `y` and below, in row-major order. */
  function FilledFrom(b: Board, y: nat): (ps: seq<Point>)
    requires y <= |b|
    decreases |b| - y
    ensures |ps| == CountFrom(b, y)
    ensures forall i :: 0 <= i < |ps| ==>
      y <= ps[i].y < |b| && 0 <= ps[i].x < |b[ps[i].y]| && b[ps[i].y][ps[i].x]
  {
    if y == |b| then []
    else RowPoints(b[y], y, 0) + FilledFrom(b, y + 1)
  }

  /** Every occupied cell in rows `y` and below is listed. */
  lemma {:induction false} FilledFromHas(b: Board, y: nat, p: Point)
    requires y <= p.y < |b| && 0 <= p.x < |b[p.y]| && b[p.y][p.x]
    ensures p in FilledFrom(b, y)
    decreases |b| - y
  {
    if p.y == y {
      RowPointsHas(b[y], y, 0, p.x);
    } else {
      FilledFromHas(b, y + 1, p);
    }
  }

  lemma {:induction false} FilledFromOrdered(b: Board, y: nat)
    requires y <= |b|
    ensures forall i, j :: 0 <= i < j < |FilledFrom(b, y)| ==> Before(FilledFrom(b, y)[i], FilledFrom(b, y)[j])
    decreases |b| - y
  {
    if y < |b| {
      var here := RowPoints(b[y], y, 0);
      var rest := FilledFrom(b, y + 1);
      RowPointsOrdered(b[y], y, 0);
      FilledFromOrdered(b, y + 1);
      var ps := here + rest;
      assert FilledFrom(b, y) == ps;
      forall i, j | 0 <= i < j < |ps|
        ensures Before(ps[i], ps[j])
      {
        if j < |here| {
          assert ps[i] == here[i] && ps[j] == here[j];
          assert here[i].x < here[j].x;
        } else if i < |here| {
          assert ps[i] == here[i] && ps[j] == rest[j - |here|];
          assert here[i].y == y && y + 1 <= rest[j - |here|].y;
        } else {
          assert ps[i] == rest[i - |here|] && ps[j] == rest[j - |here|];
          assert Before(rest[i - |here|], rest[j - |here|]);
        }
      }
    }
  }

  /** Every occupied cell of the board is listed. */
  lemma FilledAll(b: Board)
    requires ValidBoard(b)
    ensures forall p :: IsFilled(b, p) ==> p in FilledFrom(b, 0)
  {
    forall p | IsFilled(b, p)
      ensures p in FilledFrom(b, 0)
    {
      FilledFromHas(b, 0, p);
    }
  }

  /** `filled_points`: the occupied cells; there are exactly Count(b) of them. */
  function Filled(b: Board): (ps: seq<Point>)
    requires ValidBoard(b)
    ensures forall p {:trigger p in ps} :: p in ps <==> IsFilled(b, p)
    ensures |ps| == Count(b)
  {
    FilledAll(b);
    FilledFrom(b, 0)
  }

  /** `filled_points` lists the occupied cells by increasing row and then
      column, so each occupied cell appears exactly once. */
  lemma FilledOrdered(b: Board)
    requires ValidBoard(b)
    ensures forall i, j :: 0 <= i < j < |Filled(b)| ==> Before(Filled(b)[i], Filled(b)[j])
    ensures forall i, j :: 0 <= i < j < |Filled(b)| ==> Filled(b)[i] != Filled(b)[j]
  {
    FilledFromOrdered(b, 0);
    assert Filled(b) == FilledFrom(b, 0);
  }

  lemma {:induction false} CountTrueNone(row: seq<bool>, x: nat)
    requires x <= |row| && forall c :: x <= c < |row| ==> !row[c]
    ensures CountTrue(row, x) == 0
    decreases |row| - x
  {
    if x < |row| {
      CountTrueNone(row, x + 1);
    }
  }

  lemma {:induction false} CountFromNone(b: Board, y: nat)
    requires ValidBoard(b) && y <= SIZE
    requires forall p :: !IsFilled(b, p)
    ensures CountFrom(b, y) == 0
    decreases SIZE - y
  {
    if y < SIZE {
      forall c | 0 <= c < |b[y]|
        ensures !b[y][c]
      {
        assert !IsFilled(b, Point(c, y));
      }
      CountTrueNone(b[y], 0);
      CountFromNone(b, y + 1);
    }
  }

  /** A board whose only coin is at `p` holds one coin. */
  lemma {:induction false} OnlyCoin(b: Board, p: Point)
    requires ValidBoard(b) && forall q :: IsFilled(b, q) <==> q == p
    ensures Count(b) == 1
  {
    assert IsFilled(b, p);
    var r := SetCell(b, p, false);
    forall q
      ensures !IsFilled(r, q)
    {
      if InBounds(q) && q != p {
        assert !IsFilled(b, q) && r[q.y][q.x] == b[q.y][q.x];
      }
    }
    CountSet(b, p, false);
    CountFromNone(r, 0);
  }

  /** A filled cell makes the count positive. */
  lemma {:induction false} FilledCounts(b: Board, p: Point)
    requires ValidBoard(b) && IsFilled(b, p)
    ensures Count(b) >= 1
  {
    CountSet(b, p, false);
  }

  // ---------------------------------------------------------------------
  // The starting board

  /** A row of `len` coins, the program's `[True] * len`. */
  function FullRow(len: nat): (r: seq<bool>)
    ensures |r| == len && forall x :: 0 <= x < len ==> r[x]
  {
    if len == 0 then [] else FullRow(len - 1) + [true]
  }

  /** Rows of 1, 2, ..., n coins. */
  function FullRows(n: nat): (b: Board)
    ensures |b| == n && forall y :: 0 <= y < n ==> b[y] == FullRow(y + 1)
  {
    if n == 0 then [] else FullRows(n - 1) + [FullRow(n)]
  }

  /** The board with every cell occupied. */
  function FullBoard(): (b: Board)
    ensures ValidBoard(b)
    ensures forall p {:trigger IsFilled(b, p)} :: InBounds(p) ==> IsFilled(b, p)
  {
    FullRows(SIZE)
  }

  lemma {:induction false} CountTrueAll(row: seq<bool>, x: nat)
    requires x <= |row| && forall c :: 0 <= c < |row| ==> row[c]
    ensures CountTrue(row, x) == |row| - x
    decreases |row| - x
  {
    if x < |row| {
      CountTrueAll(row, x + 1);
    }
  }

  lemma FullBoardCount()
    ensures Count(FullBoard()) == CELLS
  {
    var b := FullBoard();
    forall y | 0 <= y < SIZE
      ensures CountTrue(b[y], 0) == y + 1
    {
      CountTrueAll(b[y], 0);
    }
    assert CountFrom(b, 4) == 0;
    assert CountFrom(b, 3) == 4;
    assert CountFrom(b, 2) == 7;
    assert CountFrom(b, 1) == 9;
  }

  /** The board of `new_grid`: every cell occupied except `missing`. */
  function NewBoard(missing: Point): (b: Board)
    requires InBounds(missing)
    ensures ValidBoard(b)
    ensures forall p {:trigger IsFilled(b, p)} :: IsFilled(b, p) <==> InBounds(p) && p != missing
  {
    SetCell(FullBoard(), missing, false)
  }

  /** The starting board holds CELLS - 1 coins. */
  lemma NewBoardCount(missing: Point)
    requires InBounds(missing)
    ensures Count(NewBoard(missing)) == CELLS - 1
  {
    FullBoardCount();
    CountSet(FullBoard(), missing, false);
  }

  // ---------------------------------------------------------------------
  // Jumps

  /** One jump, as the program records it: where the coin starts and lands. */
  datatype Jump = Jump(start: Point, end: Point)

  /** The direction of a jump: half its displacement. */
  function Half(j: Jump): Direction
  {
    Direction((j.end.x - j.start.x) / 2, (j.end.y - j.start.y) / 2)
  }

  /** The cell jumped over. */
  function Middle(j: Jump): Point
  {
    Move(j.start, Half(j))
  }

  /** The program's test for a jump from `start` in direction `d`: the landing
      cell is on the board, the cell jumped over holds a coin and the landing
      cell is empty. */
  predicate CanJump(b: Board, start: Point, d: Direction)
    requires ValidBoard(b) && InBounds(start)
  {
    var middle := Move(start, d);
    var end := Move(middle, d);
    InBounds(end) && b[middle.y][middle.x] && !b[end.y][end.x]
  }

  /** A legal jump: a coin at `start` jumps in one of the six directions over
      a coin into the empty cell two steps away. */
  predicate Legal(b: Board, j: Jump)
    requires ValidBoard(b)
  {
    IsFilled(b, j.start) && Half(j) in Directions &&
    Move(Middle(j), Half(j)) == j.end && CanJump(b, j.start, Half(j))
  }

  /** The jump built from a start and a direction has that direction. */
  lemma {:induction false} JumpOfDirection(b: Board, start: Point, k: nat)
    requires ValidBoard(b) && IsFilled(b, start) && k < |Directions|
    requires CanJump(b, start, Directions[k])
    ensures var d := Directions[k];
      var j := Jump(start, Move(Move(start, d), d));
      Half(j) == d && Middle(j) == Move(start, d) && Legal(b, j)
  {
  }

  /** The three cells a legal jump touches are distinct and on the board. */
  lemma {:induction false} LegalCells(b: Board, j: Jump)
    requires ValidBoard(b) && Legal(b, j)
    ensures InBounds(j.start) && InBounds(Middle(j)) && InBounds(j.end)
    ensures j.start != Middle(j) && j.start != j.end && Middle(j) != j.end
    ensures IsFilled(b, j.start) && IsFilled(b, Middle(j)) && !IsFilled(b, j.end)
  {
    MiddleInBounds(j.start, Half(j));
  }

  /** The board after a legal jump: start and middle emptied, end filled,
      one coin fewer, nothing else changed. */
  function ApplyJump(b: Board, j: Jump): (r: Board)
    requires ValidBoard(b) && Legal(b, j)
    ensures ValidBoard(r)
    ensures Count(r) == Count(b) - 1
    ensures !IsFilled(r, j.start) && !IsFilled(r, Middle(j)) && IsFilled(r, j.end)
    ensures forall q :: q != j.start && q != Middle(j) && q != j.end ==> IsFilled(r, q) == IsFilled(b, q)
  {
    LegalCells(b, j);
    var b1 := SetCell(b, j.start, false);
    var b2 := SetCell(b1, Middle(j), false);
    CountSet(b, j.start, false);
    CountSet(b1, Middle(j), false);
    CountSet(b2, j.end, true);
    SetCell(b2, j.end, true)
  }

  /** The program's restore step: start and middle refilled, end emptied. */
  function UndoJump(b: Board, j: Jump): (r: Board)
    requires ValidBoard(b) && InBounds(j.start) && InBounds(Middle(j)) && InBounds(j.end)
    ensures ValidBoard(r)
  {
    SetCell(SetCell(SetCell(b, j.start, true), Middle(j), true), j.end, false)
  }

  /** Undoing a legal jump gives back the board it was made on. */
  lemma {:induction false} UndoApply(b: Board, j: Jump)
    requires ValidBoard(b) && Legal(b, j)
    ensures UndoJump(ApplyJump(b, j), j) == b
  {
    LegalCells(b, j);
    var r := UndoJump(ApplyJump(b, j), j);
    forall y | 0 <= y < SIZE
      ensures r[y] == b[y]
    {
      forall x | 0 <= x < |b[y]|
        ensures r[y][x] == b[y][x]
      {
        assert IsFilled(r, Point(x, y)) == IsFilled(b, Point(x, y));
      }
    }
  }

  /** Two coins are needed to jump: the jumping one and the one jumped over. */
  lemma {:induction false} LegalNeedsTwoCoins(b: Board, j: Jump)
    requires ValidBoard(b) && Legal(b, j)
    ensures Count(b) >= 2
  {
    LegalCells(b, j);
    CountSet(b, j.start, false);
    FilledCounts(SetCell(b, j.start, false), Middle(j));
  }

  /** `path` is a sequence of legal jumps, each made on the board the previous
      ones leave. */
  ghost predicate IsPath(b: Board, path: seq<Jump>)
    requires ValidBoard(b)
    decreases |path|
  {
    |path| == 0 || (Legal(b, path[0]) && IsPath(ApplyJump(b, path[0]), path[1..]))
  }

  /** The board after a path; every jump removes exactly one coin. */
  ghost function ApplyAll(b: Board, path: seq<Jump>): (r: Board)
    requires ValidBoard(b) && IsPath(b, path)
    decreases |path|
    ensures ValidBoard(r)
    ensures Count(r) == Count(b) - |path|
  {
    if |path| == 0 then b else ApplyAll(ApplyJump(b, path[0]), path[1..])
  }

  /** A solution: a path that leaves exactly one coin. */
  ghost predicate IsSolution(b: Board, path: seq<Jump>)
    requires ValidBoard(b)
  {
    IsPath(b, path) && Count(ApplyAll(b, path)) == 1
  }

  /** A legal jump followed by a solution from the board it leaves is a
      solution. */
  lemma {:induction false} SolutionCons(b: Board, j: Jump, rest: seq<Jump>)
    requires ValidBoard(b) && Legal(b, j) && IsSolution(ApplyJump(b, j), rest)
    ensures IsSolution(b, [j] + rest)
  {
    var path := [j] + rest;
    assert path[0] == j && path[1..] == rest;
    assert IsPath(b, path);
    assert ApplyAll(b, path) == ApplyAll(ApplyJump(b, j), rest);
  }

  /** After the first jump of a solution, the rest is a solution from the
      board that jump leaves. */
  lemma {:induction false} SolutionTail(b: Board, path: seq<Jump>)
    requires ValidBoard(b) && IsSolution(b, path) && path != []
    ensures Legal(b, path[0]) && IsSolution(ApplyJump(b, path[0]), path[1..])
  {
  }

  /** A solution from a board of n coins has n - 1 jumps. */
  lemma {:induction false} SolutionLength(b: Board, path: seq<Jump>)
    requires ValidBoard(b) && IsSolution(b, path)
    ensures |path| == Count(b) - 1
  {
  }

  /** On the starting board the only empty cell is the removed coin, so the
      first jump of any path lands there. */
  lemma {:induction false} FirstJumpEndsAtMissing(missing: Point, path: seq<Jump>)
    requires InBounds(missing) && IsPath(NewBoard(missing), path) && path != []
    ensures path[0].end == missing
  {
    LegalCells(NewBoard(missing), path[0]);
  }

  // ---------------------------------------------------------------------
  // The mutable grid

  /** The program's grid, a list of rows that the search writes in place.
      Its contents are the board `cells`; each write reassigns it. */
  class CoinGrid {
    var cells: Board

    /** `new_grid`: rows of 1, 2, ..., SIZE coins, then the coin at `missing`
        taken away. */
    constructor (missing: Point)
      requires InBounds(missing)
      ensures cells == NewBoard(missing)
    {
      var rows: Board := [];
      for i := 1 to SIZE + 1
        invariant |rows| == i - 1
        invariant rows == FullRows(i - 1)
      {
        rows := rows + [FullRow(i)];
      }
      assert rows == FullBoard();
      cells := SetCell(rows, missing, false);
    }

    /** One write `grid[y][x] = v`. */
    method Put(p: Point, v: bool)
      requires ValidBoard(cells) && InBounds(p)
      modifies this
      ensures cells == SetCell(old(cells), p, v)
    {
      cells := cells[p.y := cells[p.y][p.x := v]];
    }

    /** The program's three writes that make a legal jump. */
    method MakeJump(j: Jump)
      requires ValidBoard(cells) && Legal(cells, j)
      modifies this
      ensures cells == ApplyJump(old(cells), j)
    {
      LegalCells(cells, j);
      Put(j.start, false);
      Put(Middle(j), false);
      Put(j.end, true);
    }

    /** The program's three writes that take a jump back. */
    method UnmakeJump(j: Jump)
      requires ValidBoard(cells) && InBounds(j.start) && InBounds(Middle(j)) && InBounds(j.end)
      modifies this
      ensures cells == UndoJump(old(cells), j)
    {
      Put(j.start, true);
      Put(Middle(j), true);
      Put(j.end, false);
    }
  }
}
