/** Points, directions and the triangular board's shape, and the 1-based
    display numbering of its cells. */
module Geometry {

  /** An optional value; the solver uses it where the program uses `None`. */
  datatype Option<T> = None | Some(value: T)

  /** The number of rows of the triangular board (row y holds y + 1 cells). */
  const SIZE: int := 4

  /** The number of cells of the board, SIZE * (SIZE + 1) / 2. */
  const CELLS: int := 10

  /** A cell coordinate: column x, row y. */
  datatype Point = Point(x: int, y: int)

  /** A unit step on the triangular lattice. */
  datatype Direction = Direction(dx: int, dy: int)

  /** The six directions, in the order the search tries them. */
  const Directions: seq<Direction> :=
    [Direction(1, 0), Direction(0, -1), Direction(-1, -1),
     Direction(-1, 0), Direction(0, 1), Direction(1, 1)]

  /** The point one step from `p` in direction `d`; no bounds check. */
  function Move(p: Point, d: Direction): (q: Point)
    ensures q.x - p.x == d.dx && q.y - p.y == d.dy
  {
    Point(p.x + d.dx, p.y + d.dy)
  }

  /** The triangle test. The program does not test y >= 0: it follows from
      0 <= x <= y. */
  predicate InBounds(p: Point)
    ensures InBounds(p) <==> 0 <= p.x <= p.y < SIZE
  {
    p.x >= 0 && p.y < SIZE && p.x <= p.y
  }

  /** If a jump's start and landing cell are on the board, so is the cell
      jumped over, so the program's `grid[mid_y][mid_x]` is always in range. */
  lemma MiddleInBounds(start: Point, d: Direction)
    requires InBounds(start) && InBounds(Move(Move(start, d), d))
    ensures InBounds(Move(start, d))
  {
  }

  /** The display number of a cell: 1 at the apex, then row by row. */
  function ConvertPoint(p: Point): (n: int)
    ensures InBounds(p) ==> 1 <= n <= CELLS
  {
    1 + p.x + p.y * (p.y + 1) / 2
  }

  /** The cell that carries display number `n`: the inverse of ConvertPoint. */
  function PointOf(n: int): (p: Point)
    requires 1 <= n <= CELLS
    ensures InBounds(p) && ConvertPoint(p) == n
  {
    if n <= 1 then Point(n - 1, 0)
    else if n <= 3 then Point(n - 2, 1)
    else if n <= 6 then Point(n - 4, 2)
    else Point(n - 7, 3)
  }

  /** ConvertPoint is one-to-one on the board and PointOf undoes it, so the
      numbering is a bijection from the cells onto 1..CELLS. */
  lemma ConvertPointBijective(p: Point, q: Point)
    requires InBounds(p) && InBounds(q)
    ensures PointOf(ConvertPoint(p)) == p
    ensures ConvertPoint(p) == ConvertPoint(q) ==> p == q
  {
    var r := PointOf(ConvertPoint(p));
    ConvertRow(p);
    ConvertRow(q);
    ConvertRow(r);
    // From here on the numbers are compared through ConvertRow alone.
    hide ConvertPoint;
    OffsetOneToOne(p, r);
    OffsetOneToOne(p, q);
  }

  /** Two cells with the same column plus row offset are the same cell. */
  lemma OffsetOneToOne(p: Point, q: Point)
    requires InBounds(p) && InBounds(q)
    ensures p.x + RowBase(p.y) == q.x + RowBase(q.y) ==> p == q
  {
  }

  /** The display number of a cell is its column plus the number of cells in
      the rows above it, plus one. */
  lemma ConvertRow(p: Point)
    requires InBounds(p)
    ensures ConvertPoint(p) == 1 + p.x + RowBase(p.y)
  {
    var y := p.y;
    if y == 0 {
    } else if y == 1 {
    } else if y == 2 {
    } else {
      assert y == 3;
    }
  }

  /** The number of cells in the rows above row y. */
  function RowBase(y: int): (n: int)
  {
    if y <= 0 then 0 else if y == 1 then 1 else if y == 2 then 3 else 6
  }
}
