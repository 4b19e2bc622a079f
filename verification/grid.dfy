/**
  The battle grid. Ships sit on whole cells; the game stores pixel
  coordinates that are always a multiple of the cell size, and every rule
  divides by that size first, so the model works in cells throughout.
 */
module Grid {

  /** Pixels per grid cell. */
  const CellSize: int := 50

  /** The largest Manhattan distance a ship may travel in one move. */
  const MoveAllowance: nat := 3

  datatype Cell = Cell(x: int, y: int)

  function Abs(n: int): (r: nat)
    ensures r == n || r == -n
  {
    if n < 0 then -n else n
  }

  function Max(a: int, b: int): (r: int)
    ensures r >= a && r >= b
    ensures r == a || r == b
  {
    if a >= b then a else b
  }

  function Min(a: int, b: int): (r: int)
    ensures r <= a && r <= b
    ensures r == a || r == b
  {
    if a <= b then a else b
  }

  /** Math.sign on integers: the unit step that points from 0 towards n. */
  function Sign(n: int): (r: int)
    ensures -1 <= r <= 1
    ensures r * n == Abs(n)
    ensures r == 0 <==> n == 0
  {
    if n > 0 then 1 else if n < 0 then -1 else 0
  }

  function Manhattan(a: Cell, b: Cell): nat
  {
    Abs(b.x - a.x) + Abs(b.y - a.y)
  }

  function Chebyshev(a: Cell, b: Cell): nat
  {
    Max(Abs(b.x - a.x), Abs(b.y - a.y))
  }

  /** The cell that contains a pixel coordinate (Math.floor(x / gridSize)). */
  function CellOf(px: real): (c: int)
    ensures (CellSize * c) as real <= px < (CellSize * (c + 1)) as real
  {
    (px / CellSize as real).Floor
  }

  /** A move is legal when the destination is at most three cells away,
      counting horizontal and vertical steps separately. */
  predicate ValidMove(from: Cell, to: Cell)
  {
    Manhattan(from, to) <= MoveAllowance
  }

  /** The range test with the square root squared away: the straight-line
      distance from a to b, in cells, does not exceed range. */
  predicate InReach(a: Cell, b: Cell, range: int)
  {
    var dx := b.x - a.x;
    var dy := b.y - a.y;
    0 <= range && dx * dx + dy * dy <= range * range
  }

  /** One pursuit step: move one cell along the sign of each axis. */
  function StepToward(from: Cell, target: Cell): (r: Cell)
    ensures from == target ==> r == target
    ensures from != target ==> Chebyshev(r, target) == Chebyshev(from, target) - 1
    ensures Manhattan(r, target) <= Manhattan(from, target)
  {
    var dx := target.x - from.x;
    var dy := target.y - from.y;
    Cell(from.x + Sign(dx), from.y + Sign(dy))
  }

  /** n successive pursuit steps towards a fixed target. */
  function Pursue(from: Cell, target: Cell, n: nat): Cell
    decreases n
  {
    if n == 0 then from else Pursue(StepToward(from, target), target, n - 1)
  }
}
