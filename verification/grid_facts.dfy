/** Facts about the grid rules: pixel-to-cell mapping, the range test, the
    move allowance, and the opponent's pursuit. */
module GridFacts {
  import opened Grid

  /** The pixel at a cell's origin maps back to that cell. */
  lemma CellOfOrigin(c: int)
    ensures CellOf((CellSize * c) as real) == c
  {
  }

  /** The squared test agrees with the square-root test of isInRange for
      every non-negative root s of dx² + dy²: the ship is in reach exactly
      when s does not exceed the range. */
  lemma InReachMatchesRoot(a: Cell, b: Cell, range: int, s: real)
    requires 0.0 <= s
    requires s * s == ((b.x - a.x) * (b.x - a.x) + (b.y - a.y) * (b.y - a.y)) as real
    ensures InReach(a, b, range) <==> s <= range as real
  {
    var r := range as real;
    var d2 := (b.x - a.x) * (b.x - a.x) + (b.y - a.y) * (b.y - a.y);
    if 0 <= range {
      assert (range * range) as real == r * r;
      if s <= r {
        assert s * s <= s * r by { assert s * (r - s) >= 0.0; }
        assert s * r <= r * r by { assert r * (r - s) >= 0.0; }
      } else {
        assert r * r <= r * s by { assert r * (s - r) >= 0.0; }
        assert r * s < s * s by { assert s * (s - r) > 0.0; }
        calc {
          (range * range) as real;
          == r * r;
          <= r * s;
          < s * s;
          == d2 as real;
        }
      }
    }
  }

  /** Three cells of travel are allowed, four are not. */
  lemma MoveAllowanceBoundary(from: Cell)
    ensures ValidMove(from, Cell(from.x + 3, from.y))
    ensures ValidMove(from, Cell(from.x + 1, from.y - 2))
    ensures !ValidMove(from, Cell(from.x + 4, from.y))
    ensures !ValidMove(from, Cell(from.x - 2, from.y + 2))
  {
  }

  /** An enemy at (2,2) chasing the player at (5,5) steps to (3,3). */
  lemma PursuitExample()
    ensures StepToward(Cell(2, 2), Cell(5, 5)) == Cell(3, 3)
  {
  }

  /** A pursuit step moves each axis by its own sign: at most one cell per
      axis, closing each axis gap by one until that gap is closed. */
  lemma StepClosesEachAxis(from: Cell, target: Cell)
    ensures var r := StepToward(from, target);
            && Abs(r.x - from.x) <= 1 && Abs(r.y - from.y) <= 1
            && Abs(target.x - r.x) == Max(Abs(target.x - from.x) - 1, 0)
            && Abs(target.y - r.y) == Max(Abs(target.y - from.y) - 1, 0)
  {
  }

  /** Each pursuit step closes the Chebyshev gap by one until it is closed. */
  lemma {:induction false} PursuitCloses(from: Cell, target: Cell, n: nat)
    ensures Chebyshev(Pursue(from, target, n), target) == Max(Chebyshev(from, target) - n, 0)
    decreases n
  {
    if n > 0 {
      var next := StepToward(from, target);
      PursuitCloses(next, target, n - 1);
      if from == target {
        assert Chebyshev(from, target) == 0;
      }
    }
  }

  /** After as many steps as the Chebyshev distance, the pursuer sits on the target. */
  lemma PursuitArrives(from: Cell, target: Cell, n: nat)
    requires Chebyshev(from, target) <= n
    ensures Pursue(from, target, n) == target
  {
    PursuitCloses(from, target, n);
    var p := Pursue(from, target, n);
    assert Abs(target.x - p.x) == 0 && Abs(target.y - p.y) == 0;
  }
}
