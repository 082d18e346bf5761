/** The player token that walks the found path, one cell per step delay. */
module Players {
  import opened Grids

  /**
   * How many cells the while-loop of update advances: one per whole delay held in accum, and
   * never past the room left on the path.
   */
  function StepCount(accum: int, stepDelay: int, room: nat): (k: nat)
    ensures k <= room
    decreases room
  {
    if room == 0 || accum < stepDelay then 0 else 1 + StepCount(accum - stepDelay, stepDelay, room - 1)
  }

  /** With a positive delay and a non-negative accumulator, the step count is min(room, accum / delay). */
  lemma {:induction false} StepCountClosed(accum: int, stepDelay: int, room: nat)
    requires stepDelay > 0 && accum >= 0
    ensures StepCount(accum, stepDelay, room) == if accum / stepDelay < room then accum / stepDelay else room
    decreases room
  {
    if room > 0 && accum >= stepDelay {
      StepCountClosed(accum - stepDelay, stepDelay, room - 1);
      assert (accum - stepDelay) / stepDelay == accum / stepDelay - 1 by {
        DivMinusOne(accum, stepDelay);
      }
    } else if room > 0 {
      DivUnique(accum, stepDelay, 0);
    }
  }

  lemma DivMinusOne(a: int, d: int)
    requires d > 0 && a >= d
    ensures (a - d) / d == a / d - 1
  {
    var q, r := a / d, a % d;
    assert a == d * q + r && 0 <= r < d;
    assert d * (q - 1) == d * q - d;
    DivUnique(a - d, d, q - 1);
  }

  /** The quotient is the q with d * q <= a < d * q + d. */
  lemma DivUnique(a: int, d: int, q: int)
    requires d > 0 && d * q <= a < d * q + d
    ensures a / d == q
  {
    var q0, r0 := a / d, a % d;
    assert a == d * q0 + r0 && 0 <= r0 < d;
    if q0 < q {
      MulMonotone(d, q0, q - 1);
      assert false;
    } else if q0 > q {
      MulMonotone(d, q + 1, q0);
      assert false;
    }
  }

  lemma MulMonotone(k: int, a: int, b: int)
    requires 0 <= k && a <= b
    ensures k * a <= k * b
  {
    assert k * b - k * a == k * (b - a);
  }

  /** After the steps, either less than one delay is left or the path has run out. */
  lemma {:induction false} StepCountStops(accum: int, stepDelay: int, room: nat)
    ensures var k := StepCount(accum, stepDelay, room);
            k == room || accum - k * stepDelay < stepDelay
    decreases room
  {
    if room > 0 && accum >= stepDelay {
      StepCountStops(accum - stepDelay, stepDelay, room - 1);
      var k := StepCount(accum - stepDelay, stepDelay, room - 1);
      assert accum - (k + 1) * stepDelay == (accum - stepDelay) - k * stepDelay;
    }
  }

  class Player {
    var pos: Pos
    var path: seq<Pos>
    var pathIndex: int
    var accum: int

    /** The index stays on the path and the token stands on the cell it names. */
    ghost predicate Valid()
      reads this
    {
      0 <= pathIndex && (|path| > 0 ==> pathIndex < |path| && pos == path[pathIndex])
    }

    /** Player(pos=...): no path yet. */
    constructor (pos: Pos)
      ensures this.pos == pos && path == [] && pathIndex == 0 && accum == 0
      ensures Valid()
    {
      this.pos := pos;
      path := [];
      pathIndex := 0;
      accum := 0;
    }

    /** Starts a new path from its first cell; an empty path leaves the token where it is. */
    method SetPath(path: seq<Pos>)
      modifies this
      ensures this.path == path && pathIndex == 0 && accum == 0
      ensures |path| > 0 ==> pos == path[0]
      ensures |path| == 0 ==> pos == old(pos)
      ensures Valid()
      ensures IsDone() <==> |path| <= 1
    {
      this.path := path;
      pathIndex := 0;
      accum := 0;
      if |this.path| > 0 {
        pos := this.path[0];
      }
    }

    /**
     * No path, or the index has reached the last cell: on a valid player, exactly when the token
     * stands at the end of its path, and otherwise a next cell is there to step to.
     */
    predicate IsDone(): (r: bool)
      reads this
      ensures Valid() ==> (r <==> |path| == 0 || (pathIndex == |path| - 1 && pos == path[|path| - 1]))
      ensures Valid() && !r ==> pathIndex + 1 < |path|
    {
      |path| == 0 || pathIndex >= |path| - 1
    }

    /**
     * Adds the elapsed time and advances one cell per whole delay, until less than a delay is
     * left or the path ends. A player that is done does not change.
     */
    method Update(dt: int, stepDelay: int)
      requires Valid()
      modifies this`pos, this`pathIndex, this`accum
      ensures Valid()
      ensures old(IsDone()) ==> pos == old(pos) && pathIndex == old(pathIndex) && accum == old(accum)
      ensures !old(IsDone()) ==>
                pathIndex == old(pathIndex) + StepCount(old(accum) + dt, stepDelay, |path| - 1 - old(pathIndex))
      ensures !old(IsDone()) ==> accum == old(accum) + dt - (pathIndex - old(pathIndex)) * stepDelay
      ensures !old(IsDone()) ==> accum < stepDelay || IsDone()
      ensures old(pathIndex) <= pathIndex
    {
      if IsDone() {
        return;
      }
      accum := accum + dt;
      ghost var accum0, index0 := accum, pathIndex;
      while accum >= stepDelay && !IsDone()
        invariant Valid() && index0 <= pathIndex <= |path| - 1
        invariant StepCount(accum0, stepDelay, |path| - 1 - index0)
                  == (pathIndex - index0) + StepCount(accum, stepDelay, |path| - 1 - pathIndex)
        invariant accum == accum0 - (pathIndex - index0) * stepDelay
        decreases |path| - pathIndex
      {
        assert accum0 - (pathIndex + 1 - index0) * stepDelay == accum - stepDelay;
        accum := accum - stepDelay;
        pathIndex := pathIndex + 1;
        pos := path[pathIndex];
      }
    }
  }
}
