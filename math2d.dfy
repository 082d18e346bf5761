/** Integer screen geometry: rectangles, clamping and the cell <-> pixel mapping of the board view. */
module Math2D {
  import opened Grids
  import opened Results

  /** A screen rectangle with its top-left corner at (x, y). */
  datatype Rect = Rect(x: int, y: int, w: int, h: int) {
    /** Rect.contains: the rectangle is half-open on both axes. */
    predicate Contains(px: int, py: int)
      ensures Contains(px, py) <==> 0 <= px - x < w && 0 <= py - y < h
      ensures Contains(px, py) ==> w >= 1 && h >= 1
    {
      x <= px < x + w && y <= py < y + h
    }
  }

  /** A rectangle with no width or height contains no pixel; otherwise it contains its top-left corner and not its far edges. */
  lemma ContainsCorners(r: Rect, px: int, py: int)
    ensures r.w <= 0 || r.h <= 0 ==> !r.Contains(px, py)
    ensures r.w > 0 && r.h > 0 ==> r.Contains(r.x, r.y) && r.Contains(r.x + r.w - 1, r.y + r.h - 1)
    ensures !r.Contains(r.x + r.w, py) && !r.Contains(px, r.y + r.h)
  {
  }

  /** max(lo, min(v, hi)). */
  function Clamp(v: int, lo: int, hi: int): (r: int)
    ensures lo <= hi ==> lo <= r <= hi
    ensures lo <= v <= hi ==> r == v
    ensures lo <= hi && v < lo ==> r == lo
    ensures lo <= hi && hi < v ==> r == hi
    ensures hi < lo ==> r == lo
  {
    var m := if v < hi then v else hi;
    if lo < m then m else lo
  }

  /** Clamping twice with the same bounds is clamping once. */
  lemma ClampIdempotent(v: int, lo: int, hi: int)
    ensures Clamp(Clamp(v, lo, hi), lo, hi) == Clamp(v, lo, hi)
  {
  }

  /** Python's floor division: the quotient rounded towards minus infinity. */
  function FloorDiv(a: int, b: int): (q: int)
    requires b != 0
    ensures b > 0 ==> b * q <= a < b * q + b
    ensures b < 0 ==> b * q + b < a <= b * q
  {
    if b > 0 || a % b == 0 then a / b else a / b - 1
  }

  /** Python's %: the remainder of FloorDiv, with the sign of the divisor. */
  function FloorMod(a: int, b: int): (r: int)
    requires b != 0
    ensures a == b * FloorDiv(a, b) + r
    ensures b > 0 ==> 0 <= r < b
    ensures b < 0 ==> b < r <= 0
  {
    if b > 0 || a % b == 0 then a % b else a % b + b
  }

  /** grid_to_screen: the top-left pixel of a cell, cell_size + cell_gap apart on each axis. */
  function GridToScreen(cell: Pos, origin: (int, int), cellSize: int, cellGap: int): (r: (int, int))
    ensures r.0 - origin.0 == cell.0 * (cellSize + cellGap)
    ensures r.1 - origin.1 == cell.1 * (cellSize + cellGap)
  {
    (origin.0 + cell.0 * (cellSize + cellGap), origin.1 + cell.1 * (cellSize + cellGap))
  }

  /**
   * screen_to_grid: the cell whose square holds pixel (px, py), or None left of or above the
   * origin and in the gaps between cells. A pitch of 0 divides by zero in the source, but only
   * for a pixel at or past the origin: one left of or above it returns None first.
   */
  function ScreenToGrid(px: int, py: int, origin: (int, int), cellSize: int, cellGap: int): (r: Option<Pos>)
    requires px >= origin.0 && py >= origin.1 ==> cellSize + cellGap != 0
    ensures px < origin.0 || py < origin.1 ==> r == None
    ensures r.Some? && cellSize + cellGap > 0 ==>
              r.value.0 >= 0 && r.value.1 >= 0 &&
              Rect(GridToScreen(r.value, origin, cellSize, cellGap).0, GridToScreen(r.value, origin, cellSize, cellGap).1,
                   cellSize, cellSize).Contains(px, py)
  {
    var dx := px - origin.0;
    var dy := py - origin.1;
    if dx < 0 || dy < 0 then None
    else
      var step := cellSize + cellGap;
      var cx := FloorDiv(dx, step);
      var cy := FloorDiv(dy, step);
      if FloorMod(dx, step) >= cellSize || FloorMod(dy, step) >= cellSize then None
      else Some((cx, cy))
  }

  /** Inside one square: an offset d from a cell's corner on an axis with the given pitch. */
  lemma OffsetInCell(c: int, d: int, cellSize: int, step: int)
    requires 1 <= cellSize <= step && 0 <= c && 0 <= d < cellSize
    ensures FloorDiv(c * step + d, step) == c && FloorMod(c * step + d, step) == d
  {
    var a := c * step + d;
    var q, r := FloorDiv(a, step), FloorMod(a, step);
    assert step * q + r == step * c + d;
    if q < c {
      assert step * q <= step * (c - 1) by { MulMonotone(step, q, c - 1); }
      assert false;
    } else if q > c {
      assert step * (c + 1) <= step * q by { MulMonotone(step, c + 1, q); }
      assert false;
    }
  }

  lemma MulMonotone(k: int, a: int, b: int)
    requires 0 <= k && a <= b
    ensures k * a <= k * b
  {
    assert k * b - k * a == k * (b - a);
  }

  /**
   * With a positive cell size and no negative gap, every pixel of a cell's cell_size x cell_size
   * square maps back to that cell, and only those pixels do.
   */
  lemma ScreenToGridExact(cell: Pos, px: int, py: int, origin: (int, int), cellSize: int, cellGap: int)
    requires cell.0 >= 0 && cell.1 >= 0 && cellSize >= 1 && cellGap >= 0
    ensures ScreenToGrid(px, py, origin, cellSize, cellGap) == Some(cell) <==>
              Rect(GridToScreen(cell, origin, cellSize, cellGap).0, GridToScreen(cell, origin, cellSize, cellGap).1,
                   cellSize, cellSize).Contains(px, py)
  {
    var step := cellSize + cellGap;
    var corner := GridToScreen(cell, origin, cellSize, cellGap);
    var dx, dy := px - origin.0, py - origin.1;
    if Rect(corner.0, corner.1, cellSize, cellSize).Contains(px, py) {
      OffsetInCell(cell.0, px - corner.0, cellSize, step);
      OffsetInCell(cell.1, py - corner.1, cellSize, step);
      assert dx == cell.0 * step + (px - corner.0) && dy == cell.1 * step + (py - corner.1);
      assert 0 <= cell.0 * step && 0 <= cell.1 * step by {
        MulMonotone(step, 0, cell.0);
        MulMonotone(step, 0, cell.1);
      }
    }
  }

  /** The round trip: the top-left pixel of a cell maps back to the cell. */
  lemma RoundTrip(cell: Pos, origin: (int, int), cellSize: int, cellGap: int)
    requires cell.0 >= 0 && cell.1 >= 0 && cellSize >= 1 && cellGap >= 0
    ensures var p := GridToScreen(cell, origin, cellSize, cellGap);
            ScreenToGrid(p.0, p.1, origin, cellSize, cellGap) == Some(cell)
  {
    var p := GridToScreen(cell, origin, cellSize, cellGap);
    ScreenToGridExact(cell, p.0, p.1, origin, cellSize, cellGap);
  }

  /** A pixel at or past the origin in the gap after a cell, on the x axis or on the y axis, maps to no cell. */
  lemma GapIsNone(px: int, py: int, origin: (int, int), cellSize: int, cellGap: int)
    requires px >= origin.0 && py >= origin.1 && cellSize + cellGap != 0
    requires FloorMod(px - origin.0, cellSize + cellGap) >= cellSize ||
             FloorMod(py - origin.1, cellSize + cellGap) >= cellSize
    ensures ScreenToGrid(px, py, origin, cellSize, cellGap) == None
  {
  }

  /**
   * With a positive cell size and no negative gap, a pixel maps to no cell exactly when no cell
   * at or right of and below the origin holds it in its cell_size x cell_size square.
   */
  lemma ScreenToGridNone(px: int, py: int, origin: (int, int), cellSize: int, cellGap: int)
    requires cellSize >= 1 && cellGap >= 0
    ensures ScreenToGrid(px, py, origin, cellSize, cellGap) == None <==>
              forall c: Pos :: c.0 >= 0 && c.1 >= 0 ==>
                !Rect(GridToScreen(c, origin, cellSize, cellGap).0, GridToScreen(c, origin, cellSize, cellGap).1,
                      cellSize, cellSize).Contains(px, py)
  {
    var r := ScreenToGrid(px, py, origin, cellSize, cellGap);
    if r == None {
      forall c: Pos | c.0 >= 0 && c.1 >= 0
        ensures !Rect(GridToScreen(c, origin, cellSize, cellGap).0, GridToScreen(c, origin, cellSize, cellGap).1,
                      cellSize, cellSize).Contains(px, py)
      {
        ScreenToGridExact(c, px, py, origin, cellSize, cellGap);
      }
    }
  }
}
