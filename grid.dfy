/** The obstacle map: a height x width matrix of walls with 4-connected adjacency. */
module Grids {
  import opened Sequences

  /** A cell coordinate: (column x, row y). */
  type Pos = (int, int)

  /** The four axis-aligned neighbours of p, in the fixed order +x, -x, +y, -y. */
  function Candidates(p: Pos): seq<Pos> {
    [(p.0 + 1, p.1), (p.0 - 1, p.1), (p.0, p.1 + 1), (p.0, p.1 - 1)]
  }

  /** The position of q in Candidates(p) (0 for +x, 1 for -x, 2 for +y, 3 for -y); 4 if q is none of them. */
  function Direction(p: Pos, q: Pos): nat {
    if q == (p.0 + 1, p.1) then 0
    else if q == (p.0 - 1, p.1) then 1
    else if q == (p.0, p.1 + 1) then 2
    else if q == (p.0, p.1 - 1) then 3
    else 4
  }

  /** The cells of r lie in the order +x, -x, +y, -y as seen from p. */
  predicate InDirectionOrder(p: Pos, r: seq<Pos>) {
    forall i, j :: 0 <= i < j < |r| ==> Direction(p, r[i]) < Direction(p, r[j])
  }

  /** The cells (x, y) with 0 <= x < w of row y. */
  ghost function RowSet(w: nat, y: int): set<Pos> {
    set x | 0 <= x < w :: (x, y)
  }

  /** The cells of a w x h board, row by row. */
  ghost function CellSet(w: nat, h: nat): set<Pos> {
    if h == 0 then {} else CellSet(w, h - 1) + RowSet(w, h - 1)
  }

  lemma RowSetMembers(w: nat, y: int, p: Pos)
    ensures p in RowSet(w, y) <==> 0 <= p.0 < w && p.1 == y
  {
    if 0 <= p.0 < w && p.1 == y {
      assert p == (p.0, y);
    }
  }

  lemma {:induction false} CellSetMembers(w: nat, h: nat, p: Pos)
    ensures p in CellSet(w, h) <==> 0 <= p.0 < w && 0 <= p.1 < h
  {
    if h > 0 {
      CellSetMembers(w, h - 1, p);
      RowSetMembers(w, h - 1, p);
    }
  }

  lemma {:induction false} RowSetSize(w: nat, y: int)
    ensures |RowSet(w, y)| == w
  {
    if w > 0 {
      RowSetSize(w - 1, y);
      assert RowSet(w, y) == RowSet(w - 1, y) + {(w - 1, y)};
    }
  }

  /** Row h lies outside the rows below it. */
  lemma RowAbove(w: nat, h: nat)
    ensures CellSet(w, h) * RowSet(w, h) == {}
  {
    forall p | p in RowSet(w, h) ensures p !in CellSet(w, h) {
      RowSetMembers(w, h, p);
      CellSetMembers(w, h, p);
    }
  }

  /** A w x h board has w * h cells. */
  lemma {:induction false} CellSetSize(w: nat, h: nat)
    ensures |CellSet(w, h)| == w * h
  {
    if h > 0 {
      CellSetSize(w, h - 1);
      RowSetSize(w, h - 1);
      RowAbove(w, h - 1);
      assert w * h == w * (h - 1) + w;
    }
  }

  /**
   * The contents of a grid at one moment: its size and its wall matrix. The pure queries of the
   * grid (bounds, walls, walkability, adjacency) are functions of these contents.
   */
  datatype Board = Board(width: nat, height: nat, walls: seq<seq<bool>>) {
    /** The matrix is rectangular: exactly height rows of exactly width cells. */
    ghost predicate Valid() {
      |walls| == height && forall y :: 0 <= y < height ==> |walls[y]| == width
    }

    /** Every in-bounds cell, as a set. */
    ghost function Cells(): set<Pos> {
      CellSet(width, height)
    }

    /** 0 <= x < width and 0 <= y < height: exactly the cells of the board. */
    predicate InBounds(p: Pos): (r: bool)
      ensures r <==> p in Cells()
    {
      CellSetMembers(width, height, p);
      0 <= p.0 < width && 0 <= p.1 < height
    }

    /** Reads the matrix; only defined in bounds (the source would wrap negative indices). */
    function IsWall(p: Pos): bool
      requires Valid() && InBounds(p)
    {
      walls[p.1][p.0]
    }

    /** The contents after set_wall(p, value): cell p holds value and every other cell is as before. */
    function With(p: Pos, value: bool): (b: Board)
      requires Valid() && InBounds(p)
      ensures b.Valid() && b.width == width && b.height == height
      ensures b.IsWall(p) == value
      ensures forall q :: InBounds(q) && q != p ==> b.IsWall(q) == IsWall(q)
    {
      Board(width, height, walls[p.1 := walls[p.1][p.0 := value]])
    }

    /** In bounds and not a wall; the bounds test guards the matrix read. */
    predicate IsWalkable(p: Pos): (r: bool)
      requires Valid()
      ensures r <==> p in Cells() && !IsWall(p)
    {
      InBounds(p) && !IsWall(p)
    }

    /** set_wall followed by is_wall: cell p reads back the new value, every other cell its old one. */
    lemma WallAfterSet(p: Pos, value: bool, q: Pos)
      requires Valid() && InBounds(p) && InBounds(q)
      ensures With(p, value).IsWall(q) == if q == p then value else IsWall(q)
    {
    }

    /** set_wall followed by is_walkable: p becomes walkable exactly when it is cleared; no other cell changes. */
    lemma WalkableAfterSet(p: Pos, value: bool, q: Pos)
      requires Valid() && InBounds(p)
      ensures With(p, value).IsWalkable(q) == if q == p then !value else IsWalkable(q)
    {
    }

    /** The walkable cells are the cells of the board that are not walls. */
    lemma WalkableCells(p: Pos)
      requires Valid()
      ensures IsWalkable(p) ==> p in Cells()
      ensures p in Cells() ==> InBounds(p) && (IsWalkable(p) <==> !IsWall(p))
    {
    }

    /** The walkable cells of c, in order. */
    function Walkable(c: seq<Pos>): (r: seq<Pos>)
      requires Valid()
      ensures |r| <= |c|
      ensures forall q :: q in r <==> q in c && IsWalkable(q)
    {
      if c == [] then [] else Walkable(c[..|c| - 1]) + (if IsWalkable(c[|c| - 1]) then [c[|c| - 1]] else [])
    }

    /** Filtering the first k candidates keeps them in candidate order, each below direction k. */
    lemma {:induction false} WalkablePrefix(p: Pos, k: nat)
      requires Valid() && k <= 4
      ensures forall i :: 0 <= i < |Walkable(Candidates(p)[..k])| ==> Direction(p, Walkable(Candidates(p)[..k])[i]) < k
      ensures InDirectionOrder(p, Walkable(Candidates(p)[..k]))
    {
      if k > 0 {
        var c := Candidates(p);
        WalkablePrefix(p, k - 1);
        assert c[..k][..k - 1] == c[..k - 1];
        assert Direction(p, c[k - 1]) == k - 1;
      }
    }

    /**
     * The neighbours the searches scan from p: the walkable cells among Candidates(p), in the
     * order +x, -x, +y, -y, each once.
     */
    function Neighbors(p: Pos): (r: seq<Pos>)
      requires Valid()
      ensures |r| <= 4
      ensures forall q :: q in r <==> q in Candidates(p) && IsWalkable(q)
      ensures InDirectionOrder(p, r)
      ensures Distinct(r)
    {
      WalkablePrefix(p, 4);
      assert Candidates(p)[..4] == Candidates(p);
      DistinctPairwise(Walkable(Candidates(p)));
      Walkable(Candidates(p))
    }

    /** One move of the searches: q is a 4-neighbour of p and q is walkable. */
    ghost predicate IsStep(p: Pos, q: Pos)
      requires Valid()
    {
      q in Candidates(p) && IsWalkable(q)
    }

    /** The move from w[i] to w[i + 1] is a step. */
    ghost predicate StepAt(w: seq<Pos>, i: int)
      requires Valid()
    {
      0 <= i < |w| - 1 && IsStep(w[i], w[i + 1])
    }

    /** Every consecutive pair of w is a step. */
    ghost predicate IsWalk(w: seq<Pos>)
      requires Valid()
    {
      forall i :: 0 <= i < |w| - 1 ==> StepAt(w, i)
    }

    /** w is a walk that starts at a and ends at b. */
    ghost predicate IsWalkBetween(w: seq<Pos>, a: Pos, b: Pos)
      requires Valid()
    {
      |w| > 0 && w[0] == a && w[|w| - 1] == b && IsWalk(w)
    }

    ghost predicate Reachable(a: Pos, b: Pos)
      requires Valid()
    {
      exists w :: IsWalkBetween(w, a, b)
    }

    /** No walk from a to b takes fewer than d moves. */
    ghost predicate NoShorterWalk(a: Pos, b: Pos, d: int)
      requires Valid()
    {
      forall w :: IsWalkBetween(w, a, b) ==> d <= |w| - 1
    }
  }

  /** The grid object: set_wall changes its matrix in place. */
  class Grid {
    var width: nat
    var height: nat
    /** walls[y][x] is true when cell (x, y) is blocked. */
    var walls: seq<seq<bool>>

    /** The current contents. */
    function View(): Board
      reads this
    {
      Board(width, height, walls)
    }

    /** Grid.filled: a width x height grid whose every cell is `wall`. */
    constructor Filled(width: nat, height: nat, wall: bool)
      ensures View().Valid()
      ensures this.width == width && this.height == height
      ensures forall p :: View().InBounds(p) ==> View().IsWall(p) == wall
    {
      this.width := width;
      this.height := height;
      walls := seq(height, _ => seq(width, _ => wall));
    }

    method SetWall(p: Pos, value: bool)
      requires View().Valid() && View().InBounds(p)
      modifies this`walls
      ensures View() == old(View()).With(p, value)
    {
      walls := walls[p.1 := walls[p.1][p.0 := value]];
    }

    /** The neighbour generator: the walkable cells among Candidates(p), in candidate order, each once. */
    method Neighbors4(p: Pos) returns (r: seq<Pos>)
      requires View().Valid()
      ensures r == View().Neighbors(p)
      ensures |r| <= 4
      ensures forall q :: q in r <==> q in Candidates(p) && View().IsWalkable(q)
      ensures InDirectionOrder(p, r)
      ensures Distinct(r)
    {
      var c := Candidates(p);
      r := [];
      for k := 0 to 4
        invariant r == View().Walkable(c[..k])
      {
        assert c[..k + 1][..k] == c[..k];
        if View().IsWalkable(c[k]) {
          r := r + [c[k]];
        }
      }
      assert c[..4] == c;
    }
  }
}
