/**
 * The maze generator: a recursive backtracker that carves corridors between the odd cells of the
 * board, two cells apart, then makes sure start and goal are open and not walled in.
 * The random source is an oracle `pick`: the n-th choice among k options is pick(n) % k.
 */
module Mazes {
  import opened Sequences
  import opened Grids
  import opened Math2D
  import opened SearchFacts

  /** clamp_odd: v moved onto the odd lattice inside the border of an axis of length maxV. */
  function ClampOdd(v: int, maxV: int): (r: int)
    ensures r >= 1 && r % 2 == 1
    ensures maxV < 3 ==> r == 1
    ensures maxV >= 3 ==> r <= maxV - 2
    ensures maxV >= 3 && 1 <= v <= maxV - 2 ==> r == v || (v % 2 == 0 && r == v - 1)
    ensures maxV >= 3 && v < 1 ==> r == 1
    ensures maxV >= 3 && v > maxV - 2 ==> r == maxV - 2 || r == maxV - 3
  {
    var a := Clamp(v, 1, maxV - 2);
    var b := if a % 2 == 0 then (if a > 1 then a - 1 else a + 1) else a;
    Clamp(b, 1, maxV - 2)
  }

  /** Strictly inside the one-cell border of a width x height board. */
  predicate Inner(width: int, height: int, p: Pos) {
    1 <= p.0 < width - 1 && 1 <= p.1 < height - 1
  }

  /** Both coordinates odd: the cells the backtracker carves. */
  predicate Odd(p: Pos) {
    p.0 % 2 == 1 && p.1 % 2 == 1
  }

  /** The cells two steps from c, in the order +x, -x, +y, -y. */
  function Jumps(c: Pos): seq<Pos> {
    [(c.0 + 2, c.1), (c.0 - 2, c.1), (c.0, c.1 + 2), (c.0, c.1 - 2)]
  }

  /** The options, in order, that lie inside the border and are not yet visited. */
  function FreshCells(width: int, height: int, visited: set<Pos>, opts: seq<Pos>): (r: seq<Pos>)
    ensures |r| <= |opts|
    ensures forall q :: q in r <==> q in opts && Inner(width, height, q) && q !in visited
  {
    if opts == [] then []
    else
      var rest := FreshCells(width, height, visited, opts[1..]);
      assert forall q :: q in opts <==> q == opts[0] || q in opts[1..];
      if Inner(width, height, opts[0]) && opts[0] !in visited then [opts[0]] + rest else rest
  }

  /** cell_neighbors: the unvisited cells two steps away that lie inside the border. */
  function CellNeighbors(width: int, height: int, visited: set<Pos>, c: Pos): (r: seq<Pos>)
    ensures |r| <= 4
    ensures forall q :: q in r <==> q in Jumps(c) && Inner(width, height, q) && q !in visited
  {
    FreshCells(width, height, visited, Jumps(c))
  }

  /** Visiting more cells leaves no more fresh cells. */
  lemma {:induction false} FreshShrinks(width: int, height: int, visited: set<Pos>, visited': set<Pos>, opts: seq<Pos>)
    requires visited <= visited' && FreshCells(width, height, visited, opts) == []
    ensures FreshCells(width, height, visited', opts) == []
  {
    if opts != [] {
      FreshShrinks(width, height, visited, visited', opts[1..]);
    }
  }

  /** The options, in order, that lie on the board. */
  function OnBoard(b: Board, opts: seq<Pos>): (r: seq<Pos>)
    ensures |r| <= |opts|
    ensures forall q :: q in r <==> q in opts && b.InBounds(q)
  {
    if opts == [] then []
    else
      var rest := OnBoard(b, opts[1..]);
      assert forall q :: q in opts <==> q == opts[0] || q in opts[1..];
      if b.InBounds(opts[0]) then [opts[0]] + rest else rest
  }

  /** _neighbors_in_bounds: the 4-neighbours of p that lie on the board, walls or not. */
  function NeighborsInBounds(b: Board, p: Pos): (r: seq<Pos>)
    ensures |r| <= 4
    ensures forall q :: q in r <==> q in Candidates(p) && b.InBounds(q)
  {
    OnBoard(b, Candidates(p))
  }

  /** On a board at least 2 x 2 every cell has a neighbour on the board, so rnd.choice has something to choose. */
  lemma NeighborsInBoundsNonEmpty(b: Board, p: Pos)
    requires b.width >= 2 && b.height >= 2 && b.InBounds(p)
    ensures |NeighborsInBounds(b, p)| > 0
  {
    var q := if p.0 + 1 < b.width then (p.0 + 1, p.1) else (p.0 - 1, p.1);
    assert q in Candidates(p) && b.InBounds(q);
    assert q in NeighborsInBounds(b, p);
  }

  /** No option on the board leaves nothing. */
  lemma {:induction false} OnBoardNone(b: Board, opts: seq<Pos>)
    requires forall i :: 0 <= i < |opts| ==> !b.InBounds(opts[i])
    ensures OnBoard(b, opts) == []
  {
    if opts != [] {
      assert !b.InBounds(opts[0]);
      OnBoardNone(b, opts[1..]);
    }
  }

  /** On a 1 x 1 board the only cell has no neighbour, and rnd.choice would fail. */
  lemma NeighborsInBoundsSingle(b: Board, p: Pos)
    requires b.width == 1 && b.height == 1 && b.InBounds(p)
    ensures NeighborsInBounds(b, p) == []
  {
    OnBoardNone(b, Candidates(p));
  }

  /** Every listed cell is a wall. */
  predicate AllWalls(b: Board, qs: seq<Pos>)
    requires b.Valid() && forall i :: 0 <= i < |qs| ==> b.InBounds(qs[i])
  {
    forall i :: 0 <= i < |qs| ==> b.IsWall(qs[i])
  }

  /** Some 4-neighbour of p is on the board and open. */
  ghost predicate HasOpenNeighbour(b: Board, p: Pos)
    requires b.Valid()
  {
    exists q :: q in Candidates(p) && b.IsWalkable(q)
  }

  /** The cells the start/goal pass may open: start, goal and their 4-neighbours. */
  function Touched(start: Pos, goal: Pos): seq<Pos> {
    [start, goal] + Candidates(start) + Candidates(goal)
  }

  /** The carving origin: start moved onto the odd lattice. */
  function CarveOrigin(b: Board, start: Pos): Pos {
    (ClampOdd(start.0, b.width), ClampOdd(start.1, b.height))
  }

  // ---------------------------------------------------------------------------
  // Opening cells

  /** b' has the size of b and every cell open in b is open in b'. */
  ghost predicate Wider(b: Board, b': Board) {
    && b.Valid() && b'.Valid() && b.width == b'.width && b.height == b'.height
    && forall p :: b.IsWalkable(p) ==> b'.IsWalkable(p)
  }

  lemma OpenWider(b: Board, p: Pos)
    requires b.Valid() && b.InBounds(p)
    ensures Wider(b, b.With(p, false))
  {
  }

  lemma WiderTrans(b: Board, b': Board, b'': Board)
    requires Wider(b, b') && Wider(b', b'')
    ensures Wider(b, b'')
  {
  }

  /** A walk stays a walk when cells are opened. */
  lemma WalkWider(b: Board, b': Board, w: seq<Pos>)
    requires Wider(b, b') && b.IsWalk(w)
    ensures b'.IsWalk(w)
  {
    forall i | 0 <= i < |w| - 1 ensures b'.StepAt(w, i) {
      assert b.StepAt(w, i);
    }
  }

  /** A walk followed by one more step. */
  lemma WalkExtend(b: Board, w: seq<Pos>, q: Pos)
    requires b.Valid() && b.IsWalk(w) && |w| > 0 && b.IsStep(w[|w| - 1], q)
    ensures b.IsWalk(w + [q])
  {
    var w' := w + [q];
    forall i | 0 <= i < |w'| - 1 ensures b.StepAt(w', i) {
      if i < |w| - 1 {
        assert b.StepAt(w, i);
      }
    }
  }

  // ---------------------------------------------------------------------------
  // The carving loop

  /** The cells strictly inside the border. */
  ghost function InnerCells(width: int, height: int): set<Pos> {
    set x: int, y: int | 1 <= x < width - 1 && 1 <= y < height - 1 :: (x, y)
  }

  lemma InnerCellsMembers(width: int, height: int, p: Pos)
    ensures p in InnerCells(width, height) <==> Inner(width, height, p)
  {
    if Inner(width, height, p) {
      assert p == (p.0, p.1);
    }
  }

  /**
   * The visited cells: odd, inside the border (the origin aside), open, and each reached from
   * the origin along open cells by route.
   */
  ghost predicate Carved(b: Board, s: Pos, visited: set<Pos>, route: map<Pos, seq<Pos>>)
    requires b.Valid()
  {
    && s in visited && Odd(s) && (b.width >= 3 && b.height >= 3 ==> Inner(b.width, b.height, s))
    && (forall v :: v in visited ==> Odd(v) && (v == s || Inner(b.width, b.height, v)))
    && (forall v :: v in visited ==> b.IsWalkable(v))
    && (forall v :: v in visited ==> v in route && b.IsWalkBetween(route[v], s, v))
  }

  /** Every border cell but the origin is a wall. */
  ghost predicate Sealed(b: Board, s: Pos)
    requires b.Valid()
  {
    forall p :: b.InBounds(p) && !Inner(b.width, b.height, p) && p != s ==> b.IsWall(p)
  }

  /**
   * The cells carving can open: lattice cells, and the midpoint between two lattice cells that
   * lie inside the border, one row or one column apart.
   */
  predicate Lattice(width: int, height: int, p: Pos) {
    && Inner(width, height, p)
    && ((p.0 % 2 == 1 && p.1 % 2 == 1)
        || (p.0 % 2 == 1 && p.1 + 1 < height - 1)
        || (p.1 % 2 == 1 && p.0 + 1 < width - 1))
  }

  /** Every open cell is the origin or a cell carving can open. */
  ghost predicate Shaped(b: Board, s: Pos)
    requires b.Valid()
  {
    forall p :: b.IsWalkable(p) ==> p == s || Lattice(b.width, b.height, p)
  }

  lemma ShapedSealed(b: Board, s: Pos)
    requires b.Valid() && Shaped(b, s)
    ensures Sealed(b, s)
  {
    forall p | b.InBounds(p) && !Inner(b.width, b.height, p) && p != s ensures b.IsWall(p) {
      assert !b.IsWalkable(p);
    }
  }

  /** The stack holds visited cells, and a visited cell off the stack has no fresh cell left next to it. */
  ghost predicate Backtracked(b: Board, stack: seq<Pos>, visited: set<Pos>) {
    && (forall i :: 0 <= i < |stack| ==> stack[i] in visited)
    && (forall v :: v in visited && v !in stack ==> CellNeighbors(b.width, b.height, visited, v) == [])
  }

  lemma CarveInit(b0: Board, b: Board, s: Pos)
    requires b0.Valid() && b0.InBounds(s) && Odd(s)
    requires b0.width >= 3 && b0.height >= 3 ==> Inner(b0.width, b0.height, s)
    requires forall p :: b0.InBounds(p) ==> b0.IsWall(p)
    requires b == b0.With(s, false)
    ensures Carved(b, s, {s}, map[s := [s]]) && Shaped(b, s) && Backtracked(b, [s], {s})
  {
  }

  /** The cell chosen next and the wall between: both inside the border, one step apart in line. */
  lemma CarveBounds(b: Board, s: Pos, visited: set<Pos>, route: map<Pos, seq<Pos>>,
                    current: Pos, next: Pos, between: Pos)
    requires b.Valid() && Carved(b, s, visited, route) && current in visited
    requires next in CellNeighbors(b.width, b.height, visited, current)
    requires between == ((current.0 + next.0) / 2, (current.1 + next.1) / 2)
    ensures Inner(b.width, b.height, current) && Lattice(b.width, b.height, between)
    ensures Inner(b.width, b.height, next) && Odd(next) && next !in visited
    ensures between in Candidates(current) && next in Candidates(between)
  {
    assert next in Jumps(current) && Inner(b.width, b.height, next);
    if next == (current.0 + 2, current.1) {
      assert between == (current.0 + 1, current.1);
    } else if next == (current.0 - 2, current.1) {
      assert between == (current.0 - 1, current.1);
    } else if next == (current.0, current.1 + 2) {
      assert between == (current.0, current.1 + 1);
    } else {
      assert between == (current.0, current.1 - 1);
    }
  }

  /** Opening the wall and the chosen cell keeps the carved cells carved and adds the chosen one. */
  lemma CarvedStep(b0: Board, b: Board, s: Pos, visited: set<Pos>, route: map<Pos, seq<Pos>>,
                   current: Pos, next: Pos, between: Pos)
    requires b0.Valid() && Carved(b0, s, visited, route) && current in visited
    requires Inner(b0.width, b0.height, between) && Inner(b0.width, b0.height, next) && Odd(next)
    requires between in Candidates(current) && next in Candidates(between)
    requires b == b0.With(between, false).With(next, false)
    ensures b.Valid() && Carved(b, s, visited + {next}, route[next := route[current] + [between, next]])
  {
    var b1 := b0.With(between, false);
    OpenWider(b0, between);
    OpenWider(b1, next);
    WiderTrans(b0, b1, b);
    var route' := route[next := route[current] + [between, next]];
    forall v | v in visited + {next} ensures v in route' && b.IsWalkBetween(route'[v], s, v) {
      if v == next {
        var w := route[current];
        WalkWider(b0, b, w);
        WalkExtend(b, w, between);
        WalkExtend(b, w + [between], next);
        assert w + [between] + [next] == w + [between, next];
      } else {
        WalkWider(b0, b, route[v]);
      }
    }
  }

  /** Opening a midpoint and a lattice cell keeps every open cell one carving can open. */
  lemma ShapedStep(b0: Board, b: Board, s: Pos, between: Pos, next: Pos)
    requires b0.Valid() && Shaped(b0, s)
    requires Lattice(b0.width, b0.height, between) && Lattice(b0.width, b0.height, next)
    requires b == b0.With(between, false).With(next, false)
    ensures b.Valid() && Shaped(b, s)
  {
  }

  /** Pushing the chosen cell keeps the stack's promise. */
  lemma BacktrackedPush(b0: Board, b: Board, stack: seq<Pos>, visited: set<Pos>, next: Pos)
    requires Backtracked(b0, stack, visited) && b.width == b0.width && b.height == b0.height
    ensures Backtracked(b, stack + [next], visited + {next})
  {
    forall v | v in visited + {next} && v !in stack + [next]
      ensures CellNeighbors(b.width, b.height, visited + {next}, v) == []
    {
      FreshShrinks(b.width, b.height, visited, visited + {next}, Jumps(v));
    }
  }

  /** Popping a cell with no fresh cell next to it keeps the stack's promise. */
  lemma BacktrackedPop(b: Board, stack: seq<Pos>, visited: set<Pos>)
    requires Backtracked(b, stack, visited) && |stack| > 0
    requires CellNeighbors(b.width, b.height, visited, stack[|stack| - 1]) == []
    ensures Backtracked(b, stack[..|stack| - 1], visited)
  {
    var stack' := stack[..|stack| - 1];
    forall v | v in visited && v !in stack' ensures CellNeighbors(b.width, b.height, visited, v) == [] {
      assert stack == stack' + [stack[|stack| - 1]];
    }
  }

  /**
   * When no visited cell has a fresh cell next to it, every odd cell inside the border is
   * visited: from the origin, odd cells two apart chain to each of them.
   */
  lemma {:induction false} Spanning(width: int, height: int, s: Pos, visited: set<Pos>, c: Pos)
    requires s in visited && Inner(width, height, s) && Odd(s)
    requires forall v :: v in visited ==> CellNeighbors(width, height, visited, v) == []
    requires Inner(width, height, c) && Odd(c)
    ensures c in visited
    decreases Distance(c, s)
  {
    if c != s {
      var prev := Toward(width, height, s, c);
      Spanning(width, height, s, visited, prev);
      assert c !in CellNeighbors(width, height, visited, prev);
    }
  }

  /** The Manhattan distance between two cells. */
  function Distance(p: Pos, q: Pos): nat {
    (if p.0 < q.0 then q.0 - p.0 else p.0 - q.0) + (if p.1 < q.1 then q.1 - p.1 else p.1 - q.1)
  }

  /** The odd cell two steps from c towards s: the previous link of a chain from s to c. */
  lemma Toward(width: int, height: int, s: Pos, c: Pos) returns (prev: Pos)
    requires Inner(width, height, s) && Odd(s) && Inner(width, height, c) && Odd(c) && c != s
    ensures Inner(width, height, prev) && Odd(prev)
    ensures c in Jumps(prev) && Distance(prev, s) < Distance(c, s)
  {
    prev :=
      if c.0 > s.0 then (c.0 - 2, c.1)
      else if c.0 < s.0 then (c.0 + 2, c.1)
      else if c.1 > s.1 then (c.0, c.1 - 2)
      else (c.0, c.1 + 2);
  }

  /** Carved cells are reachable from the origin. */
  lemma CarvedReachable(b: Board, s: Pos, visited: set<Pos>, route: map<Pos, seq<Pos>>, v: Pos)
    requires b.Valid() && Carved(b, s, visited, route) && v in visited
    ensures b.Reachable(s, v)
  {
    assert b.IsWalkBetween(route[v], s, v);
  }

  /** Carved cells stay carved when cells are opened. */
  lemma CarvedWider(b: Board, b': Board, s: Pos, visited: set<Pos>, route: map<Pos, seq<Pos>>)
    requires Wider(b, b') && Carved(b, s, visited, route)
    ensures Carved(b', s, visited, route)
  {
    forall v | v in visited ensures b'.IsWalkBetween(route[v], s, v) {
      WalkWider(b, b', route[v]);
    }
  }

  // ---------------------------------------------------------------------------
  // generate

  /** The nested fill loops: every cell becomes a wall. */
  method Fill(grid: Grid)
    requires grid.View().Valid()
    modifies grid`walls
    ensures grid.View().Valid()
    ensures forall p :: grid.View().InBounds(p) ==> grid.View().IsWall(p)
  {
    for y := 0 to grid.height
      invariant grid.View().Valid()
      invariant forall p :: grid.View().InBounds(p) && p.1 < y ==> grid.View().IsWall(p)
    {
      for x := 0 to grid.width
        invariant grid.View().Valid()
        invariant forall p :: grid.View().InBounds(p) && (p.1 < y || (p.1 == y && p.0 < x)) ==> grid.View().IsWall(p)
      {
        grid.SetWall((x, y), true);
      }
    }
  }

  /**
   * The backtracker: open the origin, then repeatedly look at the cell on top of the stack; with
   * no fresh cell two steps away, pop it, else pick one, open it and the wall between, and push
   * it. Choices are read from pick starting at t0; t is the next unread one.
   */
  method Carve(grid: Grid, s: Pos, pick: nat -> nat, t0: nat)
    returns (t: nat, visited: set<Pos>, ghost route: map<Pos, seq<Pos>>)
    requires grid.View().Valid() && grid.View().InBounds(s) && Odd(s)
    requires grid.width >= 3 && grid.height >= 3 ==> Inner(grid.width, grid.height, s)
    requires forall p :: grid.View().InBounds(p) ==> grid.View().IsWall(p)
    modifies grid`walls
    ensures grid.View().Valid()
    ensures Carved(grid.View(), s, visited, route) && Shaped(grid.View(), s) && Sealed(grid.View(), s)
    ensures forall c :: Inner(grid.width, grid.height, c) && Odd(c) ==> c in visited
  {
    ghost var b0 := grid.View();
    grid.SetWall(s, false);
    var stack := [s];
    visited := {s};
    route := map[s := [s]];
    t := t0;
    CarveInit(b0, grid.View(), s);
    ghost var inner := InnerCells(grid.width, grid.height);

    while |stack| > 0
      invariant grid.View().Valid()
      invariant Carved(grid.View(), s, visited, route) && Shaped(grid.View(), s)
      invariant Backtracked(grid.View(), stack, visited)
      invariant inner == InnerCells(grid.width, grid.height)
      decreases |inner - visited|, |stack|
    {
      var current := stack[|stack| - 1];
      var nbs := CellNeighbors(grid.width, grid.height, visited, current);
      if |nbs| == 0 {
        BacktrackedPop(grid.View(), stack, visited);
        stack := stack[..|stack| - 1];
        continue;
      }

      var next := nbs[pick(t) % |nbs|];
      t := t + 1;
      ghost var route';
      route' := CarveTo(grid, s, visited, route, stack, current, next);
      Shrinks(inner, visited, next);
      visited := visited + {next};
      route := route';
      stack := stack + [next];
    }
    forall c | Inner(grid.width, grid.height, c) && Odd(c) ensures c in visited {
      Spanning(grid.width, grid.height, s, visited, c);
    }
    ShapedSealed(grid.View(), s);
  }

  /** Visiting one more cell of a set leaves fewer of it unvisited. */
  lemma Shrinks(cells: set<Pos>, visited: set<Pos>, next: Pos)
    requires next in cells && next !in visited
    ensures |cells - (visited + {next})| < |cells - visited|
  {
    assert cells - visited == (cells - (visited + {next})) + {next};
  }

  /** One carving move: open the wall between current and next, then next itself. */
  method CarveTo(grid: Grid, s: Pos, visited: set<Pos>, ghost route: map<Pos, seq<Pos>>,
                 ghost stack: seq<Pos>, current: Pos, next: Pos)
    returns (ghost route': map<Pos, seq<Pos>>)
    requires grid.View().Valid()
    requires Carved(grid.View(), s, visited, route) && Shaped(grid.View(), s)
    requires Backtracked(grid.View(), stack, visited) && current in visited
    requires next in CellNeighbors(grid.width, grid.height, visited, current)
    modifies grid`walls
    ensures grid.View().Valid()
    ensures Carved(grid.View(), s, visited + {next}, route') && Shaped(grid.View(), s)
    ensures Backtracked(grid.View(), stack + [next], visited + {next})
    ensures next !in visited && next in InnerCells(grid.width, grid.height)
    ensures var between := ((current.0 + next.0) / 2, (current.1 + next.1) / 2);
            grid.View() == old(grid.View()).With(between, false).With(next, false)
  {
    var between := ((current.0 + next.0) / 2, (current.1 + next.1) / 2);
    ghost var b := grid.View();
    CarveBounds(b, s, visited, route, current, next, between);
    grid.SetWall(between, false);
    grid.SetWall(next, false);
    CarvedStep(b, grid.View(), s, visited, route, current, next, between);
    ShapedStep(b, grid.View(), s, between, next);
    BacktrackedPush(b, grid.View(), stack, visited, next);
    InnerCellsMembers(grid.width, grid.height, next);
    route' := route[next := route[current] + [between, next]];
  }

  /** An open neighbour stays open when cells are opened. */
  lemma OpenNeighbourWider(b: Board, b': Board, p: Pos)
    requires Wider(b, b') && HasOpenNeighbour(b, p)
    ensures HasOpenNeighbour(b', p)
  {
  }

  // ---------------------------------------------------------------------------
  // The closing pass on the board's contents

  /**
   * One turn of the closing loop on the board's contents: open p if it is a wall, then, when
   * every neighbour on the board is a wall, open the one the oracle picks at choice t. Returns
   * the new contents and the next unread choice.
   */
  function EndPass(b: Board, p: Pos, pick: nat -> nat, t: nat): (r: (Board, nat))
    requires b.Valid() && b.width >= 2 && b.height >= 2 && b.InBounds(p)
    ensures r.0.Valid() && r.0.width == b.width && r.0.height == b.height
    ensures r.1 == t || r.1 == t + 1
  {
    var b1 := if b.IsWalkable(p) then b else b.With(p, false);
    var around := NeighborsInBounds(b1, p);
    if AllWalls(b1, around) then
      NeighborsInBoundsNonEmpty(b1, p);
      (b1.With(around[pick(t) % |around|], false), t + 1)
    else
      (b1, t)
  }

  /**
   * After one turn p is open and has an open neighbour, nothing was closed, and only p and its
   * neighbours changed.
   */
  lemma EndPassOpens(b: Board, p: Pos, pick: nat -> nat, t: nat)
    requires b.Valid() && b.width >= 2 && b.height >= 2 && b.InBounds(p)
    ensures Wider(b, EndPass(b, p, pick, t).0)
    ensures EndPass(b, p, pick, t).0.IsWalkable(p) && HasOpenNeighbour(EndPass(b, p, pick, t).0, p)
    ensures forall q :: b.InBounds(q) && q != p && q !in Candidates(p) ==>
              EndPass(b, p, pick, t).0.IsWall(q) == b.IsWall(q)
  {
    var b1 := if b.IsWalkable(p) then b else b.With(p, false);
    var around := NeighborsInBounds(b1, p);
    var r := EndPass(b, p, pick, t).0;
    assert Wider(b, b1);
    if AllWalls(b1, around) {
      NeighborsInBoundsNonEmpty(b1, p);
      var q := around[pick(t) % |around|];
      OpenWider(b1, q);
      assert q in Candidates(p) && r.IsWalkable(q);
    } else {
      var i :| 0 <= i < |around| && !b1.IsWall(around[i]);
      assert around[i] in Candidates(p) && r.IsWalkable(around[i]);
    }
  }

  /** The whole closing pass: open start and goal, then one turn for start and one for goal. */
  function EndsPass(b: Board, start: Pos, goal: Pos, pick: nat -> nat, t: nat): (r: (Board, nat))
    requires b.Valid() && b.width >= 2 && b.height >= 2 && b.InBounds(start) && b.InBounds(goal)
    ensures r.0.Valid() && r.0.width == b.width && r.0.height == b.height
  {
    var first := EndPass(b.With(start, false).With(goal, false), start, pick, t);
    EndPass(first.0, goal, pick, first.1)
  }

  /**
   * After the closing pass start and goal are open, each with an open neighbour; nothing was
   * closed, and only start, goal and their neighbours changed.
   */
  lemma EndsPassOpens(b: Board, start: Pos, goal: Pos, pick: nat -> nat, t: nat)
    requires b.Valid() && b.width >= 2 && b.height >= 2 && b.InBounds(start) && b.InBounds(goal)
    ensures Wider(b, EndsPass(b, start, goal, pick, t).0)
    ensures EndsPass(b, start, goal, pick, t).0.IsWalkable(start) && EndsPass(b, start, goal, pick, t).0.IsWalkable(goal)
    ensures HasOpenNeighbour(EndsPass(b, start, goal, pick, t).0, start)
    ensures HasOpenNeighbour(EndsPass(b, start, goal, pick, t).0, goal)
    ensures forall q :: b.InBounds(q) && q !in Touched(start, goal) ==>
              EndsPass(b, start, goal, pick, t).0.IsWall(q) == b.IsWall(q)
  {
    var b1 := b.With(start, false);
    var b2 := b1.With(goal, false);
    OpenWider(b, start);
    OpenWider(b1, goal);
    WiderTrans(b, b1, b2);
    var first := EndPass(b2, start, pick, t);
    EndPassOpens(b2, start, pick, t);
    WiderTrans(b, b2, first.0);
    var last := EndPass(first.0, goal, pick, first.1);
    EndPassOpens(first.0, goal, pick, first.1);
    WiderTrans(b, first.0, last.0);
    OpenNeighbourWider(first.0, last.0, start);
  }

  /** One turn of the closing loop, in place. */
  method OpenEnd(grid: Grid, p: Pos, pick: nat -> nat, t0: nat) returns (t: nat)
    requires grid.View().Valid() && grid.width >= 2 && grid.height >= 2 && grid.View().InBounds(p)
    modifies grid`walls
    ensures (grid.View(), t) == EndPass(old(grid.View()), p, pick, t0)
  {
    t := t0;
    if !grid.View().IsWalkable(p) {
      grid.SetWall(p, false);
    }
    var around := NeighborsInBounds(grid.View(), p);
    if AllWalls(grid.View(), around) {
      NeighborsInBoundsNonEmpty(grid.View(), p);
      var q := around[pick(t) % |around|];
      t := t + 1;
      grid.SetWall(q, false);
    }
  }

  /** The closing pass, in place: open start and goal, then the loop over (start, goal). */
  method OpenEnds(grid: Grid, start: Pos, goal: Pos, pick: nat -> nat, t0: nat) returns (t: nat)
    requires grid.View().Valid() && grid.width >= 2 && grid.height >= 2
    requires grid.View().InBounds(start) && grid.View().InBounds(goal)
    modifies grid`walls
    ensures (grid.View(), t) == EndsPass(old(grid.View()), start, goal, pick, t0)
  {
    ghost var b0 := grid.View();
    t := t0;
    grid.SetWall(start, false);
    grid.SetWall(goal, false);
    ghost var b1 := grid.View();

    var ends := [start, goal];
    for j := 0 to 2
      invariant grid.View().Valid() && grid.View().width == b0.width && grid.View().height == b0.height
      invariant j == 0 ==> grid.View() == b1 && t == t0
      invariant j == 1 ==> (grid.View(), t) == EndPass(b1, start, pick, t0)
      invariant j == 2 ==> (grid.View(), t) == EndsPass(b0, start, goal, pick, t0)
    {
      t := OpenEnd(grid, ends[j], pick, t);
    }
  }

  /**
   * MazeGenerator.generate. On a board at least 2 x 2 with start and goal on it: carving leaves
   * every odd cell inside the border open and reachable from the carving origin, and opens only
   * the origin and cells carving can open; the closing pass then runs on that board (choices
   * are read from pick, starting at 0). In the end start and goal are open, each with an open
   * neighbour. The carved board and the first choice of the closing pass are ghost results.
   */
  method Generate(grid: Grid, start: Pos, goal: Pos, pick: nat -> nat) returns (ghost carved: Board, ghost t: nat)
    requires grid.View().Valid() && grid.width >= 2 && grid.height >= 2
    requires grid.View().InBounds(start) && grid.View().InBounds(goal)
    modifies grid`walls
    ensures carved.Valid() && carved.width == grid.width && carved.height == grid.height
    ensures Shaped(carved, CarveOrigin(carved, start))
    ensures forall c :: Inner(grid.width, grid.height, c) && Odd(c) ==>
              carved.Reachable(CarveOrigin(carved, start), c)
    ensures grid.View() == EndsPass(carved, start, goal, pick, t).0
    ensures grid.View().IsWalkable(start) && grid.View().IsWalkable(goal)
    ensures HasOpenNeighbour(grid.View(), start) && HasOpenNeighbour(grid.View(), goal)
    ensures forall c :: Inner(grid.width, grid.height, c) && Odd(c) ==>
              grid.View().Reachable(CarveOrigin(grid.View(), start), c)
  {
    Fill(grid);

    var sx, sy := ClampOdd(start.0, grid.width), ClampOdd(start.1, grid.height);
    var gx, gy := ClampOdd(goal.0, grid.width), ClampOdd(goal.1, grid.height);
    var s := (sx, sy);

    var tc, visited;
    ghost var route;
    tc, visited, route := Carve(grid, s, pick, 0);
    carved, t := grid.View(), tc;
    forall c | Inner(grid.width, grid.height, c) && Odd(c) ensures carved.Reachable(s, c) {
      CarvedReachable(carved, s, visited, route, c);
    }
    tc := OpenEnds(grid, start, goal, pick, tc);
    EndsPassOpens(carved, start, goal, pick, t);
    CarvedWider(carved, grid.View(), s, visited, route);
    forall c | Inner(grid.width, grid.height, c) && Odd(c) ensures grid.View().Reachable(s, c) {
      CarvedReachable(grid.View(), s, visited, route, c);
    }
  }

  // ---------------------------------------------------------------------------
  // The goal pocket

  /** Adjacency is symmetric. */
  lemma CandidatesBack(p: Pos, q: Pos)
    requires q in Candidates(p)
    ensures p in Candidates(q)
  {
    var d := Direction(p, q);
    assert d < 4;
    if d == 0 { assert p == Candidates(q)[1]; }
    else if d == 1 { assert p == Candidates(q)[0]; }
    else if d == 2 { assert p == Candidates(q)[3]; }
    else { assert p == Candidates(q)[2]; }
  }

  /** The tail of a walk is a walk. */
  lemma WalkTail(b: Board, w: seq<Pos>)
    requires b.Valid() && b.IsWalk(w) && |w| > 0
    ensures b.IsWalk(w[1..])
  {
    forall i | 0 <= i < |w| - 2 ensures b.StepAt(w[1..], i) {
      assert b.StepAt(w, i + 1);
    }
  }

  /** A walk read backwards is a walk when its first cell is open. */
  lemma {:induction false} WalkReverse(b: Board, w: seq<Pos>)
    requires b.Valid() && b.IsWalk(w) && |w| > 0 && b.IsWalkable(w[0])
    ensures b.IsWalk(Reverse(w))
    decreases |w|
  {
    if |w| > 1 {
      assert b.StepAt(w, 0);
      WalkTail(b, w);
      WalkReverse(b, w[1..]);
      var r := Reverse(w[1..]);
      assert r[|r| - 1] == w[1];
      CandidatesBack(w[0], w[1]);
      WalkExtend(b, r, w[0]);
      assert Reverse(w) == r + [w[0]];
    }
  }

  /** Steps go both ways between open cells, so reachability from an open cell is symmetric. */
  lemma ReachableBack(b: Board, a: Pos, c: Pos)
    requires b.Valid() && b.Reachable(a, c) && b.IsWalkable(a)
    ensures b.Reachable(c, a)
  {
    var w :| b.IsWalkBetween(w, a, c);
    WalkReverse(b, w);
    assert b.IsWalkBetween(Reverse(w), c, a);
  }

  /** A walk to m followed by a walk from m. */
  lemma WalkJoin(b: Board, w1: seq<Pos>, w2: seq<Pos>)
    requires b.Valid() && b.IsWalk(w1) && b.IsWalk(w2) && |w1| > 0 && |w2| > 0 && w1[|w1| - 1] == w2[0]
    ensures b.IsWalk(w1 + w2[1..])
  {
    var w := w1 + w2[1..];
    forall i | 0 <= i < |w| - 1 ensures b.StepAt(w, i) {
      if i < |w1| - 1 {
        assert b.StepAt(w1, i);
      } else {
        var k := i - |w1| + 1;
        assert b.StepAt(w2, k);
        assert w[i] == w2[k] && w[i + 1] == w2[k + 1];
      }
    }
  }

  lemma ReachableTrans(b: Board, a: Pos, m: Pos, c: Pos)
    requires b.Valid() && b.Reachable(a, m) && b.Reachable(m, c)
    ensures b.Reachable(a, c)
  {
    var w1 :| b.IsWalkBetween(w1, a, m);
    var w2 :| b.IsWalkBetween(w2, m, c);
    WalkJoin(b, w1, w2);
    assert b.IsWalkBetween(w1 + w2[1..], a, c);
  }

  /** Options that all lie on the board are kept whole. */
  lemma {:induction false} OnBoardAll(b: Board, opts: seq<Pos>)
    requires forall i :: 0 <= i < |opts| ==> b.InBounds(opts[i])
    ensures OnBoard(b, opts) == opts
  {
    if opts != [] {
      assert b.InBounds(opts[0]);
      OnBoardAll(b, opts[1..]);
    }
  }

  /**
   * On a board of even width and height, at least 6 x 6, carving leaves the four neighbours of
   * the corner cell (width - 2, height - 2) walled: none of them is a cell carving can open.
   */
  lemma CornerWalled(carved: Board, s: Pos, corner: Pos)
    requires carved.Valid() && carved.width % 2 == 0 && carved.height % 2 == 0
    requires carved.width >= 6 && carved.height >= 6
    requires Odd(s) && Shaped(carved, s) && corner == (carved.width - 2, carved.height - 2)
    ensures forall i :: 0 <= i < 4 ==> carved.InBounds(Candidates(corner)[i]) && carved.IsWall(Candidates(corner)[i])
  {
    var w, h := carved.width, carved.height;
    var around := Candidates(corner);
    forall i | 0 <= i < 4 ensures carved.InBounds(around[i]) && carved.IsWall(around[i]) {
      assert !Lattice(w, h, around[i]) && around[i] != s;
      assert !carved.IsWalkable(around[i]);
    }
  }

  /** The pass for start, at (1, 1), leaves the neighbours of that corner walled and opens goal. */
  lemma StartPassKeepsCorner(carved: Board, s: Pos, start: Pos, goal: Pos, pick: nat -> nat, t: nat)
    requires carved.Valid() && carved.width % 2 == 0 && carved.height % 2 == 0
    requires carved.width >= 6 && carved.height >= 6
    requires Odd(s) && Shaped(carved, s)
    requires start == (1, 1) && goal == (carved.width - 2, carved.height - 2)
    ensures var m := EndPass(carved.With(start, false).With(goal, false), start, pick, t).0;
            && m.Valid() && m.width == carved.width && m.height == carved.height && m.IsWalkable(goal)
            && forall i :: 0 <= i < 4 ==> m.InBounds(Candidates(goal)[i]) && m.IsWall(Candidates(goal)[i])
  {
    var around := Candidates(goal);
    assert around == [(goal.0 + 1, goal.1), (goal.0 - 1, goal.1), (goal.0, goal.1 + 1), (goal.0, goal.1 - 1)];
    assert Candidates(start) == [(2, 1), (0, 1), (1, 2), (1, 0)];
    assert forall i :: 0 <= i < 4 ==> around[i].0 >= 3 && around[i].1 >= 3 && around[i] != goal;
    var b1 := carved.With(start, false);
    var b2 := b1.With(goal, false);
    EndPassOpens(b2, start, pick, t);
    var m := EndPass(b2, start, pick, t).0;
    CornerWalled(carved, s, goal);
    forall i | 0 <= i < 4 ensures m.InBounds(around[i]) && m.IsWall(around[i]) {
      var c := around[i];
      assert c !in Candidates(start);
      assert b2.IsWall(c) == b1.IsWall(c) == carved.IsWall(c);
    }
  }

  /** When all four neighbours of p are on the board and walled, the pass opens the one pick names. */
  lemma EndPassWalled(m: Board, p: Pos, pick: nat -> nat, t: nat)
    requires m.Valid() && m.width >= 2 && m.height >= 2 && m.IsWalkable(p)
    requires forall i :: 0 <= i < 4 ==> m.InBounds(Candidates(p)[i]) && m.IsWall(Candidates(p)[i])
    ensures EndPass(m, p, pick, t) == (m.With(Candidates(p)[pick(t) % 4], false), t + 1)
  {
    OnBoardAll(m, Candidates(p));
    assert NeighborsInBounds(m, p) == Candidates(p);
    assert AllWalls(m, Candidates(p));
  }

  /**
   * The closing pass lets goal end in a pocket. With start (1, 1) and goal (width - 2, height - 2)
   * on a board of even width and height, at least 6 x 6, carving leaves all four neighbours of
   * goal walled, so the pass opens the one the oracle picks; with an even choice that is a border
   * cell, and goal and that cell have no other open neighbour: goal and start do not reach each
   * other.
   */
  lemma GoalPocket(carved: Board, s: Pos, start: Pos, goal: Pos, pick: nat -> nat, t: nat)
    requires carved.Valid() && carved.width % 2 == 0 && carved.height % 2 == 0
    requires carved.width >= 6 && carved.height >= 6
    requires Odd(s) && Inner(carved.width, carved.height, s) && Shaped(carved, s)
    requires start == (1, 1) && goal == (carved.width - 2, carved.height - 2)
    requires var k := pick(EndPass(carved.With(start, false).With(goal, false), start, pick, t).1) % 4; k == 0 || k == 2
    ensures !EndsPass(carved, start, goal, pick, t).0.Reachable(start, goal)
    ensures !EndsPass(carved, start, goal, pick, t).0.Reachable(goal, start)
  {
    var first := EndPass(carved.With(start, false).With(goal, false), start, pick, t);
    StartPassKeepsCorner(carved, s, start, goal, pick, t);
    var m := first.0;
    EndPassWalled(m, goal, pick, first.1);
    var k := pick(first.1) % 4;
    var f := m.With(Candidates(goal)[k], false);
    assert EndsPass(carved, start, goal, pick, t).0 == f;
    EndsPassOpens(carved, start, goal, pick, t);
    assert forall c :: carved.InBounds(c) && c !in Touched(start, goal) ==> f.IsWall(c) == carved.IsWall(c);
    ShapedSealed(carved, s);
    PocketClosed(carved, s, start, goal, m, f, k);
    assert start.0 < 3 && start != Candidates(goal)[k];
    PocketUnreachable(f, goal, Candidates(goal)[k], start);
  }

  /** Neither way between an open cell outside a closed pair of cells and the pair's first cell. */
  lemma PocketUnreachable(f: Board, goal: Pos, q: Pos, start: Pos)
    requires f.Valid() && Closed(f, {goal, q}) && f.IsWalkable(start)
    requires start != goal && start != q
    ensures !f.Reachable(goal, start) && !f.Reachable(start, goal)
  {
    ClosedUnreachable(f, {goal, q}, goal, start);
    if f.Reachable(start, goal) {
      ReachableBack(f, start, goal);
    }
  }

  /** No step leaves the pocket {goal, q}. */
  lemma PocketClosed(carved: Board, s: Pos, start: Pos, goal: Pos, m: Board, f: Board, k: int)
    requires carved.Valid() && carved.width % 2 == 0 && carved.height % 2 == 0
    requires carved.width >= 6 && carved.height >= 6
    requires Odd(s) && Inner(carved.width, carved.height, s) && Sealed(carved, s)
    requires start == (1, 1) && goal == (carved.width - 2, carved.height - 2)
    requires k == 0 || k == 2
    requires m.Valid() && m.width == carved.width && m.height == carved.height
    requires forall i :: 0 <= i < 4 ==> m.InBounds(Candidates(goal)[i]) && m.IsWall(Candidates(goal)[i])
    requires f == m.With(Candidates(goal)[k], false)
    requires forall c :: carved.InBounds(c) && c !in Touched(start, goal) ==> f.IsWall(c) == carved.IsWall(c)
    ensures Closed(f, {goal, Candidates(goal)[k]})
  {
    var pocket := {goal, Candidates(goal)[k]};
    forall x, n | x in pocket && f.IsStep(x, n) ensures n in pocket {
      if n !in pocket {
        PocketWall(carved, s, start, goal, m, f, k, x, n);
      }
    }
  }

  /** Every neighbour of the pocket {goal, q} outside it is a wall. */
  lemma PocketWall(carved: Board, s: Pos, start: Pos, goal: Pos, m: Board, f: Board, k: int, x: Pos, n: Pos)
    requires carved.Valid() && carved.width % 2 == 0 && carved.height % 2 == 0
    requires carved.width >= 6 && carved.height >= 6
    requires Odd(s) && Inner(carved.width, carved.height, s) && Sealed(carved, s)
    requires start == (1, 1) && goal == (carved.width - 2, carved.height - 2)
    requires k == 0 || k == 2
    requires m.Valid() && m.width == carved.width && m.height == carved.height
    requires forall i :: 0 <= i < 4 ==> m.InBounds(Candidates(goal)[i]) && m.IsWall(Candidates(goal)[i])
    requires f == m.With(Candidates(goal)[k], false)
    requires forall c :: carved.InBounds(c) && c !in Touched(start, goal) ==> f.IsWall(c) == carved.IsWall(c)
    requires x == goal || x == Candidates(goal)[k]
    requires n in Candidates(x) && n != goal && n != Candidates(goal)[k]
    ensures !f.IsWalkable(n)
  {
    var w, h := carved.width, carved.height;
    var q := Candidates(goal)[k];
    var d := Direction(x, n);
    assert d < 4 && n == Candidates(x)[d];
    if x == goal {
      assert m.IsWall(Candidates(goal)[d]);
    } else if f.InBounds(n) {
      assert !Inner(w, h, n) && n != s && n !in Touched(start, goal);
      assert carved.IsWall(n);
    }
  }

  // ---------------------------------------------------------------------------
  // Linking start and goal to the carved lattice

  /** One cell from cur towards c: along x first, then along y. */
  function StepToward(cur: Pos, c: Pos): (r: Pos)
    requires cur != c
    ensures r in Candidates(cur) && Distance(r, c) < Distance(cur, c)
  {
    if cur.0 < c.0 then (cur.0 + 1, cur.1)
    else if cur.0 > c.0 then (cur.0 - 1, cur.1)
    else if cur.1 < c.1 then (cur.0, cur.1 + 1)
    else (cur.0, cur.1 - 1)
  }

  /** Opens p and a straight-line corridor from p to c; the corridor is a walk from p to c. */
  method Link(grid: Grid, p: Pos, c: Pos) returns (ghost w: seq<Pos>)
    requires grid.View().Valid() && grid.View().InBounds(p) && grid.View().InBounds(c)
    modifies grid`walls
    ensures Wider(old(grid.View()), grid.View())
    ensures grid.View().IsWalkBetween(w, p, c) && grid.View().IsWalkable(p)
  {
    ghost var b0 := grid.View();
    grid.SetWall(p, false);
    OpenWider(b0, p);
    var cur := p;
    w := [p];
    while cur != c
      invariant Wider(b0, grid.View()) && grid.View().InBounds(cur)
      invariant grid.View().IsWalkBetween(w, p, cur) && grid.View().IsWalkable(p)
      decreases Distance(cur, c)
    {
      var next := StepToward(cur, c);
      ghost var before := grid.View();
      grid.SetWall(next, false);
      OpenWider(before, next);
      WiderTrans(b0, before, grid.View());
      WalkWider(before, grid.View(), w);
      WalkExtend(grid.View(), w, next);
      w := w + [next];
      cur := next;
    }
  }

  /**
   * The generator with start and goal joined to the carved lattice: after carving, each is linked
   * by a straight corridor to its own cell moved onto the odd lattice. Every odd cell inside the
   * border is then reachable from start, and start and goal reach each other.
   */
  method GenerateLinked(grid: Grid, start: Pos, goal: Pos, pick: nat -> nat)
    requires grid.View().Valid() && grid.width >= 3 && grid.height >= 3
    requires grid.View().InBounds(start) && grid.View().InBounds(goal)
    modifies grid`walls
    ensures grid.View().Valid() && grid.width == old(grid.width) && grid.height == old(grid.height)
    ensures grid.View().IsWalkable(start) && grid.View().IsWalkable(goal)
    ensures grid.View().Reachable(start, goal) && grid.View().Reachable(goal, start)
    ensures forall c :: Inner(grid.width, grid.height, c) && Odd(c) ==> grid.View().Reachable(start, c)
  {
    Fill(grid);
    var s := (ClampOdd(start.0, grid.width), ClampOdd(start.1, grid.height));
    var g := (ClampOdd(goal.0, grid.width), ClampOdd(goal.1, grid.height));
    var tc, visited;
    ghost var route;
    tc, visited, route := Carve(grid, s, pick, 0);
    ghost var carved := grid.View();
    ghost var ws := Link(grid, start, s);
    ghost var mid := grid.View();
    ghost var wg := Link(grid, goal, g);
    ghost var f := grid.View();
    WiderTrans(carved, mid, f);
    CarvedWider(carved, f, s, visited, route);
    WalkWider(mid, f, ws);
    assert f.IsWalkBetween(ws, start, s);
    assert f.IsWalkBetween(wg, goal, g);
    CarvedReachable(f, s, visited, route, g);
    ReachableTrans(f, start, s, g);
    ReachableBack(f, goal, g);
    ReachableTrans(f, start, g, goal);
    ReachableBack(f, start, goal);
    forall c | Inner(grid.width, grid.height, c) && Odd(c) ensures f.Reachable(start, c) {
      CarvedReachable(f, s, visited, route, c);
      ReachableTrans(f, start, s, c);
    }
  }
}
