/**
 * A* over the grid with the Manhattan heuristic: a lazy-deletion heap ordered by (f, tie),
 * the best known cost g of each discovered cell, the cells on the heap (in_open) and the
 * expanded ones (closed).
 */
module Astar {
  import opened Sequences
  import opened Grids
  import opened Results
  import opened Common
  import opened SearchFacts
  import opened HeapQueue

  /** The cost g_score.get assumes for a cell without an estimate (10**9). */
  const Unreached: int := 1_000_000_000

  /** dict.get with a default. */
  function GetOr(g: map<Pos, nat>, p: Pos, default: int): (r: int)
    ensures p in g ==> r == g[p]
    ensures p !in g ==> r == default
  {
    if p in g then g[p] else default
  }

  /** Every heap entry names a cell with a cost, and its f is at least that cost plus the heuristic, and at least fmax. */
  ghost predicate Estimates(goal: Pos, g: map<Pos, nat>, heap: seq<Entry>, fmax: int) {
    forall i :: 0 <= i < |heap| ==>
      heap[i].pos in g && g[heap[i].pos] + Manhattan(heap[i].pos, goal) <= heap[i].f && fmax <= heap[i].f
  }

  /** Every cell with a cost that is not closed has its latest entry, with f exactly cost plus heuristic, on the heap. */
  ghost predicate Latest(goal: Pos, g: map<Pos, nat>, heap: seq<Entry>, tieOf: map<Pos, int>, closed: set<Pos>) {
    forall v :: v in g && v !in closed ==> v in tieOf && Entry(g[v] + Manhattan(v, goal), tieOf[v], v) in heap
  }

  /** Closed cells had cost plus heuristic at most fmax, the f of the entry popped last. */
  ghost predicate Settled(goal: Pos, g: map<Pos, nat>, closed: set<Pos>, fmax: int) {
    forall c :: c in closed ==> c in g && g[c] + Manhattan(c, goal) <= fmax
  }

  /** The tie counter is at least every tie on the heap, so the next push gets a larger one. */
  ghost predicate Ticketed(heap: seq<Entry>, tie: int) {
    forall i :: 0 <= i < |heap| ==> heap[i].tie <= tie
  }

  /**
   * The sets: closed holds the expanded cells, in_open the cells with a cost that are not
   * closed; costs are kept for cells on the board (and start); start is expanded first.
   */
  ghost predicate Marked(grid: Board, start: Pos, goal: Pos, order: seq<Pos>, g: map<Pos, nat>,
                         heap: seq<Entry>, inOpen: set<Pos>, closed: set<Pos>)
  {
    && (forall p :: p in closed <==> p in order)
    && (forall p :: p in inOpen <==> p in g && p !in closed)
    && (forall p :: p in g ==> p == start || grid.InBounds(p))
    && (order == [] ==> forall i :: 0 <= i < |heap| ==> heap[i].pos == start)
    && (order != [] ==> order[0] == start)
    && goal !in closed
  }

  /** The state between iterations of the main loop. */
  ghost predicate Pending(grid: Board, start: Pos, goal: Pos, order: seq<Pos>, g: map<Pos, nat>,
                          heap: seq<Entry>, tieOf: map<Pos, int>, inOpen: set<Pos>, closed: set<Pos>,
                          fmax: int, tie: int)
    requires grid.Valid()
  {
    && Marked(grid, start, goal, order, g, heap, inOpen, closed)
    && Estimates(goal, g, heap, fmax)
    && Latest(goal, g, heap, tieOf, closed)
    && Settled(goal, g, closed, fmax)
    && Ticketed(heap, tie)
    && Relaxed(grid, closed, g)
  }

  /**
   * The state while the neighbours of `current` are scanned: current, expanded last, is closed,
   * its cost is `level`, and its cost plus heuristic is fmax; every other closed cell is relaxed.
   */
  ghost predicate Scanning(grid: Board, start: Pos, goal: Pos, order: seq<Pos>, g: map<Pos, nat>,
                           heap: seq<Entry>, tieOf: map<Pos, int>, inOpen: set<Pos>, closed: set<Pos>,
                           fmax: int, tie: int, current: Pos, level: nat)
    requires grid.Valid()
  {
    && |order| > 0 && current == order[|order| - 1] && current != goal
    && current in g && g[current] == level && level + Manhattan(current, goal) == fmax
    && Marked(grid, start, goal, order, g, heap, inOpen, closed)
    && Estimates(goal, g, heap, fmax)
    && Latest(goal, g, heap, tieOf, closed)
    && Settled(goal, g, closed, fmax)
    && Ticketed(heap, tie)
    && Relaxed(grid, closed - {current}, g)
  }

  /** The first i neighbours have a cost at most one more than current's. */
  ghost predicate Seen(nbs: seq<Pos>, i: int, g: map<Pos, nat>, level: nat) {
    forall j :: 0 <= j < i && j < |nbs| ==> nbs[j] in g && g[nbs[j]] <= level + 1
  }

  /**
   * The loop stopped at goal: goal was expanded and reported last, goal_found follows, and no
   * walk to goal is shorter than its cost.
   */
  ghost predicate Reached(grid: Board, cfg: AlgorithmConfig, start: Pos, goal: Pos, order: seq<Pos>,
                          trace: seq<TraceEvent>, logged: seq<TraceEvent>, body: seq<TraceEvent>, g: map<Pos, nat>)
    requires grid.Valid()
  {
    && |order| > 0 && order[|order| - 1] == goal && |body| > 0 && body[|body| - 1] == Visit(goal)
    && trace == logged + Gated(cfg, [GoalFound(goal)])
    && goal in g && grid.NoShorterWalk(start, goal, g[goal])
  }

  // ---------------------------------------------------------------------------
  // The main loop

  /** Before the loop: the heap holds start alone, with f = h(start) and tie 0. */
  lemma PendingInit(grid: Board, start: Pos, goal: Pos)
    requires grid.Valid() && start != goal
    ensures Pending(grid, start, goal, [], map[start := 0], [Entry(Manhattan(start, goal), 0, start)],
                    map[start := 0], {start}, {}, 0, 0)
  {
    var heap := [Entry(Manhattan(start, goal), 0, start)];
    assert heap[0] == Entry(map[start := 0][start] + Manhattan(start, goal), 0, start);
  }

  /** A popped entry for a closed cell is dropped; nothing else changes. */
  lemma StalePop(grid: Board, start: Pos, goal: Pos, order: seq<Pos>, g: map<Pos, nat>,
                 heap: seq<Entry>, tieOf: map<Pos, int>, inOpen: set<Pos>, closed: set<Pos>,
                 fmax: int, tie: int, k: nat)
    requires grid.Valid() && k < |heap|
    requires Pending(grid, start, goal, order, g, heap, tieOf, inOpen, closed, fmax, tie)
    requires heap[k].pos in closed
    ensures Pending(grid, start, goal, order, g, RemoveAt(heap, k), tieOf, inOpen, closed, fmax, tie)
  {
    var rest := RemoveAt(heap, k);
    forall v | v in g && v !in closed
      ensures v in tieOf && Entry(g[v] + Manhattan(v, goal), tieOf[v], v) in rest
    {
      RemoveAtKeeps(heap, k, Entry(g[v] + Manhattan(v, goal), tieOf[v], v));
    }
  }

  /**
   * The least entry of the heap, for a cell not closed, carries exactly that cell's cost plus
   * heuristic, and no open cell has a smaller cost plus heuristic.
   */
  lemma LeastEntry(grid: Board, start: Pos, goal: Pos, order: seq<Pos>, g: map<Pos, nat>,
                   heap: seq<Entry>, tieOf: map<Pos, int>, inOpen: set<Pos>, closed: set<Pos>,
                   fmax: int, tie: int, k: nat)
    requires grid.Valid() && k < |heap|
    requires Pending(grid, start, goal, order, g, heap, tieOf, inOpen, closed, fmax, tie)
    requires Least(heap, heap[k]) && heap[k].pos !in closed
    ensures heap[k].pos in g && heap[k].f == g[heap[k].pos] + Manhattan(heap[k].pos, goal)
    ensures forall v :: v in g && v !in closed ==> heap[k].f <= g[v] + Manhattan(v, goal)
  {
    forall v | v in g && v !in closed ensures heap[k].f <= g[v] + Manhattan(v, goal) {
      var x := Entry(g[v] + Manhattan(v, goal), tieOf[v], v);
      var j :| 0 <= j < |heap| && heap[j] == x;
      assert !Precedes(heap[j], heap[k]);
    }
  }

  /**
   * Popping the least entry of a cell not closed and reporting it keeps the bookkeeping; if
   * the cell is goal, no walk to goal is shorter than its cost, and otherwise its scan begins.
   */
  lemma PopStep(grid: Board, cfg: AlgorithmConfig, start: Pos, goal: Pos, cameFrom: map<Pos, Option<Pos>>,
                order: seq<Pos>, trace: seq<TraceEvent>, body: seq<TraceEvent>, added: seq<Pos>,
                g: map<Pos, nat>, heap: seq<Entry>, tieOf: map<Pos, int>, inOpen: set<Pos>,
                closed: set<Pos>, fmax: int, tie: int, k: nat)
    requires grid.Valid() && k < |heap|
    requires Progress(grid, cfg, AStar, start, goal, cameFrom, order, trace, body, added, g)
    requires Pending(grid, start, goal, order, g, heap, tieOf, inOpen, closed, fmax, tie)
    requires Least(heap, heap[k]) && heap[k].pos !in closed
    ensures heap[k].pos in g && heap[k].f == g[heap[k].pos] + Manhattan(heap[k].pos, goal)
    ensures Progress(grid, cfg, AStar, start, goal, cameFrom, order + [heap[k].pos],
                     trace + Gated(cfg, [FrontierPop(heap[k].pos)]) + Gated(cfg, [Visit(heap[k].pos)]),
                     body + [FrontierPop(heap[k].pos), Visit(heap[k].pos)], added, g)
    ensures (order + [heap[k].pos])[0] == start
    ensures heap[k].pos == goal ==> grid.NoShorterWalk(start, goal, g[goal])
    ensures heap[k].pos != goal ==>
              Scanning(grid, start, goal, order + [heap[k].pos], g, RemoveAt(heap, k), tieOf,
                       inOpen - {heap[k].pos}, closed + {heap[k].pos}, heap[k].f, tie,
                       heap[k].pos, g[heap[k].pos])
  {
    LeastEntry(grid, start, goal, order, g, heap, tieOf, inOpen, closed, fmax, tie, k);
    PopProgress(grid, cfg, start, goal, cameFrom, order, trace, body, added, g, heap, tieOf, inOpen, closed,
                fmax, tie, k);
    if heap[k].pos == goal {
      assert start in cameFrom && cameFrom.Keys == g.Keys;
      WalkLowerBound(grid, closed, g, start, goal, heap[k].f);
    } else {
      PopScanning(grid, start, goal, order, g, heap, tieOf, inOpen, closed, fmax, tie, k);
    }
  }

  /** Popping and reporting a cell with a cost that is not expanded yet keeps the bookkeeping. */
  lemma PopProgress(grid: Board, cfg: AlgorithmConfig, start: Pos, goal: Pos, cameFrom: map<Pos, Option<Pos>>,
                    order: seq<Pos>, trace: seq<TraceEvent>, body: seq<TraceEvent>, added: seq<Pos>,
                    g: map<Pos, nat>, heap: seq<Entry>, tieOf: map<Pos, int>, inOpen: set<Pos>,
                    closed: set<Pos>, fmax: int, tie: int, k: nat)
    requires grid.Valid() && k < |heap|
    requires Progress(grid, cfg, AStar, start, goal, cameFrom, order, trace, body, added, g)
    requires Marked(grid, start, goal, order, g, heap, inOpen, closed)
    requires heap[k].pos in g && heap[k].pos !in closed
    ensures Progress(grid, cfg, AStar, start, goal, cameFrom, order + [heap[k].pos],
                     trace + Gated(cfg, [FrontierPop(heap[k].pos)]) + Gated(cfg, [Visit(heap[k].pos)]),
                     body + [FrontierPop(heap[k].pos), Visit(heap[k].pos)], added, g)
    ensures (order + [heap[k].pos])[0] == start
  {
    assert cameFrom.Keys == g.Keys;
    ProgressPop(grid, cfg, AStar, start, goal, cameFrom, order, trace, body, added, g, heap[k].pos);
  }

  /** Removing the least entry keeps the bound of Estimates on the rest, now raised to the removed f. */
  lemma PopEstimates(goal: Pos, g: map<Pos, nat>, heap: seq<Entry>, fmax: int, k: nat)
    requires k < |heap| && Estimates(goal, g, heap, fmax) && Least(heap, heap[k])
    ensures Estimates(goal, g, RemoveAt(heap, k), heap[k].f)
  {
    var e, rest := heap[k], RemoveAt(heap, k);
    forall j | 0 <= j < |rest| ensures fmax <= e.f <= rest[j].f {
      var jj := if j < k then j else j + 1;
      assert rest[j] == heap[jj] && !Precedes(heap[jj], e);
    }
  }

  /** Removing the entry of the cell being closed keeps the latest entry of every other open cell. */
  lemma PopLatest(goal: Pos, g: map<Pos, nat>, heap: seq<Entry>, tieOf: map<Pos, int>, closed: set<Pos>, k: nat)
    requires k < |heap| && Latest(goal, g, heap, tieOf, closed)
    ensures Latest(goal, g, RemoveAt(heap, k), tieOf, closed + {heap[k].pos})
  {
    forall v | v in g && v !in closed + {heap[k].pos}
      ensures v in tieOf && Entry(g[v] + Manhattan(v, goal), tieOf[v], v) in RemoveAt(heap, k)
    {
      RemoveAtKeeps(heap, k, Entry(g[v] + Manhattan(v, goal), tieOf[v], v));
    }
  }

  /** Popping the least entry of a cell other than goal, not closed, begins the scan of that cell. */
  lemma PopScanning(grid: Board, start: Pos, goal: Pos, order: seq<Pos>, g: map<Pos, nat>,
                    heap: seq<Entry>, tieOf: map<Pos, int>, inOpen: set<Pos>, closed: set<Pos>,
                    fmax: int, tie: int, k: nat)
    requires grid.Valid() && k < |heap|
    requires Pending(grid, start, goal, order, g, heap, tieOf, inOpen, closed, fmax, tie)
    requires Least(heap, heap[k]) && heap[k].pos !in closed && heap[k].pos != goal
    requires heap[k].pos in g && heap[k].f == g[heap[k].pos] + Manhattan(heap[k].pos, goal)
    ensures Scanning(grid, start, goal, order + [heap[k].pos], g, RemoveAt(heap, k), tieOf,
                     inOpen - {heap[k].pos}, closed + {heap[k].pos}, heap[k].f, tie,
                     heap[k].pos, g[heap[k].pos])
  {
    var e, rest := heap[k], RemoveAt(heap, k);
    var current := e.pos;
    var closed', order' := closed + {current}, order + [current];
    assert Marked(grid, start, goal, order', g, rest, inOpen - {current}, closed');
    PopEstimates(goal, g, heap, fmax, k);
    PopLatest(goal, g, heap, tieOf, closed, k);
    assert closed' - {current} == closed;
  }

  /** When the heap runs dry, every cell with a cost is closed, so goal is out of reach. */
  lemma HeapExhausted(grid: Board, cfg: AlgorithmConfig, start: Pos, goal: Pos, cameFrom: map<Pos, Option<Pos>>,
                      order: seq<Pos>, trace: seq<TraceEvent>, body: seq<TraceEvent>, added: seq<Pos>,
                      g: map<Pos, nat>, tieOf: map<Pos, int>, inOpen: set<Pos>, closed: set<Pos>,
                      fmax: int, tie: int)
    requires grid.Valid()
    requires Progress(grid, cfg, AStar, start, goal, cameFrom, order, trace, body, added, g)
    requires Pending(grid, start, goal, order, g, [], tieOf, inOpen, closed, fmax, tie)
    ensures |order| > 0 && order[0] == start
    ensures !grid.Reachable(start, goal)
  {
    assert start in g && start in closed;
    ClosedUnreachable(grid, closed, start, goal);
  }

  // ---------------------------------------------------------------------------
  // The scan of one expanded cell

  /** A neighbour that is closed already is skipped; its cost is within one of current's. */
  lemma ScanClosed(grid: Board, start: Pos, goal: Pos, order: seq<Pos>, g: map<Pos, nat>,
                   heap: seq<Entry>, tieOf: map<Pos, int>, inOpen: set<Pos>, closed: set<Pos>,
                   fmax: int, tie: int, current: Pos, level: nat, nbs: seq<Pos>, i: int, nb: Pos)
    requires grid.Valid()
    requires Scanning(grid, start, goal, order, g, heap, tieOf, inOpen, closed, fmax, tie, current, level)
    requires Seen(nbs, i, g, level) && 0 <= i < |nbs| && nbs[i] == nb
    requires nb in closed && grid.IsStep(current, nb)
    ensures Seen(nbs, i + 1, g, level)
  {
    ManhattanStep(current, nb, goal);
  }

  /** A neighbour whose cost the step through current does not lower is left alone. */
  lemma ScanKeep(grid: Board, start: Pos, goal: Pos, order: seq<Pos>, g: map<Pos, nat>,
                 heap: seq<Entry>, tieOf: map<Pos, int>, inOpen: set<Pos>, closed: set<Pos>,
                 fmax: int, tie: int, current: Pos, level: nat, nbs: seq<Pos>, i: int, nb: Pos)
    requires grid.Valid() && level + 1 < Unreached
    requires Scanning(grid, start, goal, order, g, heap, tieOf, inOpen, closed, fmax, tie, current, level)
    requires Seen(nbs, i, g, level) && 0 <= i < |nbs| && nbs[i] == nb
    requires level + 1 >= GetOr(g, nb, Unreached)
    ensures Seen(nbs, i + 1, g, level)
  {
  }

  /** Lowering the cost of nb to c and pushing its new entry keeps every entry's f above cost plus heuristic and fmax. */
  lemma PushEstimates(goal: Pos, g: map<Pos, nat>, heap: seq<Entry>, fmax: int, tie: int, nb: Pos, c: nat)
    requires Estimates(goal, g, heap, fmax)
    requires c < GetOr(g, nb, Unreached) && fmax <= c + Manhattan(nb, goal)
    ensures Estimates(goal, g[nb := c], Push(heap, Entry(c + Manhattan(nb, goal), tie + 1, nb)), fmax)
  {
    var heap' := Push(heap, Entry(c + Manhattan(nb, goal), tie + 1, nb));
    forall i | 0 <= i < |heap'|
      ensures heap'[i].pos in g[nb := c] && g[nb := c][heap'[i].pos] + Manhattan(heap'[i].pos, goal) <= heap'[i].f
    {
      if i < |heap| {
        assert heap'[i] == heap[i];
      }
    }
  }

  /** The pushed entry becomes nb's latest; the other cells keep theirs. */
  lemma PushLatest(goal: Pos, g: map<Pos, nat>, heap: seq<Entry>, tieOf: map<Pos, int>, closed: set<Pos>,
                   tie: int, nb: Pos, c: nat)
    requires Latest(goal, g, heap, tieOf, closed)
    ensures Latest(goal, g[nb := c], Push(heap, Entry(c + Manhattan(nb, goal), tie + 1, nb)),
                   tieOf[nb := tie + 1], closed)
  {
    var e := Entry(c + Manhattan(nb, goal), tie + 1, nb);
    var g', heap', tieOf' := g[nb := c], Push(heap, e), tieOf[nb := tie + 1];
    forall v | v in g' && v !in closed
      ensures v in tieOf' && Entry(g'[v] + Manhattan(v, goal), tieOf'[v], v) in heap'
    {
      if v != nb {
        var x := Entry(g[v] + Manhattan(v, goal), tieOf[v], v);
        var j :| 0 <= j < |heap| && heap[j] == x;
        assert heap'[j] == x;
      } else {
        assert heap'[|heap|] == e;
      }
    }
  }

  lemma PushTicketed(heap: seq<Entry>, tie: int, e: Entry)
    requires Ticketed(heap, tie) && e.tie == tie + 1
    ensures Ticketed(Push(heap, e), tie + 1)
  {
    var heap' := Push(heap, e);
    forall i | 0 <= i < |heap'| ensures heap'[i].tie <= tie + 1 {
      if i < |heap| {
        assert heap'[i] == heap[i];
      }
    }
  }

  /** Lowering the cost of a cell not closed to c and pushing its new entry keeps the heap facts. */
  lemma RelaxHeap(goal: Pos, g: map<Pos, nat>, heap: seq<Entry>, tieOf: map<Pos, int>, closed: set<Pos>,
                  fmax: int, tie: int, nb: Pos, c: nat)
    requires Estimates(goal, g, heap, fmax) && Latest(goal, g, heap, tieOf, closed) && Ticketed(heap, tie)
    requires nb !in closed && c < GetOr(g, nb, Unreached) && fmax <= c + Manhattan(nb, goal)
    ensures Estimates(goal, g[nb := c], Push(heap, Entry(c + Manhattan(nb, goal), tie + 1, nb)), fmax)
    ensures Latest(goal, g[nb := c], Push(heap, Entry(c + Manhattan(nb, goal), tie + 1, nb)),
                   tieOf[nb := tie + 1], closed)
    ensures Ticketed(Push(heap, Entry(c + Manhattan(nb, goal), tie + 1, nb)), tie + 1)
  {
    PushEstimates(goal, g, heap, fmax, tie, nb, c);
    PushLatest(goal, g, heap, tieOf, closed, tie, nb, c);
    PushTicketed(heap, tie, Entry(c + Manhattan(nb, goal), tie + 1, nb));
  }

  /** Lowering the cost of a cell not closed keeps the other closed cells settled and relaxed. */
  lemma RelaxClosed(grid: Board, goal: Pos, g: map<Pos, nat>, closed: set<Pos>, fmax: int, s: set<Pos>,
                    nb: Pos, c: nat)
    requires grid.Valid() && Settled(goal, g, closed, fmax) && Relaxed(grid, s, g) && s <= closed
    requires nb !in closed && c < GetOr(g, nb, Unreached)
    ensures Settled(goal, g[nb := c], closed, fmax)
    ensures Relaxed(grid, s, g[nb := c])
  {
  }

  /** nb, the i-th neighbour, now has cost level + 1; the earlier ones keep theirs or get lower. */
  lemma RelaxSeen(g: map<Pos, nat>, nbs: seq<Pos>, i: int, level: nat, nb: Pos)
    requires Seen(nbs, i, g, level) && 0 <= i < |nbs| && nbs[i] == nb
    requires level + 1 < GetOr(g, nb, Unreached)
    ensures Seen(nbs, i + 1, g[nb := level + 1], level)
  {
  }

  /** The heap facts after nb gets cost level + 1 and a new entry with the next tie. */
  lemma RelaxEntries(grid: Board, start: Pos, goal: Pos, order: seq<Pos>, g: map<Pos, nat>,
                     heap: seq<Entry>, tieOf: map<Pos, int>, inOpen: set<Pos>, closed: set<Pos>,
                     fmax: int, tie: int, current: Pos, level: nat, nbs: seq<Pos>, i: int, nb: Pos)
    requires grid.Valid()
    requires Scanning(grid, start, goal, order, g, heap, tieOf, inOpen, closed, fmax, tie, current, level)
    requires Seen(nbs, i, g, level) && 0 <= i < |nbs| && nbs[i] == nb
    requires nb !in closed && grid.IsStep(current, nb)
    requires level + 1 < GetOr(g, nb, Unreached)
    ensures Estimates(goal, g[nb := level + 1], Push(heap, Entry(level + 1 + Manhattan(nb, goal), tie + 1, nb)), fmax)
    ensures Latest(goal, g[nb := level + 1], Push(heap, Entry(level + 1 + Manhattan(nb, goal), tie + 1, nb)),
                   tieOf[nb := tie + 1], closed)
    ensures Ticketed(Push(heap, Entry(level + 1 + Manhattan(nb, goal), tie + 1, nb)), tie + 1)
  {
    ManhattanStep(current, nb, goal);
    RelaxHeap(goal, g, heap, tieOf, closed, fmax, tie, nb, level + 1);
  }

  /** The cost and closed-set facts after nb gets cost level + 1. */
  lemma RelaxCosts(grid: Board, start: Pos, goal: Pos, order: seq<Pos>, g: map<Pos, nat>,
                   heap: seq<Entry>, tieOf: map<Pos, int>, inOpen: set<Pos>, closed: set<Pos>,
                   fmax: int, tie: int, current: Pos, level: nat, nbs: seq<Pos>, i: int, nb: Pos)
    requires grid.Valid()
    requires Scanning(grid, start, goal, order, g, heap, tieOf, inOpen, closed, fmax, tie, current, level)
    requires Seen(nbs, i, g, level) && 0 <= i < |nbs| && nbs[i] == nb
    requires nb !in closed && grid.IsStep(current, nb)
    requires level + 1 < GetOr(g, nb, Unreached)
    ensures Settled(goal, g[nb := level + 1], closed, fmax)
    ensures Relaxed(grid, closed - {current}, g[nb := level + 1])
    ensures Seen(nbs, i + 1, g[nb := level + 1], level)
    ensures forall p :: p in g[nb := level + 1] ==> p == start || grid.InBounds(p)
  {
    RelaxClosed(grid, goal, g, closed, fmax, closed - {current}, nb, level + 1);
    RelaxSeen(g, nbs, i, level, nb);
  }

  /** The facts both kinds of relaxation share: the heap, the costs and the closed cells after nb gets cost level + 1. */
  lemma Relax(grid: Board, start: Pos, goal: Pos, order: seq<Pos>, g: map<Pos, nat>,
              heap: seq<Entry>, tieOf: map<Pos, int>, inOpen: set<Pos>, closed: set<Pos>,
              fmax: int, tie: int, current: Pos, level: nat, nbs: seq<Pos>, i: int, nb: Pos)
    requires grid.Valid()
    requires Scanning(grid, start, goal, order, g, heap, tieOf, inOpen, closed, fmax, tie, current, level)
    requires Seen(nbs, i, g, level) && 0 <= i < |nbs| && nbs[i] == nb
    requires nb !in closed && grid.IsStep(current, nb)
    requires level + 1 < GetOr(g, nb, Unreached)
    ensures Estimates(goal, g[nb := level + 1], Push(heap, Entry(level + 1 + Manhattan(nb, goal), tie + 1, nb)), fmax)
    ensures Latest(goal, g[nb := level + 1], Push(heap, Entry(level + 1 + Manhattan(nb, goal), tie + 1, nb)),
                   tieOf[nb := tie + 1], closed)
    ensures Ticketed(Push(heap, Entry(level + 1 + Manhattan(nb, goal), tie + 1, nb)), tie + 1)
    ensures Settled(goal, g[nb := level + 1], closed, fmax)
    ensures Relaxed(grid, closed - {current}, g[nb := level + 1])
    ensures Seen(nbs, i + 1, g[nb := level + 1], level)
    ensures forall p :: p in g[nb := level + 1] ==> p == start || grid.InBounds(p)
  {
    RelaxEntries(grid, start, goal, order, g, heap, tieOf, inOpen, closed, fmax, tie, current, level, nbs, i, nb);
    RelaxCosts(grid, start, goal, order, g, heap, tieOf, inOpen, closed, fmax, tie, current, level, nbs, i, nb);
  }

  /** The scan state after nb, which had no cost, gets cost level + 1 and joins in_open. */
  lemma DiscoverScanning(grid: Board, start: Pos, goal: Pos, order: seq<Pos>, g: map<Pos, nat>,
                         heap: seq<Entry>, tieOf: map<Pos, int>, inOpen: set<Pos>, closed: set<Pos>,
                         fmax: int, tie: int, current: Pos, level: nat, nbs: seq<Pos>, i: int, nb: Pos)
    requires grid.Valid() && level + 1 < Unreached
    requires Scanning(grid, start, goal, order, g, heap, tieOf, inOpen, closed, fmax, tie, current, level)
    requires Seen(nbs, i, g, level) && 0 <= i < |nbs| && nbs[i] == nb
    requires nb !in closed && grid.IsStep(current, nb) && nb !in inOpen
    ensures nb !in g
    ensures Scanning(grid, start, goal, order, g[nb := level + 1],
                     Push(heap, Entry(level + 1 + Manhattan(nb, goal), tie + 1, nb)), tieOf[nb := tie + 1],
                     inOpen + {nb}, closed, fmax, tie + 1, current, level)
    ensures Seen(nbs, i + 1, g[nb := level + 1], level)
  {
    Relax(grid, start, goal, order, g, heap, tieOf, inOpen, closed, fmax, tie, current, level, nbs, i, nb);
    var g', heap' := g[nb := level + 1], Push(heap, Entry(level + 1 + Manhattan(nb, goal), tie + 1, nb));
    assert Marked(grid, start, goal, order, g', heap', inOpen + {nb}, closed);
  }

  /** The scan state after nb, already in in_open, gets the lower cost level + 1. */
  lemma RelinkScanning(grid: Board, start: Pos, goal: Pos, order: seq<Pos>, g: map<Pos, nat>,
                       heap: seq<Entry>, tieOf: map<Pos, int>, inOpen: set<Pos>, closed: set<Pos>,
                       fmax: int, tie: int, current: Pos, level: nat, nbs: seq<Pos>, i: int, nb: Pos)
    requires grid.Valid()
    requires Scanning(grid, start, goal, order, g, heap, tieOf, inOpen, closed, fmax, tie, current, level)
    requires Seen(nbs, i, g, level) && 0 <= i < |nbs| && nbs[i] == nb
    requires nb !in closed && grid.IsStep(current, nb) && nb in inOpen
    requires level + 1 < GetOr(g, nb, Unreached)
    ensures nb in g && level + 1 < g[nb] && nb !in order
    ensures Scanning(grid, start, goal, order, g[nb := level + 1],
                     Push(heap, Entry(level + 1 + Manhattan(nb, goal), tie + 1, nb)), tieOf[nb := tie + 1],
                     inOpen, closed, fmax, tie + 1, current, level)
    ensures Seen(nbs, i + 1, g[nb := level + 1], level)
  {
    Relax(grid, start, goal, order, g, heap, tieOf, inOpen, closed, fmax, tie, current, level, nbs, i, nb);
    var g', heap' := g[nb := level + 1], Push(heap, Entry(level + 1 + Manhattan(nb, goal), tie + 1, nb));
    assert Marked(grid, start, goal, order, g', heap', inOpen, closed);
  }

  /**
   * Discovering nb, which had no cost: it is linked to current, pushed with a new tie, put in
   * in_open and reported with frontier_add.
   */
  lemma ScanDiscover(grid: Board, cfg: AlgorithmConfig, start: Pos, goal: Pos, cameFrom: map<Pos, Option<Pos>>,
                     order: seq<Pos>, trace: seq<TraceEvent>, body: seq<TraceEvent>, added: seq<Pos>,
                     g: map<Pos, nat>, heap: seq<Entry>, tieOf: map<Pos, int>, inOpen: set<Pos>,
                     closed: set<Pos>, fmax: int, tie: int, current: Pos, level: nat, nbs: seq<Pos>, i: int, nb: Pos)
    requires grid.Valid() && level + 1 < Unreached
    requires Progress(grid, cfg, AStar, start, goal, cameFrom, order, trace, body, added, g)
    requires Scanning(grid, start, goal, order, g, heap, tieOf, inOpen, closed, fmax, tie, current, level)
    requires Seen(nbs, i, g, level) && 0 <= i < |nbs| && nbs[i] == nb
    requires nb !in closed && grid.IsStep(current, nb) && nb !in inOpen
    ensures Progress(grid, cfg, AStar, start, goal, cameFrom[nb := Some(current)], order,
                     trace + Gated(cfg, [FrontierAdd(nb)]), body + [FrontierAdd(nb)], added + [nb],
                     g[nb := level + 1])
    ensures Scanning(grid, start, goal, order, g[nb := level + 1],
                     Push(heap, Entry(level + 1 + Manhattan(nb, goal), tie + 1, nb)), tieOf[nb := tie + 1],
                     inOpen + {nb}, closed, fmax, tie + 1, current, level)
    ensures Seen(nbs, i + 1, g[nb := level + 1], level)
  {
    DiscoverScanning(grid, start, goal, order, g, heap, tieOf, inOpen, closed, fmax, tie, current, level, nbs, i, nb);
    assert current in order;
    ProgressAdd(grid, cfg, AStar, start, goal, cameFrom, order, trace, body, added, g, current, nb, level + 1);
  }

  /** Lowering the cost of nb, already on the heap, through current: relinked and pushed again, no event. */
  lemma ScanRelink(grid: Board, cfg: AlgorithmConfig, start: Pos, goal: Pos, cameFrom: map<Pos, Option<Pos>>,
                   order: seq<Pos>, trace: seq<TraceEvent>, body: seq<TraceEvent>, added: seq<Pos>,
                   g: map<Pos, nat>, heap: seq<Entry>, tieOf: map<Pos, int>, inOpen: set<Pos>,
                   closed: set<Pos>, fmax: int, tie: int, current: Pos, level: nat, nbs: seq<Pos>, i: int, nb: Pos)
    requires grid.Valid()
    requires Progress(grid, cfg, AStar, start, goal, cameFrom, order, trace, body, added, g)
    requires Scanning(grid, start, goal, order, g, heap, tieOf, inOpen, closed, fmax, tie, current, level)
    requires Seen(nbs, i, g, level) && 0 <= i < |nbs| && nbs[i] == nb
    requires nb !in closed && grid.IsStep(current, nb) && nb in inOpen
    requires level + 1 < GetOr(g, nb, Unreached)
    ensures Progress(grid, cfg, AStar, start, goal, cameFrom[nb := Some(current)], order, trace, body, added,
                     g[nb := level + 1])
    ensures Scanning(grid, start, goal, order, g[nb := level + 1],
                     Push(heap, Entry(level + 1 + Manhattan(nb, goal), tie + 1, nb)), tieOf[nb := tie + 1],
                     inOpen, closed, fmax, tie + 1, current, level)
    ensures Seen(nbs, i + 1, g[nb := level + 1], level)
  {
    RelinkScanning(grid, start, goal, order, g, heap, tieOf, inOpen, closed, fmax, tie, current, level, nbs, i, nb);
    assert current in order;
    ProgressRelink(grid, cfg, AStar, start, goal, cameFrom, order, trace, body, added, g, current, nb, level + 1);
  }

  /**
   * One relaxation of the scan, as the source writes it: link, cost, tie and heap entry for nb,
   * and in_open plus frontier_add only if nb was not on the heap.
   */
  lemma ScanRelax(grid: Board, cfg: AlgorithmConfig, start: Pos, goal: Pos, cameFrom: map<Pos, Option<Pos>>,
                  order: seq<Pos>, trace: seq<TraceEvent>, body: seq<TraceEvent>, added: seq<Pos>,
                  g: map<Pos, nat>, heap: seq<Entry>, tieOf: map<Pos, int>, inOpen: set<Pos>,
                  closed: set<Pos>, fmax: int, tie: int, current: Pos, level: nat, nbs: seq<Pos>, i: int, nb: Pos,
                  cameFrom': map<Pos, Option<Pos>>, trace': seq<TraceEvent>, body': seq<TraceEvent>,
                  added': seq<Pos>, g': map<Pos, nat>, heap': seq<Entry>, tieOf': map<Pos, int>,
                  inOpen': set<Pos>, tie': int)
    requires grid.Valid() && level + 1 < Unreached
    requires Progress(grid, cfg, AStar, start, goal, cameFrom, order, trace, body, added, g)
    requires Scanning(grid, start, goal, order, g, heap, tieOf, inOpen, closed, fmax, tie, current, level)
    requires Seen(nbs, i, g, level) && 0 <= i < |nbs| && nbs[i] == nb
    requires nb !in closed && grid.IsStep(current, nb)
    requires level + 1 < GetOr(g, nb, Unreached)
    requires cameFrom' == cameFrom[nb := Some(current)] && g' == g[nb := level + 1] && tie' == tie + 1
    requires heap' == Push(heap, Entry(level + 1 + Manhattan(nb, goal), tie', nb)) && tieOf' == tieOf[nb := tie']
    requires nb !in inOpen ==> && inOpen' == inOpen + {nb} && trace' == trace + Gated(cfg, [FrontierAdd(nb)])
                               && body' == body + [FrontierAdd(nb)] && added' == added + [nb]
    requires nb in inOpen ==> inOpen' == inOpen && trace' == trace && body' == body && added' == added
    ensures Progress(grid, cfg, AStar, start, goal, cameFrom', order, trace', body', added', g')
    ensures Scanning(grid, start, goal, order, g', heap', tieOf', inOpen', closed, fmax, tie', current, level)
    ensures Seen(nbs, i + 1, g', level)
  {
    if nb in inOpen {
      ScanRelink(grid, cfg, start, goal, cameFrom, order, trace, body, added, g, heap, tieOf, inOpen,
                 closed, fmax, tie, current, level, nbs, i, nb);
    } else {
      ScanDiscover(grid, cfg, start, goal, cameFrom, order, trace, body, added, g, heap, tieOf, inOpen,
                   closed, fmax, tie, current, level, nbs, i, nb);
    }
  }

  /** Once every step out of current was scanned, current is relaxed like the other closed cells. */
  lemma ScanningDone(grid: Board, start: Pos, goal: Pos, order: seq<Pos>, g: map<Pos, nat>,
                     heap: seq<Entry>, tieOf: map<Pos, int>, inOpen: set<Pos>, closed: set<Pos>,
                     fmax: int, tie: int, current: Pos, level: nat, nbs: seq<Pos>)
    requires grid.Valid()
    requires Scanning(grid, start, goal, order, g, heap, tieOf, inOpen, closed, fmax, tie, current, level)
    requires Seen(nbs, |nbs|, g, level)
    requires forall n :: grid.IsStep(current, n) ==> n in nbs
    ensures Pending(grid, start, goal, order, g, heap, tieOf, inOpen, closed, fmax, tie)
  {
    forall x, n | x in closed && grid.IsStep(x, n) ensures x in g && n in g && g[n] <= g[x] + 1 {
      if x == current {
        var j :| 0 <= j < |nbs| && nbs[j] == n;
      } else {
        assert x in closed - {current};
      }
    }
  }

  /** A cost is at most the number of cells of the board. */
  lemma LevelBound(grid: Board, cfg: AlgorithmConfig, start: Pos, goal: Pos, cameFrom: map<Pos, Option<Pos>>,
                   order: seq<Pos>, trace: seq<TraceEvent>, body: seq<TraceEvent>, added: seq<Pos>,
                   g: map<Pos, nat>, heap: seq<Entry>, inOpen: set<Pos>, closed: set<Pos>, v: Pos)
    requires grid.Valid()
    requires Progress(grid, cfg, AStar, start, goal, cameFrom, order, trace, body, added, g)
    requires Marked(grid, start, goal, order, g, heap, inOpen, closed)
    requires v in g
    ensures g[v] <= grid.width * grid.height
  {
    assert cameFrom.Keys == g.Keys;
    RankBelowSize(grid, cameFrom, start, g, Elements(order), v);
    DiscoveredBound(grid, start, g.Keys);
  }

  /** stats.visited: one cost per discovered cell. */
  lemma CostCount(grid: Board, cfg: AlgorithmConfig, start: Pos, goal: Pos, cameFrom: map<Pos, Option<Pos>>,
                  order: seq<Pos>, trace: seq<TraceEvent>, body: seq<TraceEvent>, added: seq<Pos>, g: map<Pos, nat>)
    requires grid.Valid()
    requires Progress(grid, cfg, AStar, start, goal, cameFrom, order, trace, body, added, g)
    ensures |g| == |added|
  {
    assert g.Keys == Elements(added);
    DistinctElements(added);
  }

  // ---------------------------------------------------------------------------
  // The reference: the loop of astar.run as a step function on its state

  /**
   * The loop state of astar.run: the heap, the costs, the tie counter, in_open, closed, the
   * predecessor map, the expanded cells, the cells each expansion reported with frontier_add,
   * and whether goal was reached.
   */
  datatype Sweep = Sweep(heap: seq<Entry>, g: map<Pos, nat>, tie: int, inOpen: set<Pos>, closed: set<Pos>,
                         cameFrom: map<Pos, Option<Pos>>, order: seq<Pos>, scans: seq<seq<Pos>>, found: bool)

  /** The state of one scan: the heap, the costs, the tie counter, in_open, the predecessor map, and the cells reported. */
  datatype Relaxation = Relaxation(heap: seq<Entry>, g: map<Pos, nat>, tie: int, inOpen: set<Pos>,
                                   cameFrom: map<Pos, Option<Pos>>, adds: seq<Pos>)

  /** The state when the loop begins: start alone is on the heap, with f = h(start) and tie 0, at cost 0; the loop takes at least one turn. */
  function Begin(start: Pos, goal: Pos): (s: Sweep)
    ensures !Halted(s) && start in s.inOpen && start in s.g && s.g[start] == 0 && s.closed == {}
  {
    Sweep([Entry(Manhattan(start, goal), 0, start)], map[start := 0], 0, {start}, {}, map[start := None], [], [],
          false)
  }

  /** The loop stops when goal was reached or the heap is empty. */
  predicate Halted(s: Sweep) {
    s.found || s.heap == []
  }

  /**
   * The step from current, at cost level, to nb: skipped when nb is closed or the step does not
   * lower its cost; otherwise nb gets current as predecessor, the cost level + 1 and a new
   * entry with the next tie, and it is reported unless it was in in_open.
   */
  function RelaxOne(r: Relaxation, nb: Pos, current: Pos, goal: Pos, level: nat, closed: set<Pos>): (next: Relaxation)
    ensures forall p :: p in r.g ==> p in next.g && next.g[p] <= r.g[p]
    ensures next.adds == r.adds || (nb !in r.inOpen && next.adds == r.adds + [nb])
  {
    if nb in closed || level + 1 >= GetOr(r.g, nb, Unreached) then r
    else
      Relaxation(Push(r.heap, Entry(level + 1 + Manhattan(nb, goal), r.tie + 1, nb)), r.g[nb := level + 1],
                 r.tie + 1, r.inOpen + {nb}, r.cameFrom[nb := Some(current)],
                 if nb in r.inOpen then r.adds else r.adds + [nb])
  }

  /** The scan of the neighbours nbs of current, in order, from the state r0. */
  function Relaxing(nbs: seq<Pos>, current: Pos, goal: Pos, level: nat, r0: Relaxation, closed: set<Pos>): (r: Relaxation)
    ensures forall p :: p in r0.g ==> p in r.g && r.g[p] <= r0.g[p]
  {
    if nbs == [] then r0
    else RelaxOne(Relaxing(nbs[..|nbs| - 1], current, goal, level, r0, closed), nbs[|nbs| - 1], current, goal, level,
                  closed)
  }

  /** The scan goes through the neighbours one by one. */
  lemma RelaxingNext(nbs: seq<Pos>, i: int, current: Pos, goal: Pos, level: nat, r0: Relaxation, closed: set<Pos>)
    requires 0 <= i < |nbs|
    ensures Relaxing(nbs[..i + 1], current, goal, level, r0, closed)
            == RelaxOne(Relaxing(nbs[..i], current, goal, level, r0, closed), nbs[i], current, goal, level, closed)
  {
    assert nbs[..i + 1][..i] == nbs[..i];
  }

  /**
   * Expanding c, popped from s (whose heap no longer holds its entry): c leaves in_open, joins
   * closed and the expanded cells, and its neighbours are scanned at c's cost.
   */
  ghost function Close(b: Board, goal: Pos, s: Sweep, c: Pos): Sweep
    requires b.Valid()
  {
    var r := Relaxing(b.Neighbors(c), c, goal, GetOr(s.g, c, 0),
                      Relaxation(s.heap, s.g, s.tie, s.inOpen - {c}, s.cameFrom, []), s.closed + {c});
    Sweep(r.heap, r.g, r.tie, r.inOpen, s.closed + {c}, r.cameFrom, s.order + [c], s.scans + [r.adds], false)
  }

  /**
   * One turn of the loop: pop the least entry; drop it if its cell is closed, stop if the cell
   * is goal, and otherwise expand the cell.
   */
  ghost function Step(b: Board, goal: Pos, s: Sweep): Sweep
    requires b.Valid()
  {
    if Halted(s) then s
    else
      var k := ArgMin(s.heap);
      var c, rest := s.heap[k].pos, RemoveAt(s.heap, k);
      if c in s.closed then s.(heap := rest)
      else if c == goal then
        s.(heap := rest, inOpen := s.inOpen - {c}, order := s.order + [c], scans := s.scans + [[]], found := true)
      else Close(b, goal, s.(heap := rest), c)
  }

  /** The state after n turns of the loop from Begin(start, goal). */
  ghost function Sweeps(b: Board, start: Pos, goal: Pos, n: nat): Sweep
    requires b.Valid()
    decreases n, 1
  {
    if n == 0 then Begin(start, goal) else SweepAfter(b, start, goal, n)
  }

  /** The n-th turn, n > 0, taken after the first n - 1. */
  ghost function SweepAfter(b: Board, start: Pos, goal: Pos, n: nat): Sweep
    requires b.Valid() && n > 0
    decreases n, 0
  {
    Step(b, goal, Sweeps(b, start, goal, n - 1))
  }

  /** The loop has stopped after n turns. */
  ghost predicate HaltsAfter(b: Board, start: Pos, goal: Pos, n: nat)
    requires b.Valid()
  {
    Halted(Sweeps(b, start, goal, n))
  }

  /**
   * The state the loop of astar.run ends in: the first halted one, which stays put. (The loop
   * always halts; the else branch only makes the definition total.) Nothing here depends on the
   * trace flag.
   */
  ghost function Ended(b: Board, start: Pos, goal: Pos): Sweep
    requires b.Valid()
  {
    if exists n: nat :: HaltsAfter(b, start, goal, n) then
      var n: nat :| HaltsAfter(b, start, goal, n); Sweeps(b, start, goal, n)
    else Begin(start, goal)
  }

  function Summarize(s: Sweep): Summary {
    Summary(s.found, s.order, s.cameFrom, s.scans)
  }

  /** After the loop halts it stays halted in the same state. */
  lemma {:induction false} SweepsHalted(b: Board, start: Pos, goal: Pos, n: nat, m: nat)
    requires b.Valid() && HaltsAfter(b, start, goal, n) && n <= m
    ensures Sweeps(b, start, goal, m) == Sweeps(b, start, goal, n)
    decreases m
  {
    if m > n {
      SweepsHalted(b, start, goal, n, m - 1);
      assert Sweeps(b, start, goal, m) == SweepAfter(b, start, goal, m);
    }
  }

  /** A loop that halts after n turns ends in Sweeps(n). */
  lemma EndedAt(b: Board, start: Pos, goal: Pos, n: nat)
    requires b.Valid() && HaltsAfter(b, start, goal, n)
    ensures Ended(b, start, goal) == Sweeps(b, start, goal, n)
  {
    var m: nat :| HaltsAfter(b, start, goal, m) && Ended(b, start, goal) == Sweeps(b, start, goal, m);
    if m <= n {
      SweepsHalted(b, start, goal, m, n);
    } else {
      SweepsHalted(b, start, goal, n, m);
    }
  }

  /**
   * Where the loop of astar.run stands after n turns (stale pops included): the state, its
   * expansions and the body of the trace.
   */
  ghost predicate Turns(b: Board, start: Pos, goal: Pos, n: nat, s: Sweep, body: seq<TraceEvent>)
    requires b.Valid()
  {
    && |s.scans| == |s.order|
    && s == Sweeps(b, start, goal, n)
    && body == Body(start, s.order, s.scans)
  }

  /** Before the first turn. */
  lemma TurnsBegin(b: Board, start: Pos, goal: Pos)
    requires b.Valid()
    ensures Turns(b, start, goal, 0, Begin(start, goal), [FrontierAdd(start)])
  {
  }

  /** A turn that pops the entry of a closed cell only shrinks the heap, and reports nothing. */
  lemma TurnsStale(b: Board, start: Pos, goal: Pos, n: nat, s: Sweep, body: seq<TraceEvent>)
    requires b.Valid() && Turns(b, start, goal, n, s, body) && !s.found && s.heap != []
    requires s.heap[ArgMin(s.heap)].pos in s.closed
    ensures Turns(b, start, goal, n + 1, s.(heap := RemoveAt(s.heap, ArgMin(s.heap))), body)
  {
    assert Sweeps(b, start, goal, n + 1) == SweepAfter(b, start, goal, n + 1);
  }

  /** A turn that pops goal: the next state is the halted one, and the body gains the pop and visit of goal. */
  lemma TurnsFound(b: Board, start: Pos, goal: Pos, n: nat, s: Sweep, body: seq<TraceEvent>)
    requires b.Valid() && Turns(b, start, goal, n, s, body) && !s.found && s.heap != []
    requires s.heap[ArgMin(s.heap)].pos !in s.closed && s.heap[ArgMin(s.heap)].pos == goal
    ensures Turns(b, start, goal, n + 1,
                  s.(heap := RemoveAt(s.heap, ArgMin(s.heap)), inOpen := s.inOpen - {goal}, order := s.order + [goal],
                     scans := s.scans + [[]], found := true),
                  body + [FrontierPop(goal), Visit(goal)])
  {
    assert Sweeps(b, start, goal, n + 1) == SweepAfter(b, start, goal, n + 1);
    BodySnoc(start, s.order, s.scans, goal, []);
    assert body + [FrontierPop(goal), Visit(goal)] + Adds([]) == body + [FrontierPop(goal), Visit(goal)];
  }

  /**
   * A turn that pops a cell c other than goal, not closed, and scans its neighbours into r is
   * a Step: the state and the trace body of the next turn.
   */
  lemma TurnsClosed(b: Board, start: Pos, goal: Pos, n: nat, s: Sweep, body: seq<TraceEvent>, c: Pos, r: Relaxation)
    requires b.Valid() && Turns(b, start, goal, n, s, body) && !s.found && s.heap != []
    requires c == s.heap[ArgMin(s.heap)].pos && c !in s.closed && c != goal
    requires r == Relaxing(b.Neighbors(c), c, goal, GetOr(s.g, c, 0),
                           Relaxation(RemoveAt(s.heap, ArgMin(s.heap)), s.g, s.tie, s.inOpen - {c}, s.cameFrom, []),
                           s.closed + {c})
    ensures Turns(b, start, goal, n + 1,
                  Sweep(r.heap, r.g, r.tie, r.inOpen, s.closed + {c}, r.cameFrom, s.order + [c], s.scans + [r.adds],
                        false),
                  body + [FrontierPop(c), Visit(c)] + Adds(r.adds))
  {
    assert Sweeps(b, start, goal, n + 1) == SweepAfter(b, start, goal, n + 1);
    BodySnoc(start, s.order, s.scans, c, r.adds);
  }

  /** Once the loop halts, it stays in the state Ended describes. */
  lemma TurnsEnded(b: Board, start: Pos, goal: Pos, n: nat, s: Sweep, body: seq<TraceEvent>)
    requires b.Valid() && Turns(b, start, goal, n, s, body) && Halted(s)
    ensures Ended(b, start, goal) == s
  {
    EndedAt(b, start, goal, n);
  }

  // ---------------------------------------------------------------------------
  // The loops

  /**
   * One turn of the scan: the step from current to nbs[i], one RelaxOne of the reference. The
   * trace body gains the frontier_add it reports, if any.
   */
  method Consider(cfg: AlgorithmConfig, start: Pos, goal: Pos, current: Pos, order: seq<Pos>,
                  cameFrom0: map<Pos, Option<Pos>>, trace0: seq<TraceEvent>, g0: map<Pos, nat>,
                  heap0: seq<Entry>, tie0: int, inOpen0: set<Pos>, closed: set<Pos>, ghost board: Board,
                  ghost body0: seq<TraceEvent>, ghost added0: seq<Pos>, ghost tieOf0: map<Pos, int>,
                  ghost fmax: int, ghost level: nat, nbs: seq<Pos>, i: int, ghost adds0: seq<Pos>,
                  ghost bodyStart: seq<TraceEvent>)
    returns (cameFrom: map<Pos, Option<Pos>>, trace: seq<TraceEvent>, g: map<Pos, nat>, heap: seq<Entry>,
             tie: int, inOpen: set<Pos>, ghost body: seq<TraceEvent>, ghost added: seq<Pos>,
             ghost tieOf: map<Pos, int>, ghost adds: seq<Pos>)
    requires board.Valid() && level + 1 < Unreached
    requires Progress(board, cfg, AStar, start, goal, cameFrom0, order, trace0, body0, added0, g0)
    requires Scanning(board, start, goal, order, g0, heap0, tieOf0, inOpen0, closed, fmax, tie0, current, level)
    requires Seen(nbs, i, g0, level) && 0 <= i < |nbs| && board.IsStep(current, nbs[i])
    requires body0 == bodyStart + Adds(adds0)
    ensures Progress(board, cfg, AStar, start, goal, cameFrom, order, trace, body, added, g)
    ensures Scanning(board, start, goal, order, g, heap, tieOf, inOpen, closed, fmax, tie, current, level)
    ensures Seen(nbs, i + 1, g, level)
    ensures Relaxation(heap, g, tie, inOpen, cameFrom, adds)
            == RelaxOne(Relaxation(heap0, g0, tie0, inOpen0, cameFrom0, adds0), nbs[i], current, goal, level, closed)
    ensures body == bodyStart + Adds(adds)
  {
    cameFrom, trace, g, heap, tie, inOpen := cameFrom0, trace0, g0, heap0, tie0, inOpen0;
    body, added, tieOf, adds := body0, added0, tieOf0, adds0;
    var nb := nbs[i];
    if nb in closed {
      ScanClosed(board, start, goal, order, g, heap, tieOf, inOpen, closed, fmax, tie, current, level, nbs, i, nb);
      return;
    }
    var tentative := g[current] + 1;
    if tentative < GetOr(g, nb, Unreached) {
      cameFrom, trace, g, heap, tie, inOpen, body, added, tieOf, adds :=
        Improve(cfg, start, goal, current, order, cameFrom, trace, g, heap, tie, inOpen, closed,
                board, body, added, tieOf, fmax, level, nbs, i, tentative, adds0, bodyStart);
    } else {
      ScanKeep(board, start, goal, order, g, heap, tieOf, inOpen, closed, fmax, tie, current, level, nbs, i, nb);
    }
  }

  /**
   * The updates of a step through current that lowers the cost of nb to tentative: predecessor,
   * cost, tie and heap entry, and in_open if nb was not in it; `entering` says whether it was not,
   * so that frontier_add is due.
   */
  method Lower(goal: Pos, current: Pos, nb: Pos, ghost level: nat, tentative: nat, cameFrom0: map<Pos, Option<Pos>>,
               g0: map<Pos, nat>, heap0: seq<Entry>, tie0: int, inOpen0: set<Pos>, ghost adds0: seq<Pos>,
               ghost closed: set<Pos>)
    returns (cameFrom: map<Pos, Option<Pos>>, g: map<Pos, nat>, heap: seq<Entry>, tie: int, inOpen: set<Pos>,
             entering: bool, ghost adds: seq<Pos>)
    requires tentative == level + 1 && nb !in closed && tentative < GetOr(g0, nb, Unreached)
    ensures cameFrom == cameFrom0[nb := Some(current)] && g == g0[nb := level + 1] && tie == tie0 + 1
    ensures heap == Push(heap0, Entry(level + 1 + Manhattan(nb, goal), tie, nb))
    ensures entering <==> nb !in inOpen0
    ensures inOpen == if entering then inOpen0 + {nb} else inOpen0
    ensures adds == if entering then adds0 + [nb] else adds0
    ensures Relaxation(heap, g, tie, inOpen, cameFrom, adds)
            == RelaxOne(Relaxation(heap0, g0, tie0, inOpen0, cameFrom0, adds0), nb, current, goal, level, closed)
  {
    cameFrom := cameFrom0[nb := Some(current)];
    g := g0[nb := tentative];
    var f := tentative + Manhattan(nb, goal);
    tie := tie0 + 1;
    heap := Push(heap0, Entry(f, tie, nb));
    entering := nb !in inOpen0;
    inOpen, adds := inOpen0, adds0;
    if entering {
      inOpen := inOpen + {nb};
      adds := adds + [nb];
    } else {
      assert inOpen0 + {nb} == inOpen0;
    }
  }

  /**
   * The step through current lowers the cost of nbs[i] to tentative: new predecessor, cost, tie
   * and heap entry, and in_open plus frontier_add if the cell was not in in_open.
   */
  method Improve(cfg: AlgorithmConfig, start: Pos, goal: Pos, current: Pos, order: seq<Pos>,
                 cameFrom0: map<Pos, Option<Pos>>, trace0: seq<TraceEvent>, g0: map<Pos, nat>,
                 heap0: seq<Entry>, tie0: int, inOpen0: set<Pos>, closed: set<Pos>, ghost board: Board,
                 ghost body0: seq<TraceEvent>, ghost added0: seq<Pos>, ghost tieOf0: map<Pos, int>,
                 ghost fmax: int, ghost level: nat, nbs: seq<Pos>, i: int, tentative: nat, ghost adds0: seq<Pos>,
                 ghost bodyStart: seq<TraceEvent>)
    returns (cameFrom: map<Pos, Option<Pos>>, trace: seq<TraceEvent>, g: map<Pos, nat>, heap: seq<Entry>,
             tie: int, inOpen: set<Pos>, ghost body: seq<TraceEvent>, ghost added: seq<Pos>,
             ghost tieOf: map<Pos, int>, ghost adds: seq<Pos>)
    requires board.Valid() && level + 1 < Unreached
    requires Progress(board, cfg, AStar, start, goal, cameFrom0, order, trace0, body0, added0, g0)
    requires Scanning(board, start, goal, order, g0, heap0, tieOf0, inOpen0, closed, fmax, tie0, current, level)
    requires Seen(nbs, i, g0, level) && 0 <= i < |nbs| && board.IsStep(current, nbs[i]) && nbs[i] !in closed
    requires tentative == level + 1 && tentative < GetOr(g0, nbs[i], Unreached)
    requires body0 == bodyStart + Adds(adds0)
    ensures Progress(board, cfg, AStar, start, goal, cameFrom, order, trace, body, added, g)
    ensures Scanning(board, start, goal, order, g, heap, tieOf, inOpen, closed, fmax, tie, current, level)
    ensures Seen(nbs, i + 1, g, level)
    ensures Relaxation(heap, g, tie, inOpen, cameFrom, adds)
            == RelaxOne(Relaxation(heap0, g0, tie0, inOpen0, cameFrom0, adds0), nbs[i], current, goal, level, closed)
    ensures body == bodyStart + Adds(adds)
  {
    var nb := nbs[i];
    var entering;
    cameFrom, g, heap, tie, inOpen, entering, adds := Lower(goal, current, nb, level, tentative, cameFrom0, g0, heap0, tie0,
                                                         inOpen0, adds0, closed);
    tieOf := tieOf0[nb := tie];
    trace, body, added := trace0, body0, added0;
    if entering {
      trace := trace + Gated(cfg, [FrontierAdd(nb)]);
      body, added := body + [FrontierAdd(nb)], added + [nb];
      AddsSnoc(adds0, nb);
      SnocAssoc(bodyStart, Adds(adds0), FrontierAdd(nb));
    }
    ScanRelax(board, cfg, start, goal, cameFrom0, order, trace0, body0, added0, g0, heap0, tieOf0, inOpen0,
              closed, fmax, tie0, current, level, nbs, i, nb,
              cameFrom, trace, body, added, g, heap, tieOf, inOpen, tie);
  }

  /**
   * The for-loop of astar.run over the neighbours of current: closed ones are skipped; one
   * whose cost the step through current lowers gets current as predecessor, the lower cost and
   * a new heap entry, and a frontier_add if it was not in in_open. The scan is Relaxing of the
   * reference.
   */
  method Scan(grid: Grid, cfg: AlgorithmConfig, start: Pos, goal: Pos, current: Pos, order: seq<Pos>,
              cameFrom0: map<Pos, Option<Pos>>, trace0: seq<TraceEvent>, g0: map<Pos, nat>,
              heap0: seq<Entry>, tie0: int, inOpen0: set<Pos>, closed: set<Pos>,
              ghost body0: seq<TraceEvent>, ghost added0: seq<Pos>, ghost tieOf0: map<Pos, int>,
              ghost fmax: int, ghost level: nat)
    returns (cameFrom: map<Pos, Option<Pos>>, trace: seq<TraceEvent>, g: map<Pos, nat>, heap: seq<Entry>,
             tie: int, inOpen: set<Pos>, ghost body: seq<TraceEvent>, ghost added: seq<Pos>,
             ghost tieOf: map<Pos, int>, ghost adds: seq<Pos>)
    requires grid.View().Valid() && grid.width * grid.height + 1 < Unreached
    requires Progress(grid.View(), cfg, AStar, start, goal, cameFrom0, order, trace0, body0, added0, g0)
    requires Scanning(grid.View(), start, goal, order, g0, heap0, tieOf0, inOpen0, closed, fmax, tie0, current, level)
    ensures Progress(grid.View(), cfg, AStar, start, goal, cameFrom, order, trace, body, added, g)
    ensures Pending(grid.View(), start, goal, order, g, heap, tieOf, inOpen, closed, fmax, tie)
    ensures Relaxation(heap, g, tie, inOpen, cameFrom, adds)
            == Relaxing(grid.View().Neighbors(current), current, goal, level,
                        Relaxation(heap0, g0, tie0, inOpen0, cameFrom0, []), closed)
    ensures body == body0 + Adds(adds)
  {
    ghost var board := grid.View();
    cameFrom, trace, g, heap, tie, inOpen := cameFrom0, trace0, g0, heap0, tie0, inOpen0;
    body, added, tieOf, adds := body0, added0, tieOf0, [];
    ghost var r0 := Relaxation(heap0, g0, tie0, inOpen0, cameFrom0, []);
    LevelBound(board, cfg, start, goal, cameFrom, order, trace, body, added, g, heap, inOpen, closed, current);
    var nbs := Neighbors4(grid, current);
    assert nbs[..0] == [] && body0 + Adds([]) == body0;
    for i := 0 to |nbs|
      invariant Progress(board, cfg, AStar, start, goal, cameFrom, order, trace, body, added, g)
      invariant Scanning(board, start, goal, order, g, heap, tieOf, inOpen, closed, fmax, tie, current, level)
      invariant Seen(nbs, i, g, level)
      invariant Relaxation(heap, g, tie, inOpen, cameFrom, adds) == Relaxing(nbs[..i], current, goal, level, r0, closed)
      invariant body == body0 + Adds(adds)
    {
      assert nbs[i] in nbs;
      RelaxingNext(nbs, i, current, goal, level, r0, closed);
      cameFrom, trace, g, heap, tie, inOpen, body, added, tieOf, adds :=
        Consider(cfg, start, goal, current, order, cameFrom, trace, g, heap, tie, inOpen, closed,
                 board, body, added, tieOf, fmax, level, nbs, i, adds, body0);
    }
    assert nbs[..|nbs|] == nbs;
    ScanningDone(board, start, goal, order, g, heap, tieOf, inOpen, closed, fmax, tie, current, level, nbs);
  }

  /**
   * One turn of the while-loop of astar.run for a popped entry whose cell is not closed: record
   * and report the cell, stop if it is goal, and otherwise close it and scan its neighbours. The
   * turn is a Step of the reference.
   */
  method Expand(grid: Grid, cfg: AlgorithmConfig, start: Pos, goal: Pos, e: Entry, rest: seq<Entry>,
                expanded0: int, order0: seq<Pos>, cameFrom0: map<Pos, Option<Pos>>, trace0: seq<TraceEvent>,
                g0: map<Pos, nat>, tie0: int, inOpen0: set<Pos>, closed0: set<Pos>,
                ghost heap0: seq<Entry>, ghost k: nat, ghost body0: seq<TraceEvent>, ghost added0: seq<Pos>,
                ghost tieOf0: map<Pos, int>, ghost fmax0: int, ghost n: nat, ghost scans0: seq<seq<Pos>>)
    returns (found: bool, expanded: int, order: seq<Pos>, cameFrom: map<Pos, Option<Pos>>,
             trace: seq<TraceEvent>, g: map<Pos, nat>, heap: seq<Entry>, tie: int, inOpen: set<Pos>,
             closed: set<Pos>, ghost logged: seq<TraceEvent>, ghost body: seq<TraceEvent>,
             ghost added: seq<Pos>, ghost tieOf: map<Pos, int>, ghost fmax: int, ghost scans: seq<seq<Pos>>)
    requires grid.View().Valid() && grid.width * grid.height + 1 < Unreached
    requires Progress(grid.View(), cfg, AStar, start, goal, cameFrom0, order0, trace0, body0, added0, g0)
    requires Pending(grid.View(), start, goal, order0, g0, heap0, tieOf0, inOpen0, closed0, fmax0, tie0)
    requires heap0 != [] && k == ArgMin(heap0) && e == heap0[k] && rest == RemoveAt(heap0, k)
    requires Least(heap0, e) && e.pos !in closed0 && expanded0 == |order0|
    requires Turns(grid.View(), start, goal, n, Sweep(heap0, g0, tie0, inOpen0, closed0, cameFrom0, order0, scans0, false),
                   body0)
    ensures expanded == |order| && |order| > 0 && order[0] == start
    ensures Progress(grid.View(), cfg, AStar, start, goal, cameFrom, order, logged, body, added, g)
    ensures Turns(grid.View(), start, goal, n + 1, Sweep(heap, g, tie, inOpen, closed, cameFrom, order, scans, found),
                  body)
    ensures found ==> Reached(grid.View(), cfg, start, goal, order, trace, logged, body, g)
    ensures !found ==> Pending(grid.View(), start, goal, order, g, heap, tieOf, inOpen, closed, fmax, tie)
    ensures !found ==> trace == logged && closed == closed0 + {e.pos}
  {
    ghost var board := grid.View();
    ghost var s := Sweep(heap0, g0, tie0, inOpen0, closed0, cameFrom0, order0, scans0, false);
    PopStep(board, cfg, start, goal, cameFrom0, order0, trace0, body0, added0, g0, heap0, tieOf0, inOpen0,
            closed0, fmax0, tie0, k);
    var current := e.pos;
    cameFrom, g, heap, tie, closed := cameFrom0, g0, rest, tie0, closed0;
    added, tieOf, fmax := added0, tieOf0, fmax0;
    inOpen := inOpen0 - {current};
    trace := trace0 + Gated(cfg, [FrontierPop(current)]);
    expanded := expanded0 + 1;
    order := order0 + [current];
    trace := trace + Gated(cfg, [Visit(current)]);
    body := body0 + [FrontierPop(current), Visit(current)];
    logged := trace;

    if current == goal {
      found := true;
      trace := trace + Gated(cfg, [GoalFound(goal)]);
      TurnsFound(board, start, goal, n, s, body0);
      scans := scans0 + [[]];
      return;
    }

    found := false;
    closed := closed + {current};
    fmax := e.f;
    ghost var adds;
    cameFrom, trace, g, heap, tie, inOpen, body, added, tieOf, adds :=
      Scan(grid, cfg, start, goal, current, order, cameFrom, trace, g, heap, tie, inOpen, closed,
           body, added, tieOf, fmax, g[current]);
    TurnsClosed(board, start, goal, n, s, body0, current, Relaxation(heap, g, tie, inOpen, cameFrom, adds));
    scans := scans0 + [adds];
    logged := trace;
  }

  /**
   * One turn of the while-loop of astar.run: pop the least entry, drop it if its cell is
   * closed, and otherwise expand the cell. Either closed gains a cell or the heap shrinks. The
   * turn is a Step of the reference.
   */
  method Turn(grid: Grid, cfg: AlgorithmConfig, start: Pos, goal: Pos,
              expanded0: int, order0: seq<Pos>, cameFrom0: map<Pos, Option<Pos>>, trace0: seq<TraceEvent>,
              g0: map<Pos, nat>, heap0: seq<Entry>, tie0: int, inOpen0: set<Pos>, closed0: set<Pos>,
              ghost body0: seq<TraceEvent>, ghost added0: seq<Pos>, ghost tieOf0: map<Pos, int>, ghost fmax0: int,
              ghost n: nat, ghost scans0: seq<seq<Pos>>)
    returns (found: bool, expanded: int, order: seq<Pos>, cameFrom: map<Pos, Option<Pos>>,
             trace: seq<TraceEvent>, g: map<Pos, nat>, heap: seq<Entry>, tie: int, inOpen: set<Pos>,
             closed: set<Pos>, ghost logged: seq<TraceEvent>, ghost body: seq<TraceEvent>,
             ghost added: seq<Pos>, ghost tieOf: map<Pos, int>, ghost fmax: int, ghost scans: seq<seq<Pos>>)
    requires grid.View().Valid() && grid.width * grid.height + 1 < Unreached
    requires Progress(grid.View(), cfg, AStar, start, goal, cameFrom0, order0, trace0, body0, added0, g0)
    requires Pending(grid.View(), start, goal, order0, g0, heap0, tieOf0, inOpen0, closed0, fmax0, tie0)
    requires heap0 != [] && expanded0 == |order0|
    requires Turns(grid.View(), start, goal, n, Sweep(heap0, g0, tie0, inOpen0, closed0, cameFrom0, order0, scans0, false),
                   body0)
    ensures expanded == |order|
    ensures Progress(grid.View(), cfg, AStar, start, goal, cameFrom, order, logged, body, added, g)
    ensures Turns(grid.View(), start, goal, n + 1, Sweep(heap, g, tie, inOpen, closed, cameFrom, order, scans, found),
                  body)
    ensures found ==> |order| > 0 && order[0] == start
    ensures found ==> Reached(grid.View(), cfg, start, goal, order, trace, logged, body, g)
    ensures !found ==> Pending(grid.View(), start, goal, order, g, heap, tieOf, inOpen, closed, fmax, tie)
    ensures !found ==> trace == logged
    ensures !found ==> (closed == closed0 && |heap| < |heap0|) || |closed| == |closed0| + 1
  {
    var e, rest, k := PopMin(heap0);
    if e.pos in closed0 {
      StalePop(grid.View(), start, goal, order0, g0, heap0, tieOf0, inOpen0, closed0, fmax0, tie0, k);
      TurnsStale(grid.View(), start, goal, n, Sweep(heap0, g0, tie0, inOpen0, closed0, cameFrom0, order0, scans0, false),
                 body0);
      found, expanded, order, cameFrom, trace, g, heap, tie, inOpen, closed :=
        false, expanded0, order0, cameFrom0, trace0, g0, rest, tie0, inOpen0, closed0;
      logged, body, added, tieOf, fmax, scans := trace0, body0, added0, tieOf0, fmax0, scans0;
      return;
    }
    found, expanded, order, cameFrom, trace, g, heap, tie, inOpen, closed, logged, body, added, tieOf, fmax, scans :=
      Expand(grid, cfg, start, goal, e, rest, expanded0, order0, cameFrom0, trace0, g0, tie0, inOpen0, closed0,
             heap0, k, body0, added0, tieOf0, fmax0, n, scans0);
  }

  /**
   * The while-loop of astar.run, turn by turn. It works on the fields of the result as values,
   * which astar.run stores back.
   */
  method Explore(grid: Grid, cfg: AlgorithmConfig, start: Pos, goal: Pos, cameFrom0: map<Pos, Option<Pos>>,
                 trace0: seq<TraceEvent>)
    returns (found: bool, expanded: int, order: seq<Pos>, cameFrom: map<Pos, Option<Pos>>,
             trace: seq<TraceEvent>, g: map<Pos, nat>,
             ghost logged: seq<TraceEvent>, ghost body: seq<TraceEvent>, ghost added: seq<Pos>,
             ghost scans: seq<seq<Pos>>)
    requires grid.View().Valid() && start != goal && grid.width * grid.height + 1 < Unreached
    requires cameFrom0 == map[start := None] && trace0 == Gated(cfg, [Init(AStar, start, goal)])
    ensures Summarize(Ended(grid.View(), start, goal)) == Summary(found, order, cameFrom, scans)
    ensures |scans| == |order| && body == Body(start, order, scans)
    ensures Progress(grid.View(), cfg, AStar, start, goal, cameFrom, order, logged, body, added, g)
    ensures expanded == |order| && |order| > 0 && order[0] == start
    ensures (found <==> goal in order)
    ensures found ==> Reached(grid.View(), cfg, start, goal, order, trace, logged, body, g)
    ensures !found ==> trace == logged && !grid.View().Reachable(start, goal)
  {
    ghost var board := grid.View();
    g := map[start := 0];
    var heap := [Entry(Manhattan(start, goal), 0, start)];
    var tie := 0;
    cameFrom, trace := cameFrom0, trace0 + Gated(cfg, [FrontierAdd(start)]);
    var inOpen, closed := {start}, {};
    found, expanded, order := false, 0, [];

    // The events after init, the cells in order of discovery, the tie of each cell's latest
    // entry, the f of the entry popped last, the bound on closed cells, and the turns taken.
    body, added := [FrontierAdd(start)], [start];
    ghost var tieOf := map[start := 0];
    ghost var fmax := 0;
    ghost var room := grid.width * grid.height + 1;
    ghost var pops: nat := 0;
    logged := trace;
    ProgressInit(board, cfg, AStar, start, goal);
    PendingInit(board, start, goal);
    scans := [];
    TurnsBegin(board, start, goal);

    while heap != []
      invariant !found && expanded == |order|
      invariant Progress(board, cfg, AStar, start, goal, cameFrom, order, trace, body, added, g)
      invariant Pending(board, start, goal, order, g, heap, tieOf, inOpen, closed, fmax, tie)
      invariant logged == trace
      invariant |closed| <= room
      invariant Turns(board, start, goal, pops, Sweep(heap, g, tie, inOpen, closed, cameFrom, order, scans, false), body)
      decreases room - |closed|, |heap|
    {
      found, expanded, order, cameFrom, trace, g, heap, tie, inOpen, closed, logged, body, added, tieOf, fmax, scans :=
        Turn(grid, cfg, start, goal, expanded, order, cameFrom, trace, g, heap, tie, inOpen, closed,
             body, added, tieOf, fmax, pops, scans);
      pops := pops + 1;
      if found {
        break;
      }
      DiscoveredBound(board, start, closed);
    }
    TurnsEnded(board, start, goal, pops, Sweep(heap, g, tie, inOpen, closed, cameFrom, order, scans, found), body);
    if !found {
      HeapExhausted(board, cfg, start, goal, cameFrom, order, trace, body, added, g, tieOf, inOpen, closed, fmax, tie);
    }
  }

  /** astar.run after its init event, on values: explore, then the common ending. */
  method Search(grid: Grid, cfg: AlgorithmConfig, start: Pos, goal: Pos, cameFrom0: map<Pos, Option<Pos>>,
                trace0: seq<TraceEvent>)
    returns (found: bool, path: seq<Pos>, order: seq<Pos>, cameFrom: map<Pos, Option<Pos>>,
             trace: seq<TraceEvent>, stats: SearchStats)
    requires grid.View().Valid() && start != goal && grid.width * grid.height + 1 < Unreached
    requires cameFrom0 == map[start := None] && trace0 == Gated(cfg, [Init(AStar, start, goal)])
    ensures Outcome(grid.View(), cfg, AStar, start, goal, found, path, order, cameFrom, trace, stats)
    ensures found ==> grid.View().NoShorterWalk(start, goal, |path| - 1)
    ensures Reproduces(cfg, AStar, start, goal, Summarize(Ended(grid.View(), start, goal)),
                       found, path, order, cameFrom, trace, stats)
  {
    var expanded, explored, g;
    ghost var logged, body, added, scans;
    found, expanded, order, cameFrom, explored, g, logged, body, added, scans :=
      Explore(grid, cfg, start, goal, cameFrom0, trace0);
    CostCount(grid.View(), cfg, start, goal, cameFrom, order, logged, body, added, g);
    path, trace, stats :=
      Conclude(grid.View(), cfg, AStar, start, goal, found, expanded, order, cameFrom, explored, |g|,
               logged, body, added, g);
  }

  /** astar.run; the cost bound keeps every cost below the 10**9 default of g_score.get. */
  method Run(grid: Grid, start: Pos, goal: Pos, cfg: AlgorithmConfig) returns (res: SearchResult)
    requires grid.View().Valid() && grid.width * grid.height + 1 < Unreached
    ensures fresh(res)
    ensures start == goal ==> TrivialOutcome(res, cfg, AStar, start)
    ensures start != goal ==> SearchOutcome(grid.View(), res, cfg, AStar, start, goal)
    ensures start != goal && res.found ==> grid.View().NoShorterWalk(start, goal, |res.path| - 1)
    ensures start != goal ==> Recorded(res, cfg, AStar, start, goal, Summarize(Ended(grid.View(), start, goal)))
  {
    res := NewResult(start, goal);
    Emit(res, cfg, Init(AStar, start, goal));
    if start == goal {
      res.found := true;
      res.path := [start];
      res.stats := res.stats.(pathLength := 1);
      Emit(res, cfg, GoalFound(goal));
      Emit(res, cfg, PathEvent(res.path));
      Emit(res, cfg, Done(true));
      return;
    }
    ghost var board := grid.View();
    var found, path, order, cameFrom, trace, stats := Search(grid, cfg, start, goal, res.cameFrom, res.trace);
    Store(board, res, cfg, AStar, start, goal, Summarize(Ended(board, start, goal)), found, path, order,
          cameFrom, trace, stats);
  }
}
