/** Depth-first search over the grid: a LIFO frontier, each cell marked visited when it is pushed. */
module Dfs {
  import opened Sequences
  import opened Grids
  import opened Results
  import opened Common
  import opened SearchFacts
  import opened Frontiers

  /**
   * Where the discovered cells stand: `visited` is the set of `added`, on the board except
   * possibly start; it holds the expanded cells (`order`, as a set `expanded`) and the stack,
   * whose cells are distinct and unexpanded, and nothing else, by count.
   */
  ghost predicate Stacked(grid: Board, start: Pos, order: seq<Pos>, stack: seq<Pos>, visited: set<Pos>,
                          added: seq<Pos>, expanded: set<Pos>)
  {
    && |visited| == |added| && (forall p :: p in visited <==> p in added)
    && (forall p :: p in visited ==> p == start || grid.InBounds(p))
    && Distinct(stack)
    && (forall i :: 0 <= i < |stack| ==> stack[i] in visited && stack[i] !in expanded)
    && (forall i :: 0 <= i < |order| ==> order[i] in visited)
    && (forall p :: p in expanded ==> p in visited)
    && |visited| == |order| + |stack|
  }

  /** Every step out of s leads to a discovered cell. */
  ghost predicate Covered(grid: Board, s: set<Pos>, visited: set<Pos>)
    requires grid.Valid()
  {
    forall x, n :: x in s && grid.IsStep(x, n) ==> n in visited
  }

  /**
   * The stack between iterations: the expanded cells are `done`, their steps are all
   * discovered, goal is not among them, and start is expanded first (while nothing is
   * expanded, the stack holds just start).
   */
  ghost predicate Pending(grid: Board, start: Pos, goal: Pos, order: seq<Pos>, stack: seq<Pos>,
                          visited: set<Pos>, added: seq<Pos>, done: set<Pos>)
    requires grid.Valid()
  {
    && Stacked(grid, start, order, stack, visited, added, done)
    && (order == [] ==> stack == [start])
    && (order != [] ==> order[0] == start)
    && (forall p :: p in done <==> p in order)
    && Covered(grid, done, visited)
    && goal !in done
  }

  /** The stack while the neighbours of `current`, the cell expanded last, are scanned. */
  ghost predicate Scanning(grid: Board, start: Pos, goal: Pos, order: seq<Pos>, stack: seq<Pos>,
                           visited: set<Pos>, added: seq<Pos>, done: set<Pos>, current: Pos)
    requires grid.Valid()
  {
    && Stacked(grid, start, order, stack, visited, added, done + {current})
    && |order| > 0 && order[0] == start
    && current == order[|order| - 1] && current != goal
    && (forall p :: p in done <==> p in order && p != current)
    && Covered(grid, done, visited)
    && goal !in done
  }

  /** The first i neighbours are discovered. */
  ghost predicate Seen(nbs: seq<Pos>, i: int, visited: set<Pos>) {
    forall j :: 0 <= j < i && j < |nbs| ==> nbs[j] in visited
  }

  lemma StackedPop(grid: Board, start: Pos, order: seq<Pos>, stack: seq<Pos>, visited: set<Pos>,
                   added: seq<Pos>, expanded: set<Pos>)
    requires Stacked(grid, start, order, stack, visited, added, expanded) && stack != []
    ensures stack[|stack| - 1] in visited && stack[|stack| - 1] !in expanded
    ensures Stacked(grid, start, order + [stack[|stack| - 1]], stack[..|stack| - 1], visited, added,
                    expanded + {stack[|stack| - 1]})
  {
    var n := |stack| - 1;
    var current, rest := stack[n], stack[..n];
    forall i | 0 <= i < |rest| ensures rest[i] in visited && rest[i] !in expanded + {current} {
      assert rest[i] == stack[i];
    }
  }

  /**
   * Popping the top of the stack and reporting it keeps the bookkeeping; the popped cell is
   * goal, or the cell whose neighbours are scanned next.
   */
  lemma PopStep(grid: Board, cfg: AlgorithmConfig, start: Pos, goal: Pos, cameFrom: map<Pos, Option<Pos>>,
                order: seq<Pos>, trace: seq<TraceEvent>, body: seq<TraceEvent>, added: seq<Pos>,
                rank: map<Pos, nat>, stack: seq<Pos>, visited: set<Pos>, done: set<Pos>)
    requires grid.Valid() && stack != []
    requires Progress(grid, cfg, DFS, start, goal, cameFrom, order, trace, body, added, rank)
    requires Pending(grid, start, goal, order, stack, visited, added, done)
    ensures Progress(grid, cfg, DFS, start, goal, cameFrom, order + [stack[|stack| - 1]],
                     trace + Gated(cfg, [FrontierPop(stack[|stack| - 1])]) + Gated(cfg, [Visit(stack[|stack| - 1])]),
                     body + [FrontierPop(stack[|stack| - 1]), Visit(stack[|stack| - 1])], added, rank)
    ensures (order + [stack[|stack| - 1]])[0] == start
    ensures stack[|stack| - 1] != goal ==>
              Scanning(grid, start, goal, order + [stack[|stack| - 1]], stack[..|stack| - 1], visited, added,
                       done, stack[|stack| - 1])
  {
    var current := stack[|stack| - 1];
    StackedPop(grid, start, order, stack, visited, added, done);
    ProgressPop(grid, cfg, DFS, start, goal, cameFrom, order, trace, body, added, rank, current);
  }

  /** Pushing nb, the i-th neighbour, not discovered before. */
  lemma ScanningAdd(grid: Board, start: Pos, goal: Pos, order: seq<Pos>, stack: seq<Pos>, visited: set<Pos>,
                    added: seq<Pos>, done: set<Pos>, current: Pos, nbs: seq<Pos>, i: int, nb: Pos)
    requires grid.Valid()
    requires Scanning(grid, start, goal, order, stack, visited, added, done, current)
    requires Seen(nbs, i, visited) && 0 <= i < |nbs| && nbs[i] == nb
    requires nb !in visited && grid.IsStep(current, nb)
    ensures Scanning(grid, start, goal, order, stack + [nb], visited + {nb}, added + [nb], done, current)
    ensures Seen(nbs, i + 1, visited + {nb})
  {
    DistinctSnoc(stack, nb);
    var s := stack + [nb];
    forall k | 0 <= k < |s| ensures s[k] in visited + {nb} && s[k] !in done + {current} {
      if k < |stack| {
        assert s[k] == stack[k];
      }
    }
  }

  /** The cell expanded last has a rank. */
  lemma LastRanked(grid: Board, cfg: AlgorithmConfig, start: Pos, goal: Pos, cameFrom: map<Pos, Option<Pos>>,
                   order: seq<Pos>, trace: seq<TraceEvent>, body: seq<TraceEvent>, added: seq<Pos>,
                   rank: map<Pos, nat>)
    requires grid.Valid() && |order| > 0
    requires Progress(grid, cfg, DFS, start, goal, cameFrom, order, trace, body, added, rank)
    ensures order[|order| - 1] in rank
  {
    assert order[|order| - 1] in cameFrom;
  }

  /**
   * One discovery of the scan: the shared search state and the stack both take in nb, one
   * level below current.
   */
  lemma ScanStep(grid: Board, cfg: AlgorithmConfig, start: Pos, goal: Pos, cameFrom: map<Pos, Option<Pos>>,
                 order: seq<Pos>, trace: seq<TraceEvent>, body: seq<TraceEvent>, added: seq<Pos>,
                 rank: map<Pos, nat>, stack: seq<Pos>, visited: set<Pos>, done: set<Pos>, current: Pos,
                 level: nat, nbs: seq<Pos>, i: int, nb: Pos)
    requires grid.Valid()
    requires Progress(grid, cfg, DFS, start, goal, cameFrom, order, trace, body, added, rank)
    requires Scanning(grid, start, goal, order, stack, visited, added, done, current)
    requires current in rank && rank[current] == level
    requires Seen(nbs, i, visited) && 0 <= i < |nbs| && nbs[i] == nb
    requires nb !in visited && grid.IsStep(current, nb)
    ensures Progress(grid, cfg, DFS, start, goal, cameFrom[nb := Some(current)], order,
                     trace + Gated(cfg, [FrontierAdd(nb)]), body + [FrontierAdd(nb)], added + [nb],
                     rank[nb := level + 1])
    ensures Scanning(grid, start, goal, order, stack + [nb], visited + {nb}, added + [nb], done, current)
    ensures current in rank[nb := level + 1] && rank[nb := level + 1][current] == level
    ensures Seen(nbs, i + 1, visited + {nb})
  {
    assert current in order;
    ProgressAdd(grid, cfg, DFS, start, goal, cameFrom, order, trace, body, added, rank, current, nb, level + 1);
    ScanningAdd(grid, start, goal, order, stack, visited, added, done, current, nbs, i, nb);
  }

  /**
   * What a scan pushes: on top of the old stack, the steps out of current that were not
   * discovered before, in the order +x, -x, +y, -y.
   */
  lemma PushedOnTop(grid: Board, current: Pos, stack0: seq<Pos>, visited0: set<Pos>, stack: seq<Pos>)
    requires grid.Valid() && stack == stack0 + Unvisited(grid.Neighbors(current), visited0)
    ensures |stack0| <= |stack| && stack[..|stack0|] == stack0
    ensures stack[|stack0|..] == Unvisited(grid.Neighbors(current), visited0)
    ensures InDirectionOrder(current, stack[|stack0|..])
    ensures forall i :: |stack0| <= i < |stack| ==> stack[i] !in visited0 && grid.IsStep(current, stack[i])
  {
    var news := Unvisited(grid.Neighbors(current), visited0);
    assert stack[|stack0|..] == news;
    UnvisitedOrder(current, grid.Neighbors(current), visited0);
    forall i | |stack0| <= i < |stack| ensures stack[i] !in visited0 && grid.IsStep(current, stack[i]) {
      assert stack[i] == news[i - |stack0|];
    }
  }

  /** Once every step out of current was scanned, current joins the expanded set. */
  lemma ScanningDone(grid: Board, start: Pos, goal: Pos, order: seq<Pos>, stack: seq<Pos>, visited: set<Pos>,
                     added: seq<Pos>, done: set<Pos>, current: Pos, nbs: seq<Pos>)
    requires grid.Valid()
    requires Scanning(grid, start, goal, order, stack, visited, added, done, current)
    requires Seen(nbs, |nbs|, visited)
    requires forall n :: grid.IsStep(current, n) ==> n in nbs
    ensures Pending(grid, start, goal, order, stack, visited, added, done + {current})
  {
  }

  /** An empty stack means the expanded set is closed under steps, so goal is out of reach. */
  lemma StackExhausted(grid: Board, start: Pos, goal: Pos, order: seq<Pos>, visited: set<Pos>,
                       added: seq<Pos>, done: set<Pos>)
    requires grid.Valid() && Pending(grid, start, goal, order, [], visited, added, done)
    requires Distinct(order) && |order| > 0
    ensures order[0] == start
    ensures !grid.Reachable(start, goal)
  {
    var e := Elements(order);
    forall p | p in e ensures p in visited {
      var i :| 0 <= i < |order| && order[i] == p;
    }
    DistinctElements(order);
    if p :| p in visited && p !in e {
      SubsetSize(e + {p}, visited);
    }
    forall p | p in visited ensures p in done {
      assert p in e;
    }
    assert order[0] in done;
    ClosedUnreachable(grid, done, start, goal);
  }


  /** When the loop begins: start alone is on the stack, and nothing is expanded. */
  lemma PendingInit(grid: Board, start: Pos, goal: Pos)
    requires grid.Valid() && start != goal
    ensures Pending(grid, start, goal, [], [start], {start}, [start], {})
  {
    assert Stacked(grid, start, [], [start], {start}, [start], {});
  }

  /**
   * The body of the for-loop of dfs.run for nbs[i], the i-th neighbour of current: mark it
   * visited, link it, push it and report it unless it was discovered before.
   */
  method Discover(grid: Grid, cfg: AlgorithmConfig, start: Pos, goal: Pos, order: seq<Pos>, current: Pos,
                  nbs: seq<Pos>, i: int, ghost stack0: seq<Pos>, ghost visited0: set<Pos>,
                  ghost cameFrom0: map<Pos, Option<Pos>>, ghost body0: seq<TraceEvent>,
                  cameFrom1: map<Pos, Option<Pos>>, trace1: seq<TraceEvent>, stack1: seq<Pos>, visited1: set<Pos>,
                  ghost body1: seq<TraceEvent>, ghost added1: seq<Pos>, ghost rank1: map<Pos, nat>,
                  ghost done: set<Pos>, ghost level: nat)
    returns (cameFrom: map<Pos, Option<Pos>>, trace: seq<TraceEvent>, stack: seq<Pos>, visited: set<Pos>,
             ghost body: seq<TraceEvent>, ghost added: seq<Pos>, ghost rank: map<Pos, nat>)
    requires grid.View().Valid() && 0 <= i < |nbs| && Distinct(nbs) && grid.View().IsStep(current, nbs[i])
    requires Progress(grid.View(), cfg, DFS, start, goal, cameFrom1, order, trace1, body1, added1, rank1)
    requires current in rank1 && rank1[current] == level
    requires Scanning(grid.View(), start, goal, order, stack1, visited1, added1, done, current)
    requires Seen(nbs, i, visited1)
    requires Enqueued(nbs[..i], current, stack0, visited0, cameFrom0, body0, stack1, visited1, cameFrom1, body1)
    requires |visited1| - |visited0| == |stack1| - |stack0|
    ensures Progress(grid.View(), cfg, DFS, start, goal, cameFrom, order, trace, body, added, rank)
    ensures current in rank && rank[current] == level
    ensures Scanning(grid.View(), start, goal, order, stack, visited, added, done, current)
    ensures Seen(nbs, i + 1, visited)
    ensures Enqueued(nbs[..i + 1], current, stack0, visited0, cameFrom0, body0, stack, visited, cameFrom, body)
    ensures |visited| - |visited0| == |stack| - |stack0|
  {
    cameFrom, trace, stack, visited := cameFrom1, trace1, stack1, visited1;
    body, added, rank := body1, added1, rank1;
    var nb := nbs[i];
    EnqueuedNext(nbs, i, current, stack0, visited0, cameFrom0, body0, stack, visited, cameFrom, body);
    if nb in visited {
      return;
    }
    ScanStep(grid.View(), cfg, start, goal, cameFrom, order, trace, body, added, rank, stack, visited, done,
             current, level, nbs, i, nb);
    visited := visited + {nb};
    cameFrom := cameFrom[nb := Some(current)];
    stack := stack + [nb];
    trace := trace + Gated(cfg, [FrontierAdd(nb)]);
    body := body + [FrontierAdd(nb)];
    rank := rank[nb := level + 1];
    added := added + [nb];
  }

  /**
   * The for-loop of dfs.run over the neighbours of current: each one not discovered before is
   * marked visited, linked to current, pushed and reported with frontier_add. The stack only
   * grows, by the steps out of current not discovered before, in the order +x, -x, +y, -y, so
   * that the last of them is popped next.
   */
  method Scan(grid: Grid, cfg: AlgorithmConfig, start: Pos, goal: Pos, current: Pos, order: seq<Pos>,
              cameFrom0: map<Pos, Option<Pos>>, trace0: seq<TraceEvent>, stack0: seq<Pos>, visited0: set<Pos>,
              ghost body0: seq<TraceEvent>, ghost added0: seq<Pos>, ghost rank0: map<Pos, nat>,
              ghost done: set<Pos>)
    returns (cameFrom: map<Pos, Option<Pos>>, trace: seq<TraceEvent>, stack: seq<Pos>, visited: set<Pos>,
             ghost body: seq<TraceEvent>, ghost added: seq<Pos>, ghost rank: map<Pos, nat>)
    requires grid.View().Valid()
    requires Progress(grid.View(), cfg, DFS, start, goal, cameFrom0, order, trace0, body0, added0, rank0)
    requires Scanning(grid.View(), start, goal, order, stack0, visited0, added0, done, current)
    ensures Progress(grid.View(), cfg, DFS, start, goal, cameFrom, order, trace, body, added, rank)
    ensures Pending(grid.View(), start, goal, order, stack, visited, added, done + {current})
    ensures Enqueued(grid.View().Neighbors(current), current, stack0, visited0, cameFrom0, body0, stack, visited,
                     cameFrom, body)
    ensures |stack0| <= |stack| && stack[..|stack0|] == stack0
    ensures InDirectionOrder(current, stack[|stack0|..])
    ensures forall i :: |stack0| <= i < |stack| ==> stack[i] !in visited0 && grid.View().IsStep(current, stack[i])
    ensures |visited| - |visited0| == |stack| - |stack0|
  {
    ghost var board := grid.View();
    cameFrom, trace, stack, visited := cameFrom0, trace0, stack0, visited0;
    body, added, rank := body0, added0, rank0;
    var nbs := Neighbors4(grid, current);
    LastRanked(board, cfg, start, goal, cameFrom, order, trace, body, added, rank);
    ghost var level := rank[current];
    EnqueuedNone(current, stack0, visited0, cameFrom0, body0);
    assert nbs[..0] == [];
    for i := 0 to |nbs|
      invariant Progress(board, cfg, DFS, start, goal, cameFrom, order, trace, body, added, rank)
      invariant current in rank && rank[current] == level
      invariant Scanning(board, start, goal, order, stack, visited, added, done, current)
      invariant Seen(nbs, i, visited)
      invariant Enqueued(nbs[..i], current, stack0, visited0, cameFrom0, body0, stack, visited, cameFrom, body)
      invariant |visited| - |visited0| == |stack| - |stack0|
    {
      cameFrom, trace, stack, visited, body, added, rank :=
        Discover(grid, cfg, start, goal, order, current, nbs, i, stack0, visited0, cameFrom0, body0,
                 cameFrom, trace, stack, visited, body, added, rank, done, level);
    }
    assert nbs[..|nbs|] == nbs;
    ScanningDone(board, start, goal, order, stack, visited, added, done, current, nbs);
    PushedOnTop(board, current, stack0, visited0, stack);
  }

  /**
   * A turn of the while-loop of dfs.run whose popped cell, current, is not goal: scan its
   * neighbours. The turn is a Step of the reference from the state s before the pop.
   */
  method Expand(grid: Grid, cfg: AlgorithmConfig, start: Pos, goal: Pos, current: Pos, order: seq<Pos>,
                cameFrom0: map<Pos, Option<Pos>>, trace0: seq<TraceEvent>, stack0: seq<Pos>, visited0: set<Pos>,
                ghost body0: seq<TraceEvent>, ghost added0: seq<Pos>, ghost rank0: map<Pos, nat>,
                ghost done: set<Pos>, ghost s: Sweep, ghost bodyBefore: seq<TraceEvent>)
    returns (cameFrom: map<Pos, Option<Pos>>, trace: seq<TraceEvent>, stack: seq<Pos>, visited: set<Pos>,
             ghost body: seq<TraceEvent>, ghost added: seq<Pos>, ghost rank: map<Pos, nat>,
             ghost scans: seq<seq<Pos>>)
    requires grid.View().Valid()
    requires Progress(grid.View(), cfg, DFS, start, goal, cameFrom0, order, trace0, body0, added0, rank0)
    requires Scanning(grid.View(), start, goal, order, stack0, visited0, added0, done, current)
    requires Turns(grid.View(), Lifo, start, goal, s, bodyBefore) && !s.found && s.frontier != []
    requires Top(Lifo, s.frontier) == current
    requires stack0 == Rest(Lifo, s.frontier) && visited0 == s.visited && cameFrom0 == s.cameFrom
    requires order == s.order + [current] && body0 == bodyBefore + [FrontierPop(current), Visit(current)]
    ensures Progress(grid.View(), cfg, DFS, start, goal, cameFrom, order, trace, body, added, rank)
    ensures Pending(grid.View(), start, goal, order, stack, visited, added, done + {current})
    ensures Turns(grid.View(), Lifo, start, goal, Sweep(stack, visited, cameFrom, order, scans, false), body)
    ensures |visited| <= grid.width * grid.height + 1
    ensures |visited| - |stack| == |visited0| - |stack0| && |stack0| <= |stack|
  {
    ghost var board := grid.View();
    cameFrom, trace, stack, visited, body, added, rank :=
      Scan(grid, cfg, start, goal, current, order, cameFrom0, trace0, stack0, visited0, body0, added0, rank0, done);
    TurnsScanned(board, Lifo, start, goal, s, bodyBefore, stack, visited, cameFrom, body);
    scans := s.scans + [Unvisited(board.Neighbors(current), visited0)];
    DiscoveredBound(board, start, visited);
  }

  /**
   * One turn of the while-loop of dfs.run: pop the top of the stack, record and report it, then
   * stop at goal or scan its neighbours. The turn is a Step of the reference.
   */
  method Turn(grid: Grid, cfg: AlgorithmConfig, start: Pos, goal: Pos, stack0: seq<Pos>, visited0: set<Pos>,
              cameFrom0: map<Pos, Option<Pos>>, trace0: seq<TraceEvent>, order0: seq<Pos>,
              ghost body0: seq<TraceEvent>, ghost added0: seq<Pos>, ghost rank0: map<Pos, nat>,
              ghost done0: set<Pos>, ghost scans0: seq<seq<Pos>>)
    returns (found: bool, stack: seq<Pos>, visited: set<Pos>, cameFrom: map<Pos, Option<Pos>>,
             trace: seq<TraceEvent>, order: seq<Pos>, ghost logged: seq<TraceEvent>, ghost body: seq<TraceEvent>,
             ghost added: seq<Pos>, ghost rank: map<Pos, nat>, ghost done: set<Pos>, ghost scans: seq<seq<Pos>>)
    requires grid.View().Valid() && stack0 != []
    requires Progress(grid.View(), cfg, DFS, start, goal, cameFrom0, order0, trace0, body0, added0, rank0)
    requires Pending(grid.View(), start, goal, order0, stack0, visited0, added0, done0)
    requires Turns(grid.View(), Lifo, start, goal, Sweep(stack0, visited0, cameFrom0, order0, scans0, false), body0)
    ensures Progress(grid.View(), cfg, DFS, start, goal, cameFrom, order, logged, body, added, rank)
    ensures Turns(grid.View(), Lifo, start, goal, Sweep(stack, visited, cameFrom, order, scans, found), body)
    ensures |order| == |order0| + 1 && order[..|order0|] == order0 && order[|order0|] == stack0[|stack0| - 1]
    ensures order[0] == start
    ensures found <==> stack0[|stack0| - 1] == goal
    ensures found ==> |body| > 0 && body[|body| - 1] == Visit(goal) && |visited| == |added|
    ensures found ==> trace == logged + Gated(cfg, [GoalFound(goal)])
    ensures !found ==> Pending(grid.View(), start, goal, order, stack, visited, added, done)
    ensures !found ==> trace == logged && |visited| <= grid.width * grid.height + 1
    ensures !found ==> |visited| - |stack| == |visited0| - |stack0| + 1 && |visited0| <= |visited|
  {
    ghost var board := grid.View();
    ghost var s := Sweep(stack0, visited0, cameFrom0, order0, scans0, false);
    var current := stack0[|stack0| - 1];
    PopStep(board, cfg, start, goal, cameFrom0, order0, trace0, body0, added0, rank0, stack0, visited0, done0);
    stack, visited, cameFrom := stack0[..|stack0| - 1], visited0, cameFrom0;
    trace := trace0 + Gated(cfg, [FrontierPop(current)]);
    order := order0 + [current];
    trace := trace + Gated(cfg, [Visit(current)]);
    body, added, rank, done := body0 + [FrontierPop(current), Visit(current)], added0, rank0, done0;
    logged := trace;

    if current == goal {
      found := true;
      trace := trace + Gated(cfg, [GoalFound(goal)]);
      TurnsFound(board, Lifo, start, goal, s, body0);
      scans := scans0 + [[]];
      return;
    }

    found := false;
    cameFrom, trace, stack, visited, body, added, rank, scans :=
      Expand(grid, cfg, start, goal, current, order, cameFrom, trace, stack, visited, body, added, rank, done,
             s, body0);
    done := done + {current};
    logged := trace;
  }

  /**
   * The while-loop of dfs.run, from the first frontier_add on: take turns until goal is popped
   * or the stack is empty. It works on the fields of the result as values, which dfs.run stores
   * back.
   */
  method Explore(grid: Grid, cfg: AlgorithmConfig, start: Pos, goal: Pos, cameFrom0: map<Pos, Option<Pos>>,
                 trace0: seq<TraceEvent>)
    returns (found: bool, expanded: int, order: seq<Pos>, cameFrom: map<Pos, Option<Pos>>,
             trace: seq<TraceEvent>, visited: set<Pos>,
             ghost logged: seq<TraceEvent>, ghost body: seq<TraceEvent>, ghost added: seq<Pos>,
             ghost rank: map<Pos, nat>, ghost scans: seq<seq<Pos>>)
    requires grid.View().Valid() && start != goal
    requires cameFrom0 == map[start := None] && trace0 == Gated(cfg, [Init(DFS, start, goal)])
    ensures Summarize(Ended(grid.View(), Lifo, start, goal)) == Summary(found, order, cameFrom, scans)
    ensures |scans| == |order| && body == Body(start, order, scans)
    ensures Progress(grid.View(), cfg, DFS, start, goal, cameFrom, order, logged, body, added, rank)
    ensures expanded == |order| && |order| > 0 && order[0] == start
    ensures |visited| == |added| && (found <==> goal in order)
    ensures found ==> order[|order| - 1] == goal && |body| > 0 && body[|body| - 1] == Visit(goal)
    ensures found ==> trace == logged + Gated(cfg, [GoalFound(goal)])
    ensures !found ==> trace == logged && !grid.View().Reachable(start, goal)
  {
    ghost var board := grid.View();
    var stack := [start];
    cameFrom, trace := cameFrom0, trace0 + Gated(cfg, [FrontierAdd(start)]);
    visited := {start};
    found, expanded, order := false, 0, [];

    // The events after init, the cells in the order they were pushed, their depth in the
    // search tree, the cells already expanded, and the bound on discovered cells.
    body, added, rank := [FrontierAdd(start)], [start], map[start := 0];
    ghost var done: set<Pos> := {};
    ghost var room := grid.width * grid.height + 1;
    logged := trace;
    ProgressInit(board, cfg, DFS, start, goal);
    PendingInit(board, start, goal);
    scans := [];
    TurnsBegin(board, Lifo, start, goal);

    while stack != []
      invariant !found && expanded == |order|
      invariant Progress(board, cfg, DFS, start, goal, cameFrom, order, trace, body, added, rank)
      invariant Pending(board, start, goal, order, stack, visited, added, done)
      invariant logged == trace
      invariant |visited| <= room
      invariant Turns(board, Lifo, start, goal, Sweep(stack, visited, cameFrom, order, scans, false), body)
      decreases room - |visited|, |stack|
    {
      found, stack, visited, cameFrom, trace, order, logged, body, added, rank, done, scans :=
        Turn(grid, cfg, start, goal, stack, visited, cameFrom, trace, order, body, added, rank, done, scans);
      expanded := expanded + 1;
      if found {
        break;
      }
    }
    TurnsEnded(board, Lifo, start, goal, Sweep(stack, visited, cameFrom, order, scans, found), body);
    if !found {
      StackExhausted(board, start, goal, order, visited, added, done);
    }
  }

  /** dfs.run after its init event, on values: explore, then the common ending. */
  method Search(grid: Grid, cfg: AlgorithmConfig, start: Pos, goal: Pos, cameFrom0: map<Pos, Option<Pos>>,
                trace0: seq<TraceEvent>)
    returns (found: bool, path: seq<Pos>, order: seq<Pos>, cameFrom: map<Pos, Option<Pos>>,
             trace: seq<TraceEvent>, stats: SearchStats)
    requires grid.View().Valid() && start != goal
    requires cameFrom0 == map[start := None] && trace0 == Gated(cfg, [Init(DFS, start, goal)])
    ensures Outcome(grid.View(), cfg, DFS, start, goal, found, path, order, cameFrom, trace, stats)
    ensures Reproduces(cfg, DFS, start, goal, Summarize(Ended(grid.View(), Lifo, start, goal)),
                       found, path, order, cameFrom, trace, stats)
  {
    var expanded, explored, visited;
    ghost var logged, body, added, rank, scans;
    found, expanded, order, cameFrom, explored, visited, logged, body, added, rank, scans :=
      Explore(grid, cfg, start, goal, cameFrom0, trace0);
    path, trace, stats :=
      Conclude(grid.View(), cfg, DFS, start, goal, found, expanded, order, cameFrom, explored, |visited|,
               logged, body, added, rank);
  }

  /** dfs.run. */
  method Run(grid: Grid, start: Pos, goal: Pos, cfg: AlgorithmConfig) returns (res: SearchResult)
    requires grid.View().Valid()
    ensures fresh(res)
    ensures start == goal ==> TrivialOutcome(res, cfg, DFS, start)
    ensures start != goal ==> SearchOutcome(grid.View(), res, cfg, DFS, start, goal)
    ensures start != goal ==> Recorded(res, cfg, DFS, start, goal, Summarize(Ended(grid.View(), Lifo, start, goal)))
  {
    res := NewResult(start, goal);
    Emit(res, cfg, Init(DFS, start, goal));
    if start == goal {
      res.found := true;
      res.path := [start];
      res.stats := res.stats.(pathLength := 1);
      Emit(res, cfg, GoalFound(goal));
      Emit(res, cfg, PathEvent(res.path));
      Emit(res, cfg, Done(true));
      return;
    }
    ghost var board := grid.View();
    var found, path, order, cameFrom, trace, stats := Search(grid, cfg, start, goal, res.cameFrom, res.trace);
    Store(board, res, cfg, DFS, start, goal, Summarize(Ended(board, Lifo, start, goal)), found, path, order,
          cameFrom, trace, stats);
  }
}
