/** Breadth-first search over the grid: a FIFO frontier, each cell discovered at most once. */
module Bfs {
  import opened Sequences
  import opened Grids
  import opened Results
  import opened Common
  import opened SearchFacts
  import opened Frontiers

  /**
   * Where the discovered cells stand: `added` lists them in discovery order (as a set,
   * `visited`; they are also the keys of `depth`), the first |order| of them are expanded and
   * the queue holds the rest, in order.
   */
  ghost predicate Layout(grid: Board, start: Pos, order: seq<Pos>, q: seq<Pos>, visited: set<Pos>,
                         added: seq<Pos>, depth: map<Pos, nat>)
  {
    && |added| == |order| + |q|
    && (forall i :: 0 <= i < |order| ==> order[i] == added[i])
    && (forall i :: 0 <= i < |q| ==> q[i] == added[|order| + i])
    && |visited| == |added| && (forall p :: p in visited <==> p in added)
    && (forall p :: p in visited ==> p == start || grid.InBounds(p))
    && (forall p :: p in depth <==> p in added)
  }

  /**
   * The BFS levels along the discovery order: the first k cells (the expanded ones) lie at most
   * at `level`, the cells from k up to `cut` exactly at `level`, and the rest at `level` + 1.
   */
  ghost predicate Levels(added: seq<Pos>, depth: map<Pos, nat>, k: int, cut: int, level: nat) {
    && 0 <= k <= cut <= |added|
    && forall i :: 0 <= i < |added| ==>
         && added[i] in depth
         && (i < k ==> depth[added[i]] <= level)
         && (k <= i < cut ==> depth[added[i]] == level)
         && (cut <= i ==> depth[added[i]] == level + 1)
  }

  /** The level and cut once the head of the queue, at index k of `n` discovered cells, is expanded. */
  function NextLevel(k: int, n: int, level: nat, cut: int): (nat, int) {
    if k < cut then (level, cut) else (level + 1, n)
  }

  /**
   * The queue between iterations: the expanded cells are `done`, every step out of them is
   * relaxed, goal is not among them, and the queue runs through one level and then the next.
   */
  ghost predicate Queued(grid: Board, start: Pos, goal: Pos, order: seq<Pos>, q: seq<Pos>, visited: set<Pos>,
                         added: seq<Pos>, depth: map<Pos, nat>, done: set<Pos>, level: nat, cut: int)
    requires grid.Valid()
  {
    && Layout(grid, start, order, q, visited, added, depth)
    && (forall p :: p in done <==> p in order)
    && Relaxed(grid, done, depth)
    && goal !in done
    && Levels(added, depth, |order|, cut, level)
  }

  /** The queue while the neighbours of `current`, the cell expanded last, at depth `level`, are scanned. */
  ghost predicate Scanning(grid: Board, start: Pos, goal: Pos, order: seq<Pos>, q: seq<Pos>, visited: set<Pos>,
                           added: seq<Pos>, depth: map<Pos, nat>, done: set<Pos>, current: Pos,
                           level: nat, cut: int)
    requires grid.Valid()
  {
    && |order| > 0 && current == order[|order| - 1] && current != goal
    && Layout(grid, start, order, q, visited, added, depth)
    && current in depth && depth[current] == level
    && (forall p :: p in done <==> p in order && p != current)
    && Relaxed(grid, done, depth)
    && goal !in done
    && Levels(added, depth, |order|, cut, level)
  }

  /** The first i neighbours are discovered, at most one level below `level`. */
  ghost predicate Seen(nbs: seq<Pos>, i: int, depth: map<Pos, nat>, level: nat) {
    forall j :: 0 <= j < i && j < |nbs| ==> nbs[j] in depth && depth[nbs[j]] <= level + 1
  }

  lemma LayoutAdd(grid: Board, start: Pos, order: seq<Pos>, q: seq<Pos>, visited: set<Pos>,
                  added: seq<Pos>, depth: map<Pos, nat>, nb: Pos, v: nat)
    requires Layout(grid, start, order, q, visited, added, depth)
    requires nb !in visited && grid.InBounds(nb)
    ensures Layout(grid, start, order, q + [nb], visited + {nb}, added + [nb], depth[nb := v])
  {
    var a, q' := added + [nb], q + [nb];
    forall i | 0 <= i < |order| ensures order[i] == a[i] {
    }
    forall i | 0 <= i < |q'| ensures q'[i] == a[|order| + i] {
      if i < |q| {
        assert q'[i] == q[i];
      }
    }
  }

  lemma LevelsAdd(added: seq<Pos>, depth: map<Pos, nat>, k: int, cut: int, level: nat, nb: Pos)
    requires Levels(added, depth, k, cut, level) && nb !in added
    ensures Levels(added + [nb], depth[nb := level + 1], k, cut, level)
  {
    var a, d := added + [nb], depth[nb := level + 1];
    forall i | 0 <= i < |a|
      ensures a[i] in d && (i < k ==> d[a[i]] <= level) && (k <= i < cut ==> d[a[i]] == level)
      ensures cut <= i ==> d[a[i]] == level + 1
    {
      if i < |added| {
        assert a[i] == added[i] != nb;
      }
    }
  }

  /** Expanding the head of the queue moves it into the expanded prefix, at the level NextLevel gives. */
  lemma LevelsPop(added: seq<Pos>, depth: map<Pos, nat>, k: int, cut: int, level: nat, level': nat, cut': int)
    requires Levels(added, depth, k, cut, level) && k < |added|
    requires NextLevel(k, |added|, level, cut) == (level', cut')
    ensures added[k] in depth && depth[added[k]] == level'
    ensures Levels(added, depth, k + 1, cut', level')
  {
  }

  lemma RelaxedFresh(grid: Board, s: set<Pos>, depth: map<Pos, nat>, nb: Pos, v: nat)
    requires grid.Valid() && Relaxed(grid, s, depth) && nb !in depth
    ensures Relaxed(grid, s, depth[nb := v])
  {
  }

  /** The head of the queue is discovered and not yet expanded. */
  lemma QueuedFront(grid: Board, start: Pos, goal: Pos, order: seq<Pos>, q: seq<Pos>, visited: set<Pos>,
                    added: seq<Pos>, depth: map<Pos, nat>, done: set<Pos>, level: nat, cut: int)
    requires grid.Valid() && Queued(grid, start, goal, order, q, visited, added, depth, done, level, cut)
    requires Distinct(added) && q != []
    ensures q[0] in added && q[0] !in order
    ensures Layout(grid, start, order + [q[0]], q[1..], visited, added, depth)
  {
    var k := |order|;
    assert q[0] == added[k + 0];
    forall j | 0 <= j < k ensures order[j] != q[0] {
      assert order[j] == added[j];
      DistinctAt(added, j, k);
    }
    var o, r := order + [q[0]], q[1..];
    forall i | 0 <= i < |o| ensures o[i] == added[i] {
      if i < k {
        assert o[i] == order[i];
      }
    }
    forall i | 0 <= i < |r| ensures r[i] == added[|o| + i] {
      assert r[i] == q[i + 1];
    }
  }

  /** Expanding a queue head other than goal starts the scan of its neighbours. */
  lemma QueuedPop(grid: Board, start: Pos, goal: Pos, order: seq<Pos>, q: seq<Pos>, visited: set<Pos>,
                  added: seq<Pos>, depth: map<Pos, nat>, done: set<Pos>, level: nat, cut: int,
                  level': nat, cut': int)
    requires grid.Valid() && Queued(grid, start, goal, order, q, visited, added, depth, done, level, cut)
    requires Distinct(added) && q != [] && q[0] != goal
    requires NextLevel(|order|, |added|, level, cut) == (level', cut')
    ensures Scanning(grid, start, goal, order + [q[0]], q[1..], visited, added, depth, done, q[0], level', cut')
  {
    QueuedFront(grid, start, goal, order, q, visited, added, depth, done, level, cut);
    assert q[0] == added[|order| + 0];
    LevelsPop(added, depth, |order|, cut, level, level', cut');
  }

  /**
   * When goal heads the queue, no walk from start reaches it in fewer than depth[goal] moves:
   * every unexpanded discovered cell is at least as deep, and the heuristic bounds the rest.
   */
  lemma QueuedGoal(grid: Board, start: Pos, goal: Pos, order: seq<Pos>, q: seq<Pos>, visited: set<Pos>,
                   added: seq<Pos>, depth: map<Pos, nat>, done: set<Pos>, level: nat, cut: int)
    requires grid.Valid() && Queued(grid, start, goal, order, q, visited, added, depth, done, level, cut)
    requires q != [] && q[0] == goal && start in depth && depth[start] == 0
    ensures goal in depth && grid.NoShorterWalk(start, goal, depth[goal])
  {
    var k := |order|;
    assert goal == added[k + 0];
    forall j | 0 <= j < k ensures added[j] in done {
      assert added[j] == order[j];
    }
    forall v | v in depth && v !in done ensures depth[goal] <= depth[v] + Manhattan(v, goal) {
      var j :| 0 <= j < |added| && added[j] == v;
    }
    WalkLowerBound(grid, done, depth, start, goal, depth[goal]);
  }

  /** Discovering nb, the i-th neighbour, one level below current. */
  lemma ScanningAdd(grid: Board, start: Pos, goal: Pos, order: seq<Pos>, q: seq<Pos>, visited: set<Pos>,
                    added: seq<Pos>, depth: map<Pos, nat>, done: set<Pos>, current: Pos,
                    level: nat, cut: int, nbs: seq<Pos>, i: int, nb: Pos)
    requires grid.Valid()
    requires Scanning(grid, start, goal, order, q, visited, added, depth, done, current, level, cut)
    requires Seen(nbs, i, depth, level) && 0 <= i < |nbs| && nbs[i] == nb
    requires nb !in visited && grid.IsStep(current, nb)
    ensures Scanning(grid, start, goal, order, q + [nb], visited + {nb}, added + [nb],
                     depth[nb := level + 1], done, current, level, cut)
    ensures Seen(nbs, i + 1, depth[nb := level + 1], level)
  {
    LayoutAdd(grid, start, order, q, visited, added, depth, nb, level + 1);
    LevelsAdd(added, depth, |order|, cut, level, nb);
    RelaxedFresh(grid, done, depth, nb, level + 1);
  }

  /** One discovery of the scan: the shared search state and the queue both take in nb. */
  lemma ScanStep(grid: Board, cfg: AlgorithmConfig, start: Pos, goal: Pos, cameFrom: map<Pos, Option<Pos>>,
                 order: seq<Pos>, trace: seq<TraceEvent>, body: seq<TraceEvent>, added: seq<Pos>,
                 depth: map<Pos, nat>, q: seq<Pos>, visited: set<Pos>, done: set<Pos>, current: Pos,
                 level: nat, cut: int, nbs: seq<Pos>, i: int, nb: Pos)
    requires grid.Valid()
    requires Progress(grid, cfg, BFS, start, goal, cameFrom, order, trace, body, added, depth)
    requires Scanning(grid, start, goal, order, q, visited, added, depth, done, current, level, cut)
    requires Seen(nbs, i, depth, level) && 0 <= i < |nbs| && nbs[i] == nb
    requires nb !in visited && grid.IsStep(current, nb)
    ensures Progress(grid, cfg, BFS, start, goal, cameFrom[nb := Some(current)], order,
                     trace + Gated(cfg, [FrontierAdd(nb)]), body + [FrontierAdd(nb)], added + [nb],
                     depth[nb := level + 1])
    ensures Scanning(grid, start, goal, order, q + [nb], visited + {nb}, added + [nb],
                     depth[nb := level + 1], done, current, level, cut)
    ensures Seen(nbs, i + 1, depth[nb := level + 1], level)
  {
    ProgressAdd(grid, cfg, BFS, start, goal, cameFrom, order, trace, body, added, depth, current, nb, level + 1);
    ScanningAdd(grid, start, goal, order, q, visited, added, depth, done, current, level, cut, nbs, i, nb);
  }

  /** Skipping nb, the i-th neighbour, which was discovered before. */
  lemma ScanningSkip(grid: Board, start: Pos, goal: Pos, order: seq<Pos>, q: seq<Pos>, visited: set<Pos>,
                     added: seq<Pos>, depth: map<Pos, nat>, done: set<Pos>, current: Pos,
                     level: nat, cut: int, nbs: seq<Pos>, i: int, nb: Pos)
    requires grid.Valid()
    requires Scanning(grid, start, goal, order, q, visited, added, depth, done, current, level, cut)
    requires Seen(nbs, i, depth, level) && 0 <= i < |nbs| && nbs[i] == nb
    requires nb in visited
    ensures Seen(nbs, i + 1, depth, level)
  {
    var j :| 0 <= j < |added| && added[j] == nb;
  }

  /** Once every step out of current was scanned, current joins the expanded set. */
  lemma ScanningDone(grid: Board, start: Pos, goal: Pos, order: seq<Pos>, q: seq<Pos>, visited: set<Pos>,
                     added: seq<Pos>, depth: map<Pos, nat>, done: set<Pos>, current: Pos,
                     level: nat, cut: int, nbs: seq<Pos>)
    requires grid.Valid()
    requires Scanning(grid, start, goal, order, q, visited, added, depth, done, current, level, cut)
    requires Seen(nbs, |nbs|, depth, level)
    requires forall n :: grid.IsStep(current, n) ==> n in nbs
    ensures Queued(grid, start, goal, order, q, visited, added, depth, done + {current}, level, cut)
  {
  }

  /** When the loop begins: start alone is queued, at depth 0, and nothing is expanded. */
  lemma QueuedInit(grid: Board, start: Pos, goal: Pos)
    requires grid.Valid() && start != goal
    ensures Queued(grid, start, goal, [], [start], {start}, [start], map[start := 0], {}, 0, 1)
  {
    assert Layout(grid, start, [], [start], {start}, [start], map[start := 0]);
    assert Levels([start], map[start := 0], 0, 1, 0);
  }

  /** An empty queue means the expanded set is closed under steps, so goal is out of reach. */
  lemma QueuedExhausted(grid: Board, start: Pos, goal: Pos, order: seq<Pos>, visited: set<Pos>,
                        added: seq<Pos>, depth: map<Pos, nat>, done: set<Pos>, level: nat, cut: int)
    requires grid.Valid() && Queued(grid, start, goal, order, [], visited, added, depth, done, level, cut)
    requires |added| > 0 && added[0] == start
    ensures |order| > 0 && order[0] == start
    ensures !grid.Reachable(start, goal)
  {
    assert order[0] == added[0];
    forall p | p in added ensures p in done {
      var j :| 0 <= j < |added| && added[j] == p;
      assert order[j] == p;
    }
    ClosedUnreachable(grid, done, start, goal);
  }

  /**
   * Popping the head of the queue and reporting it keeps the bookkeeping; the popped cell is goal
   * at its shortest distance, or the cell whose neighbours are scanned next.
   */
  lemma PopStep(grid: Board, cfg: AlgorithmConfig, start: Pos, goal: Pos, cameFrom: map<Pos, Option<Pos>>,
                order: seq<Pos>, trace: seq<TraceEvent>, body: seq<TraceEvent>, added: seq<Pos>,
                depth: map<Pos, nat>, q: seq<Pos>, visited: set<Pos>, done: set<Pos>, level: nat, cut: int)
    requires grid.Valid() && q != []
    requires Progress(grid, cfg, BFS, start, goal, cameFrom, order, trace, body, added, depth)
    requires Queued(grid, start, goal, order, q, visited, added, depth, done, level, cut)
    ensures Progress(grid, cfg, BFS, start, goal, cameFrom, order + [q[0]],
                     trace + Gated(cfg, [FrontierPop(q[0])]) + Gated(cfg, [Visit(q[0])]),
                     body + [FrontierPop(q[0]), Visit(q[0])], added, depth)
    ensures q[0] == goal ==> goal in depth && grid.NoShorterWalk(start, goal, depth[goal])
    ensures q[0] != goal ==>
              Scanning(grid, start, goal, order + [q[0]], q[1..], visited, added, depth, done, q[0],
                       NextLevel(|order|, |added|, level, cut).0, NextLevel(|order|, |added|, level, cut).1)
  {
    QueuedFront(grid, start, goal, order, q, visited, added, depth, done, level, cut);
    ProgressPop(grid, cfg, BFS, start, goal, cameFrom, order, trace, body, added, depth, q[0]);
    if q[0] == goal {
      QueuedGoal(grid, start, goal, order, q, visited, added, depth, done, level, cut);
    } else {
      var next := NextLevel(|order|, |added|, level, cut);
      QueuedPop(grid, start, goal, order, q, visited, added, depth, done, level, cut, next.0, next.1);
    }
  }

  /** One neighbour of the scan, already discovered: nothing changes and the scan moves on. */
  lemma ScanSkip(grid: Board, start: Pos, goal: Pos, order: seq<Pos>, q0: seq<Pos>, visited0: set<Pos>,
                 cameFrom0: map<Pos, Option<Pos>>, body0: seq<TraceEvent>, q: seq<Pos>, visited: set<Pos>,
                 cameFrom: map<Pos, Option<Pos>>, body: seq<TraceEvent>, added: seq<Pos>,
                 depth: map<Pos, nat>, done: set<Pos>, current: Pos, level: nat, cut: int, nbs: seq<Pos>, i: int)
    requires grid.Valid() && 0 <= i < |nbs| && Distinct(nbs)
    requires Scanning(grid, start, goal, order, q, visited, added, depth, done, current, level, cut)
    requires Seen(nbs, i, depth, level)
    requires Enqueued(nbs[..i], current, q0, visited0, cameFrom0, body0, q, visited, cameFrom, body)
    requires nbs[i] in visited
    ensures Seen(nbs, i + 1, depth, level)
    ensures Enqueued(nbs[..i + 1], current, q0, visited0, cameFrom0, body0, q, visited, cameFrom, body)
  {
    EnqueuedNext(nbs, i, current, q0, visited0, cameFrom0, body0, q, visited, cameFrom, body);
    ScanningSkip(grid, start, goal, order, q, visited, added, depth, done, current, level, cut, nbs, i, nbs[i]);
  }

  /** One neighbour of the scan, not discovered before: it is enqueued, visited, linked and reported. */
  lemma ScanAdd(grid: Board, cfg: AlgorithmConfig, start: Pos, goal: Pos, order: seq<Pos>, q0: seq<Pos>,
                visited0: set<Pos>, cameFrom0: map<Pos, Option<Pos>>, body0: seq<TraceEvent>, q: seq<Pos>,
                visited: set<Pos>, cameFrom: map<Pos, Option<Pos>>, trace: seq<TraceEvent>, body: seq<TraceEvent>,
                added: seq<Pos>, depth: map<Pos, nat>, done: set<Pos>, current: Pos, level: nat, cut: int,
                nbs: seq<Pos>, i: int)
    requires grid.Valid() && 0 <= i < |nbs| && Distinct(nbs) && grid.IsStep(current, nbs[i])
    requires Progress(grid, cfg, BFS, start, goal, cameFrom, order, trace, body, added, depth)
    requires Scanning(grid, start, goal, order, q, visited, added, depth, done, current, level, cut)
    requires Seen(nbs, i, depth, level)
    requires Enqueued(nbs[..i], current, q0, visited0, cameFrom0, body0, q, visited, cameFrom, body)
    requires nbs[i] !in visited
    ensures Progress(grid, cfg, BFS, start, goal, cameFrom[nbs[i] := Some(current)], order,
                     trace + Gated(cfg, [FrontierAdd(nbs[i])]), body + [FrontierAdd(nbs[i])], added + [nbs[i]],
                     depth[nbs[i] := level + 1])
    ensures Scanning(grid, start, goal, order, q + [nbs[i]], visited + {nbs[i]}, added + [nbs[i]],
                     depth[nbs[i] := level + 1], done, current, level, cut)
    ensures Seen(nbs, i + 1, depth[nbs[i] := level + 1], level)
    ensures Enqueued(nbs[..i + 1], current, q0, visited0, cameFrom0, body0, q + [nbs[i]], visited + {nbs[i]},
                     cameFrom[nbs[i] := Some(current)], body + [FrontierAdd(nbs[i])])
  {
    EnqueuedNext(nbs, i, current, q0, visited0, cameFrom0, body0, q, visited, cameFrom, body);
    ScanStep(grid, cfg, start, goal, cameFrom, order, trace, body, added, depth, q, visited, done, current,
             level, cut, nbs, i, nbs[i]);
  }

  /**
   * The body of that for-loop for nbs[i], the i-th neighbour of current: mark it visited, link
   * it, enqueue it and report it unless it was discovered before.
   */
  method Discover(grid: Grid, cfg: AlgorithmConfig, start: Pos, goal: Pos, order: seq<Pos>, current: Pos,
                  nbs: seq<Pos>, i: int, ghost q0: seq<Pos>, ghost visited0: set<Pos>,
                  ghost cameFrom0: map<Pos, Option<Pos>>, ghost body0: seq<TraceEvent>,
                  cameFrom1: map<Pos, Option<Pos>>, trace1: seq<TraceEvent>, q1: seq<Pos>, visited1: set<Pos>,
                  ghost body1: seq<TraceEvent>, ghost added1: seq<Pos>, ghost depth1: map<Pos, nat>,
                  ghost done: set<Pos>, ghost level: nat, ghost cut: int)
    returns (cameFrom: map<Pos, Option<Pos>>, trace: seq<TraceEvent>, q: seq<Pos>, visited: set<Pos>,
             ghost body: seq<TraceEvent>, ghost added: seq<Pos>, ghost depth: map<Pos, nat>)
    requires grid.View().Valid() && 0 <= i < |nbs| && Distinct(nbs) && grid.View().IsStep(current, nbs[i])
    requires Progress(grid.View(), cfg, BFS, start, goal, cameFrom1, order, trace1, body1, added1, depth1)
    requires Scanning(grid.View(), start, goal, order, q1, visited1, added1, depth1, done, current, level, cut)
    requires Seen(nbs, i, depth1, level)
    requires Enqueued(nbs[..i], current, q0, visited0, cameFrom0, body0, q1, visited1, cameFrom1, body1)
    ensures Progress(grid.View(), cfg, BFS, start, goal, cameFrom, order, trace, body, added, depth)
    ensures Scanning(grid.View(), start, goal, order, q, visited, added, depth, done, current, level, cut)
    ensures Seen(nbs, i + 1, depth, level)
    ensures Enqueued(nbs[..i + 1], current, q0, visited0, cameFrom0, body0, q, visited, cameFrom, body)
  {
    cameFrom, trace, q, visited := cameFrom1, trace1, q1, visited1;
    body, added, depth := body1, added1, depth1;
    var nb := nbs[i];
    if nb in visited {
      ScanSkip(grid.View(), start, goal, order, q0, visited0, cameFrom0, body0, q, visited, cameFrom, body,
               added, depth, done, current, level, cut, nbs, i);
      return;
    }
    ScanAdd(grid.View(), cfg, start, goal, order, q0, visited0, cameFrom0, body0, q, visited, cameFrom, trace,
            body, added, depth, done, current, level, cut, nbs, i);
    visited := visited + {nb};
    cameFrom := cameFrom[nb := Some(current)];
    q := q + [nb];
    trace := trace + Gated(cfg, [FrontierAdd(nb)]);
    body := body + [FrontierAdd(nb)];
    depth := depth[nb := level + 1];
    added := added + [nb];
  }

  /**
   * The for-loop of bfs.run over the neighbours of current: each one not discovered before is
   * marked visited, linked to current, enqueued and reported with frontier_add. It works on the
   * predecessor map and the trace of the result as values, which bfs.run stores back.
   */
  method Scan(grid: Grid, cfg: AlgorithmConfig, start: Pos, goal: Pos, current: Pos, order: seq<Pos>,
              cameFrom0: map<Pos, Option<Pos>>, trace0: seq<TraceEvent>, q0: seq<Pos>, visited0: set<Pos>,
              ghost body0: seq<TraceEvent>, ghost added0: seq<Pos>, ghost depth0: map<Pos, nat>,
              ghost done: set<Pos>, ghost level: nat, ghost cut: int)
    returns (cameFrom: map<Pos, Option<Pos>>, trace: seq<TraceEvent>, q: seq<Pos>, visited: set<Pos>,
             ghost body: seq<TraceEvent>, ghost added: seq<Pos>, ghost depth: map<Pos, nat>)
    requires grid.View().Valid()
    requires Progress(grid.View(), cfg, BFS, start, goal, cameFrom0, order, trace0, body0, added0, depth0)
    requires Scanning(grid.View(), start, goal, order, q0, visited0, added0, depth0, done, current, level, cut)
    ensures Progress(grid.View(), cfg, BFS, start, goal, cameFrom, order, trace, body, added, depth)
    ensures Queued(grid.View(), start, goal, order, q, visited, added, depth, done + {current}, level, cut)
    ensures |q0| <= |q|
    ensures Enqueued(grid.View().Neighbors(current), current, q0, visited0, cameFrom0, body0, q, visited, cameFrom, body)
  {
    cameFrom, trace, q, visited := cameFrom0, trace0, q0, visited0;
    body, added, depth := body0, added0, depth0;
    ghost var board := grid.View();
    var nbs := Neighbors4(grid, current);
    EnqueuedNone(current, q0, visited0, cameFrom0, body0);
    assert nbs[..0] == [];
    for i := 0 to |nbs|
      invariant Progress(board, cfg, BFS, start, goal, cameFrom, order, trace, body, added, depth)
      invariant Scanning(board, start, goal, order, q, visited, added, depth, done, current, level, cut)
      invariant Seen(nbs, i, depth, level)
      invariant Enqueued(nbs[..i], current, q0, visited0, cameFrom0, body0, q, visited, cameFrom, body)
    {
      cameFrom, trace, q, visited, body, added, depth :=
        Discover(grid, cfg, start, goal, order, current, nbs, i, q0, visited0, cameFrom0, body0,
                 cameFrom, trace, q, visited, body, added, depth, done, level, cut);
    }
    assert nbs[..|nbs|] == nbs;
    ScanningDone(board, start, goal, order, q, visited, added, depth, done, current, level, cut, nbs);
  }

  /**
   * A turn of the while-loop of bfs.run whose popped cell, current, is not goal: scan its
   * neighbours. The turn is a Step of the reference from the state s before the pop.
   */
  method Expand(grid: Grid, cfg: AlgorithmConfig, start: Pos, goal: Pos, current: Pos, order: seq<Pos>,
                cameFrom0: map<Pos, Option<Pos>>, trace0: seq<TraceEvent>, q0: seq<Pos>, visited0: set<Pos>,
                ghost body0: seq<TraceEvent>, ghost added0: seq<Pos>, ghost depth0: map<Pos, nat>,
                ghost done: set<Pos>, ghost level: nat, ghost cut: int, ghost s: Sweep, ghost bodyBefore: seq<TraceEvent>)
    returns (cameFrom: map<Pos, Option<Pos>>, trace: seq<TraceEvent>, q: seq<Pos>, visited: set<Pos>,
             ghost body: seq<TraceEvent>, ghost added: seq<Pos>, ghost depth: map<Pos, nat>,
             ghost scans: seq<seq<Pos>>)
    requires grid.View().Valid()
    requires Progress(grid.View(), cfg, BFS, start, goal, cameFrom0, order, trace0, body0, added0, depth0)
    requires Scanning(grid.View(), start, goal, order, q0, visited0, added0, depth0, done, current, level, cut)
    requires Turns(grid.View(), Fifo, start, goal, s, bodyBefore) && !s.found && s.frontier != []
    requires Top(Fifo, s.frontier) == current
    requires q0 == Rest(Fifo, s.frontier) && visited0 == s.visited && cameFrom0 == s.cameFrom
    requires order == s.order + [current] && body0 == bodyBefore + [FrontierPop(current), Visit(current)]
    ensures Progress(grid.View(), cfg, BFS, start, goal, cameFrom, order, trace, body, added, depth)
    ensures Queued(grid.View(), start, goal, order, q, visited, added, depth, done + {current}, level, cut)
    ensures Turns(grid.View(), Fifo, start, goal, Sweep(q, visited, cameFrom, order, scans, false), body)
    ensures |visited| <= grid.width * grid.height + 1
    ensures |visited| - |q| == |visited0| - |q0| && |q0| <= |q|
  {
    ghost var board := grid.View();
    cameFrom, trace, q, visited, body, added, depth :=
      Scan(grid, cfg, start, goal, current, order, cameFrom0, trace0, q0, visited0, body0, added0, depth0, done,
           level, cut);
    TurnsScanned(board, Fifo, start, goal, s, bodyBefore, q, visited, cameFrom, body);
    scans := s.scans + [Unvisited(board.Neighbors(current), visited0)];
    DiscoveredBound(board, start, visited);
  }

  /**
   * One turn of the while-loop of bfs.run: pop the head of the queue, record and report it, then
   * stop at goal or scan its neighbours. The turn is a Step of the reference.
   */
  method Turn(grid: Grid, cfg: AlgorithmConfig, start: Pos, goal: Pos, q0: seq<Pos>, visited0: set<Pos>,
              cameFrom0: map<Pos, Option<Pos>>, trace0: seq<TraceEvent>, order0: seq<Pos>,
              ghost body0: seq<TraceEvent>, ghost added0: seq<Pos>, ghost depth0: map<Pos, nat>,
              ghost done0: set<Pos>, ghost level0: nat, ghost cut0: int, ghost scans0: seq<seq<Pos>>)
    returns (found: bool, q: seq<Pos>, visited: set<Pos>, cameFrom: map<Pos, Option<Pos>>,
             trace: seq<TraceEvent>, order: seq<Pos>, ghost logged: seq<TraceEvent>, ghost body: seq<TraceEvent>,
             ghost added: seq<Pos>, ghost depth: map<Pos, nat>, ghost done: set<Pos>, ghost level: nat,
             ghost cut: int, ghost scans: seq<seq<Pos>>)
    requires grid.View().Valid() && q0 != []
    requires Progress(grid.View(), cfg, BFS, start, goal, cameFrom0, order0, trace0, body0, added0, depth0)
    requires Queued(grid.View(), start, goal, order0, q0, visited0, added0, depth0, done0, level0, cut0)
    requires Turns(grid.View(), Fifo, start, goal, Sweep(q0, visited0, cameFrom0, order0, scans0, false), body0)
    ensures Progress(grid.View(), cfg, BFS, start, goal, cameFrom, order, logged, body, added, depth)
    ensures Turns(grid.View(), Fifo, start, goal, Sweep(q, visited, cameFrom, order, scans, found), body)
    ensures |order| == |order0| + 1 && order[..|order0|] == order0 && order[|order0|] == q0[0]
    ensures found <==> q0[0] == goal
    ensures found ==> |body| > 0 && body[|body| - 1] == Visit(goal) && |visited| == |added|
    ensures found ==> trace == logged + Gated(cfg, [GoalFound(goal)])
    ensures found ==> goal in depth && grid.View().NoShorterWalk(start, goal, depth[goal])
    ensures !found ==> Queued(grid.View(), start, goal, order, q, visited, added, depth, done, level, cut)
    ensures !found ==> trace == logged && |visited| <= grid.width * grid.height + 1
    ensures !found ==> |visited| - |q| == |visited0| - |q0| + 1 && |visited0| <= |visited|
  {
    ghost var board := grid.View();
    ghost var s := Sweep(q0, visited0, cameFrom0, order0, scans0, false);
    var current := q0[0];
    PopStep(board, cfg, start, goal, cameFrom0, order0, trace0, body0, added0, depth0, q0, visited0, done0,
            level0, cut0);
    level, cut := NextLevel(|order0|, |added0|, level0, cut0).0, NextLevel(|order0|, |added0|, level0, cut0).1;
    q, visited, cameFrom := q0[1..], visited0, cameFrom0;
    trace := trace0 + Gated(cfg, [FrontierPop(current)]);
    order := order0 + [current];
    trace := trace + Gated(cfg, [Visit(current)]);
    body, added, depth, done := body0 + [FrontierPop(current), Visit(current)], added0, depth0, done0;
    logged := trace;

    if current == goal {
      found := true;
      trace := trace + Gated(cfg, [GoalFound(goal)]);
      TurnsFound(board, Fifo, start, goal, s, body0);
      scans := scans0 + [[]];
      return;
    }

    found := false;
    cameFrom, trace, q, visited, body, added, depth, scans :=
      Expand(grid, cfg, start, goal, current, order, cameFrom, trace, q, visited, body, added, depth, done,
             level, cut, s, body0);
    done := done + {current};
    logged := trace;
  }

  /**
   * The while-loop of bfs.run, from the first frontier_add on: take turns until goal is popped
   * or the queue is empty. It works on the fields of the result as values, which bfs.run stores
   * back.
   */
  method Explore(grid: Grid, cfg: AlgorithmConfig, start: Pos, goal: Pos, cameFrom0: map<Pos, Option<Pos>>,
                 trace0: seq<TraceEvent>)
    returns (found: bool, expanded: int, order: seq<Pos>, cameFrom: map<Pos, Option<Pos>>,
             trace: seq<TraceEvent>, visited: set<Pos>,
             ghost logged: seq<TraceEvent>, ghost body: seq<TraceEvent>, ghost added: seq<Pos>,
             ghost depth: map<Pos, nat>, ghost scans: seq<seq<Pos>>)
    requires grid.View().Valid() && start != goal
    requires cameFrom0 == map[start := None] && trace0 == Gated(cfg, [Init(BFS, start, goal)])
    ensures Summarize(Ended(grid.View(), Fifo, start, goal)) == Summary(found, order, cameFrom, scans)
    ensures |scans| == |order| && body == Body(start, order, scans)
    ensures Progress(grid.View(), cfg, BFS, start, goal, cameFrom, order, logged, body, added, depth)
    ensures expanded == |order| && |order| > 0 && order[0] == start
    ensures |visited| == |added| && (found <==> goal in order)
    ensures found ==> order[|order| - 1] == goal && |body| > 0 && body[|body| - 1] == Visit(goal)
    ensures found ==> trace == logged + Gated(cfg, [GoalFound(goal)])
    ensures found ==> goal in depth && grid.View().NoShorterWalk(start, goal, depth[goal])
    ensures !found ==> trace == logged && !grid.View().Reachable(start, goal)
  {
    ghost var board := grid.View();
    var q := [start];
    cameFrom, trace := cameFrom0, trace0 + Gated(cfg, [FrontierAdd(start)]);
    visited := {start};
    found, expanded, order := false, 0, [];

    // The events after init, the cells in the order they were enqueued, their BFS depth, the
    // cells already expanded, the level and cut of Levels, and the bound on discovered cells.
    body, added, depth := [FrontierAdd(start)], [start], map[start := 0];
    ghost var done: set<Pos> := {};
    ghost var level: nat, cut := 0, 1;
    ghost var room := grid.width * grid.height + 1;
    logged := trace;
    ProgressInit(board, cfg, BFS, start, goal);
    QueuedInit(board, start, goal);
    scans := [];
    TurnsBegin(board, Fifo, start, goal);

    while q != []
      invariant !found && expanded == |order|
      invariant Progress(board, cfg, BFS, start, goal, cameFrom, order, trace, body, added, depth)
      invariant Queued(board, start, goal, order, q, visited, added, depth, done, level, cut)
      invariant logged == trace
      invariant |visited| <= room
      invariant Turns(board, Fifo, start, goal, Sweep(q, visited, cameFrom, order, scans, false), body)
      invariant |order| > 0 ==> order[0] == start
      decreases room - |visited|, |q|
    {
      found, q, visited, cameFrom, trace, order, logged, body, added, depth, done, level, cut, scans :=
        Turn(grid, cfg, start, goal, q, visited, cameFrom, trace, order, body, added, depth, done, level, cut, scans);
      expanded := expanded + 1;
      if found {
        break;
      }
    }
    TurnsEnded(board, Fifo, start, goal, Sweep(q, visited, cameFrom, order, scans, found), body);
    if !found {
      QueuedExhausted(board, start, goal, order, visited, added, depth, done, level, cut);
    }
  }

  /**
   * bfs.run after its init event, on values: explore, rebuild the path when goal was reached,
   * and append the closing events. A found path is a shortest walk.
   */
  method Search(grid: Grid, cfg: AlgorithmConfig, start: Pos, goal: Pos, cameFrom0: map<Pos, Option<Pos>>,
                trace0: seq<TraceEvent>)
    returns (found: bool, path: seq<Pos>, order: seq<Pos>, cameFrom: map<Pos, Option<Pos>>,
             trace: seq<TraceEvent>, stats: SearchStats)
    requires grid.View().Valid() && start != goal
    requires cameFrom0 == map[start := None] && trace0 == Gated(cfg, [Init(BFS, start, goal)])
    ensures Outcome(grid.View(), cfg, BFS, start, goal, found, path, order, cameFrom, trace, stats)
    ensures found ==> grid.View().NoShorterWalk(start, goal, |path| - 1)
    ensures Reproduces(cfg, BFS, start, goal, Summarize(Ended(grid.View(), Fifo, start, goal)),
                       found, path, order, cameFrom, trace, stats)
  {
    var expanded, explored, visited;
    ghost var logged, body, added, depth, scans;
    found, expanded, order, cameFrom, explored, visited, logged, body, added, depth, scans :=
      Explore(grid, cfg, start, goal, cameFrom0, trace0);
    path, trace, stats :=
      Conclude(grid.View(), cfg, BFS, start, goal, found, expanded, order, cameFrom, explored, |visited|,
               logged, body, added, depth);
  }

  /** bfs.run. Beyond the outcome every search promises, a found path is a shortest walk. */
  method Run(grid: Grid, start: Pos, goal: Pos, cfg: AlgorithmConfig) returns (res: SearchResult)
    requires grid.View().Valid()
    ensures fresh(res)
    ensures start == goal ==> TrivialOutcome(res, cfg, BFS, start)
    ensures start != goal ==> SearchOutcome(grid.View(), res, cfg, BFS, start, goal)
    ensures start != goal && res.found ==> grid.View().NoShorterWalk(start, goal, |res.path| - 1)
    ensures start != goal ==> Recorded(res, cfg, BFS, start, goal, Summarize(Ended(grid.View(), Fifo, start, goal)))
  {
    res := NewResult(start, goal);
    Emit(res, cfg, Init(BFS, start, goal));
    if start == goal {
      res.found := true;
      res.path := [start];
      res.stats := res.stats.(pathLength := 1);
      Emit(res, cfg, GoalFound(goal));
      Emit(res, cfg, PathEvent(res.path));
      Emit(res, cfg, Done(true));
      return;
    }
    ghost var board := grid.View();
    var found, path, order, cameFrom, trace, stats := Search(grid, cfg, start, goal, res.cameFrom, res.trace);
    Store(board, res, cfg, BFS, start, goal, Summarize(Ended(board, Fifo, start, goal)), found, path, order,
          cameFrom, trace, stats);
  }
}
