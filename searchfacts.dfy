/**
 * Facts shared by the three searches: the predecessor links they build, the lower bound on walks
 * that makes BFS and A* paths shortest, unreachability when the frontier runs dry, and the
 * outcome every run promises.
 */
module SearchFacts {
  import opened Sequences
  import opened Grids
  import opened Results
  import opened Common

  /**
   * The predecessor map of a search: start maps to None with rank 0, and every other key was
   * reached by one step from an expanded cell, one rank further out.
   */
  ghost predicate ParentLinks(grid: Board, cameFrom: map<Pos, Option<Pos>>, start: Pos,
                              rank: map<Pos, nat>, expanded: set<Pos>)
    requires grid.Valid()
  {
    && start in cameFrom && cameFrom[start] == None
    && start in rank && rank[start] == 0
    && (forall v :: v in cameFrom ==> v in rank)
    && forall v {:trigger cameFrom[v]} :: v in cameFrom && v != start ==>
         && v in rank
         && cameFrom[v].Some?
         && cameFrom[v].value in expanded
         && cameFrom[v].value in cameFrom
         && cameFrom[v].value in rank
         && grid.IsStep(cameFrom[v].value, v)
         && rank[v] == rank[cameFrom[v].value] + 1
  }

  lemma ParentLinksRanked(grid: Board, cameFrom: map<Pos, Option<Pos>>, start: Pos,
                          rank: map<Pos, nat>, expanded: set<Pos>)
    requires grid.Valid() && ParentLinks(grid, cameFrom, start, rank, expanded)
    ensures Ranked(cameFrom, rank)
  {
  }

  /** Walking the links back from any discovered cell ends at start. */
  lemma {:induction false} RootIsStart(grid: Board, cameFrom: map<Pos, Option<Pos>>, start: Pos,
                                       rank: map<Pos, nat>, expanded: set<Pos>, p: Pos)
    requires grid.Valid() && ParentLinks(grid, cameFrom, start, rank, expanded)
    requires p in cameFrom
    ensures Ranked(cameFrom, rank) && Root(cameFrom, rank, p) == start
    decreases rank[p]
  {
    ParentLinksRanked(grid, cameFrom, start, rank, expanded);
    if p == start {
      assert Chain(cameFrom, rank, p) == [p];
    } else {
      var q := cameFrom[p].value;
      RootIsStart(grid, cameFrom, start, rank, expanded, q);
      assert Chain(cameFrom, rank, p) == [p] + Chain(cameFrom, rank, q);
    }
  }

  /** Along a reconstructed path, the i-th cell has rank i. */
  lemma {:induction false} RankAlong(grid: Board, cameFrom: map<Pos, Option<Pos>>, start: Pos,
                                     rank: map<Pos, nat>, expanded: set<Pos>, path: seq<Pos>, i: int)
    requires grid.Valid() && ParentLinks(grid, cameFrom, start, rank, expanded)
    requires |path| > 0 && path[0] == start
    requires forall j {:trigger Get(cameFrom, path[j])} :: 0 < j < |path| ==> Get(cameFrom, path[j]) == Some(path[j - 1])
    requires 0 <= i < |path|
    ensures path[i] in cameFrom && path[i] in rank && rank[path[i]] == i
    decreases i
  {
    if i > 0 {
      RankAlong(grid, cameFrom, start, rank, expanded, path, i - 1);
      assert Get(cameFrom, path[i]) == Some(path[i - 1]);
      assert path[i] in cameFrom && cameFrom[path[i]] == Some(path[i - 1]);
      assert path[i] != start;
    }
  }

  /**
   * A path that reconstruct_path returns from links built by a search is a walk from start to
   * goal without repeated cells, and it has exactly rank[goal] moves.
   */
  lemma ReconstructedWalk(grid: Board, cameFrom: map<Pos, Option<Pos>>, start: Pos, goal: Pos,
                          rank: map<Pos, nat>, expanded: set<Pos>, path: seq<Pos>)
    requires grid.Valid() && ParentLinks(grid, cameFrom, start, rank, expanded)
    requires |path| > 0 && path[0] == start && path[|path| - 1] == goal
    requires forall i {:trigger Get(cameFrom, path[i])} :: 0 < i < |path| ==> Get(cameFrom, path[i]) == Some(path[i - 1])
    ensures forall i :: 0 <= i < |path| ==> path[i] in cameFrom
    ensures grid.IsWalkBetween(path, start, goal)
    ensures Distinct(path)
    ensures goal in rank && |path| == rank[goal] + 1
  {
    forall i | 0 <= i < |path| ensures path[i] in cameFrom && path[i] in rank && rank[path[i]] == i {
      RankAlong(grid, cameFrom, start, rank, expanded, path, i);
    }
    forall i | 0 <= i < |path| - 1 ensures grid.StepAt(path, i) {
      assert Get(cameFrom, path[i + 1]) == Some(path[i]);
    }
    DistinctPairwise(path);
  }

  /** A chain of distinct ancestors of v, v first and start last, one per rank. */
  lemma {:induction false} Ancestry(grid: Board, cameFrom: map<Pos, Option<Pos>>, start: Pos,
                                    rank: map<Pos, nat>, expanded: set<Pos>, v: Pos)
    returns (c: seq<Pos>)
    requires grid.Valid() && ParentLinks(grid, cameFrom, start, rank, expanded)
    requires v in cameFrom
    ensures |c| == rank[v] + 1
    ensures forall i :: 0 <= i < |c| ==> c[i] in cameFrom && c[i] in rank && rank[c[i]] == rank[v] - i
    decreases rank[v]
  {
    if v == start {
      c := [start];
    } else {
      var p := cameFrom[v].value;
      var d := Ancestry(grid, cameFrom, start, rank, expanded, p);
      c := [v] + d;
      forall i | 0 < i < |c| ensures c[i] in cameFrom && c[i] in rank && rank[c[i]] == rank[v] - i {
        assert c[i] == d[i - 1];
      }
    }
  }

  /** Ranks are bounded by the number of discovered cells. */
  lemma RankBelowSize(grid: Board, cameFrom: map<Pos, Option<Pos>>, start: Pos,
                      rank: map<Pos, nat>, expanded: set<Pos>, v: Pos)
    requires grid.Valid() && ParentLinks(grid, cameFrom, start, rank, expanded)
    requires v in cameFrom
    ensures rank[v] < |cameFrom|
  {
    var c := Ancestry(grid, cameFrom, start, rank, expanded, v);
    forall i, j | 0 <= i < j < |c| ensures c[i] != c[j] {
      assert rank[c[i]] != rank[c[j]];
    }
    DistinctPairwise(c);
    DistinctLength(c, cameFrom.Keys);
  }

  /** The cells a search can discover: the board and the start, wherever it lies. */
  lemma UniverseSize(grid: Board, start: Pos)
    ensures |grid.Cells() + {start}| <= grid.width * grid.height + 1
  {
    CellSetSize(grid.width, grid.height);
  }

  lemma SubsetSize<T>(a: set<T>, b: set<T>)
    requires a <= b
    ensures |a| <= |b|
  {
    assert b == a + (b - a);
  }

  /** A set of cells that are on the board, except possibly start, has at most width * height + 1 members. */
  lemma DiscoveredBound(grid: Board, start: Pos, s: set<Pos>)
    requires forall p :: p in s ==> p == start || grid.InBounds(p)
    ensures |s| <= grid.width * grid.height + 1
  {
    forall p | p in s ensures p in grid.Cells() + {start} {
      assert p == start || grid.InBounds(p);
    }
    SubsetSize(s, grid.Cells() + {start});
    UniverseSize(grid, start);
  }

  // ---------------------------------------------------------------------------
  // Closure and lower bounds

  /** No step leaves S. */
  ghost predicate Closed(grid: Board, s: set<Pos>)
    requires grid.Valid()
  {
    forall x, n :: x in s && grid.IsStep(x, n) ==> n in s
  }

  lemma {:induction false} WalkStaysInside(grid: Board, s: set<Pos>, w: seq<Pos>, i: int)
    requires grid.Valid() && Closed(grid, s)
    requires grid.IsWalk(w) && |w| > 0 && w[0] in s
    requires 0 <= i < |w|
    ensures w[i] in s
    decreases i
  {
    if i > 0 {
      WalkStaysInside(grid, s, w, i - 1);
      assert grid.StepAt(w, i - 1);
    }
  }

  /** Once the expanded set is closed under steps and misses goal, goal cannot be reached. */
  lemma ClosedUnreachable(grid: Board, s: set<Pos>, start: Pos, goal: Pos)
    requires grid.Valid() && Closed(grid, s)
    requires start in s && goal !in s
    ensures !grid.Reachable(start, goal)
  {
    forall w ensures !grid.IsWalkBetween(w, start, goal) {
      if grid.IsWalkBetween(w, start, goal) {
        WalkStaysInside(grid, s, w, |w| - 1);
      }
    }
  }

  /** Every expanded cell has a distance estimate, and every step out of it is relaxed. */
  ghost predicate Relaxed(grid: Board, s: set<Pos>, dist: map<Pos, nat>)
    requires grid.Valid()
  {
    && (forall x :: x in s ==> x in dist)
    && forall x, n :: x in s && grid.IsStep(x, n) ==> x in dist && n in dist && dist[n] <= dist[x] + 1
  }

  /** The first cell of w outside the expanded set; its estimate is at most its index in w. */
  lemma {:induction false} FirstOutside(grid: Board, s: set<Pos>, dist: map<Pos, nat>, w: seq<Pos>, i: int)
    returns (j: int)
    requires grid.Valid() && Relaxed(grid, s, dist)
    requires grid.IsWalk(w) && |w| > 0 && w[|w| - 1] !in s
    requires 0 <= i < |w| && w[i] in dist && dist[w[i]] <= i
    ensures i <= j < |w| && w[j] in dist && w[j] !in s && dist[w[j]] <= j
    decreases |w| - i
  {
    if w[i] !in s {
      j := i;
    } else {
      assert grid.StepAt(w, i);
      j := FirstOutside(grid, s, dist, w, i + 1);
    }
  }

  /**
   * The optimality argument of BFS and A*: if every walk out of the expanded set is relaxed and
   * every cell on its border has estimate plus heuristic at least d, then no walk from start to
   * an unexpanded goal is shorter than d.
   */
  lemma WalkLowerBound(grid: Board, s: set<Pos>, dist: map<Pos, nat>, start: Pos, goal: Pos, d: int)
    requires grid.Valid() && Relaxed(grid, s, dist)
    requires start in dist && dist[start] == 0
    requires forall v :: v in dist && v !in s ==> d <= dist[v] + Manhattan(v, goal)
    requires goal !in s
    ensures grid.NoShorterWalk(start, goal, d)
  {
    forall w | grid.IsWalkBetween(w, start, goal) ensures d <= |w| - 1 {
      var j := FirstOutside(grid, s, dist, w, 0);
      WalkAdmissible(grid, w, j);
    }
  }

  // ---------------------------------------------------------------------------
  // The bookkeeping every search keeps while it runs

  /**
   * Discovery: `added` lists the discovered cells once each, start first, and they are the keys
   * of the predecessor map and of the rank map; `order` lists the expanded cells once each, and
   * every link leads back from a discovered cell to an expanded one.
   */
  ghost predicate Discovered(grid: Board, start: Pos, cameFrom: map<Pos, Option<Pos>>, order: seq<Pos>,
                             added: seq<Pos>, rank: map<Pos, nat>)
    requires grid.Valid()
  {
    && Distinct(added) && |added| > 0 && added[0] == start
    && (forall p :: p in cameFrom <==> p in added)
    && (forall p :: p in rank <==> p in added)
    && ParentLinks(grid, cameFrom, start, rank, Elements(order))
    && Distinct(order)
    && (forall i :: 0 <= i < |order| ==> order[i] in cameFrom)
  }

  /**
   * The log: `body` holds the events after init, its adds follow `added` and its pops and
   * visits follow `order`, and the trace holds init and body when tracing is on.
   */
  ghost predicate Logged(cfg: AlgorithmConfig, algo: Algorithm, start: Pos, goal: Pos, order: seq<Pos>,
                         trace: seq<TraceEvent>, body: seq<TraceEvent>, added: seq<Pos>)
  {
    && (forall i :: 0 <= i < |body| ==> IsSearchEvent(body[i]))
    && Positions(body, AddKind) == added
    && Positions(body, PopKind) == order && Positions(body, VisitKind) == order
    && trace == Gated(cfg, [Init(algo, start, goal)] + body)
  }

  /** The state shared by the three searches between events. */
  ghost predicate Progress(grid: Board, cfg: AlgorithmConfig, algo: Algorithm, start: Pos, goal: Pos,
                           cameFrom: map<Pos, Option<Pos>>, order: seq<Pos>, trace: seq<TraceEvent>,
                           body: seq<TraceEvent>, added: seq<Pos>, rank: map<Pos, nat>)
    requires grid.Valid()
  {
    Discovered(grid, start, cameFrom, order, added, rank) && Logged(cfg, algo, start, goal, order, trace, body, added)
  }

  /** After init and the first frontier_add of start. */
  lemma ProgressInit(grid: Board, cfg: AlgorithmConfig, algo: Algorithm, start: Pos, goal: Pos)
    requires grid.Valid()
    ensures Progress(grid, cfg, algo, start, goal, map[start := None], [],
                     Gated(cfg, [Init(algo, start, goal)]) + Gated(cfg, [FrontierAdd(start)]),
                     [FrontierAdd(start)], [start], map[start := 0])
  {
    DiscoveredInit(grid, start);
    LoggedInit(cfg, algo, start, goal);
  }

  lemma DiscoveredInit(grid: Board, start: Pos)
    requires grid.Valid()
    ensures Discovered(grid, start, map[start := None], [], [start], map[start := 0])
  {
  }

  lemma LoggedInit(cfg: AlgorithmConfig, algo: Algorithm, start: Pos, goal: Pos)
    ensures Logged(cfg, algo, start, goal, [], Gated(cfg, [Init(algo, start, goal)]) + Gated(cfg, [FrontierAdd(start)]),
                   [FrontierAdd(start)], [start])
  {
    PositionsSnoc([], FrontierAdd(start));
    assert [] + [FrontierAdd(start)] == [FrontierAdd(start)];
  }

  lemma ParentLinksWiden(grid: Board, cameFrom: map<Pos, Option<Pos>>, start: Pos, rank: map<Pos, nat>,
                         expanded: set<Pos>, more: set<Pos>)
    requires grid.Valid() && ParentLinks(grid, cameFrom, start, rank, expanded)
    requires expanded <= more
    ensures ParentLinks(grid, cameFrom, start, rank, more)
  {
  }

  /** A frontier_pop and a visit of a discovered, unexpanded cell. */
  lemma ProgressPop(grid: Board, cfg: AlgorithmConfig, algo: Algorithm, start: Pos, goal: Pos,
                    cameFrom: map<Pos, Option<Pos>>, order: seq<Pos>, trace: seq<TraceEvent>,
                    body: seq<TraceEvent>, added: seq<Pos>, rank: map<Pos, nat>, current: Pos)
    requires grid.Valid() && Progress(grid, cfg, algo, start, goal, cameFrom, order, trace, body, added, rank)
    requires current in cameFrom && current !in order
    ensures Progress(grid, cfg, algo, start, goal, cameFrom, order + [current],
                     trace + Gated(cfg, [FrontierPop(current)]) + Gated(cfg, [Visit(current)]),
                     body + [FrontierPop(current), Visit(current)], added, rank)
  {
    DiscoveredPop(grid, start, cameFrom, order, added, rank, current);
    LoggedPop(cfg, algo, start, goal, order, trace, body, added, current);
  }

  lemma DiscoveredPop(grid: Board, start: Pos, cameFrom: map<Pos, Option<Pos>>, order: seq<Pos>,
                      added: seq<Pos>, rank: map<Pos, nat>, current: Pos)
    requires grid.Valid() && Discovered(grid, start, cameFrom, order, added, rank)
    requires current in cameFrom && current !in order
    ensures Discovered(grid, start, cameFrom, order + [current], added, rank)
  {
    ParentLinksWiden(grid, cameFrom, start, rank, Elements(order), Elements(order + [current]));
    var o := order + [current];
    forall i | 0 <= i < |o| ensures o[i] in cameFrom {
      if i < |order| {
        assert o[i] == order[i];
      }
    }
    DistinctSnoc(order, current);
  }

  lemma LoggedPop(cfg: AlgorithmConfig, algo: Algorithm, start: Pos, goal: Pos, order: seq<Pos>,
                  trace: seq<TraceEvent>, body: seq<TraceEvent>, added: seq<Pos>, current: Pos)
    requires Logged(cfg, algo, start, goal, order, trace, body, added)
    ensures Logged(cfg, algo, start, goal, order + [current],
                   trace + Gated(cfg, [FrontierPop(current)]) + Gated(cfg, [Visit(current)]),
                   body + [FrontierPop(current), Visit(current)], added)
  {
    var b1 := body + [FrontierPop(current)];
    PositionsSnoc(body, FrontierPop(current));
    PositionsSnoc(b1, Visit(current));
    assert b1 + [Visit(current)] == body + [FrontierPop(current), Visit(current)];
    var init := [Init(algo, start, goal)];
    assert init + b1 + [Visit(current)] == init + (body + [FrontierPop(current), Visit(current)]);
    assert init + body + [FrontierPop(current)] == init + b1;
  }

  /** A frontier_add of a newly discovered cell, one step from an expanded one. */
  lemma ProgressAdd(grid: Board, cfg: AlgorithmConfig, algo: Algorithm, start: Pos, goal: Pos,
                    cameFrom: map<Pos, Option<Pos>>, order: seq<Pos>, trace: seq<TraceEvent>,
                    body: seq<TraceEvent>, added: seq<Pos>, rank: map<Pos, nat>,
                    parent: Pos, nb: Pos, r: nat)
    requires grid.Valid() && Progress(grid, cfg, algo, start, goal, cameFrom, order, trace, body, added, rank)
    requires parent in order && nb !in cameFrom && grid.IsStep(parent, nb)
    requires parent in rank && r == rank[parent] + 1
    ensures Progress(grid, cfg, algo, start, goal, cameFrom[nb := Some(parent)], order,
                     trace + Gated(cfg, [FrontierAdd(nb)]), body + [FrontierAdd(nb)], added + [nb], rank[nb := r])
  {
    DiscoveredAdd(grid, start, cameFrom, order, added, rank, parent, nb, r);
    LoggedAdd(cfg, algo, start, goal, order, trace, body, added, nb);
  }

  lemma DiscoveredAdd(grid: Board, start: Pos, cameFrom: map<Pos, Option<Pos>>, order: seq<Pos>,
                      added: seq<Pos>, rank: map<Pos, nat>, parent: Pos, nb: Pos, r: nat)
    requires grid.Valid() && Discovered(grid, start, cameFrom, order, added, rank)
    requires parent in order && nb !in cameFrom && grid.IsStep(parent, nb)
    requires parent in rank && r == rank[parent] + 1
    ensures Discovered(grid, start, cameFrom[nb := Some(parent)], order, added + [nb], rank[nb := r])
  {
    DistinctSnoc(added, nb);
    var cf, rk := cameFrom[nb := Some(parent)], rank[nb := r];
    assert ParentLinks(grid, cf, start, rk, Elements(order)) by {
      forall v | v in cf && v != start
        ensures v in rk && cf[v].Some? && cf[v].value in Elements(order) && cf[v].value in cf
        ensures cf[v].value in rk && grid.IsStep(cf[v].value, v) && rk[v] == rk[cf[v].value] + 1
      {
        if v != nb {
          assert cf[v] == cameFrom[v];
          assert cameFrom[v].value != nb;
        }
      }
    }
  }

  lemma LoggedAdd(cfg: AlgorithmConfig, algo: Algorithm, start: Pos, goal: Pos, order: seq<Pos>,
                  trace: seq<TraceEvent>, body: seq<TraceEvent>, added: seq<Pos>, nb: Pos)
    requires Logged(cfg, algo, start, goal, order, trace, body, added)
    ensures Logged(cfg, algo, start, goal, order, trace + Gated(cfg, [FrontierAdd(nb)]),
                   body + [FrontierAdd(nb)], added + [nb])
  {
    PositionsSnoc(body, FrontierAdd(nb));
    var init := [Init(algo, start, goal)];
    assert init + body + [FrontierAdd(nb)] == init + (body + [FrontierAdd(nb)]);
  }

  /** A* lowering the estimate of a discovered, unexpanded cell through an expanded one. */
  lemma ProgressRelink(grid: Board, cfg: AlgorithmConfig, algo: Algorithm, start: Pos, goal: Pos,
                       cameFrom: map<Pos, Option<Pos>>, order: seq<Pos>, trace: seq<TraceEvent>,
                       body: seq<TraceEvent>, added: seq<Pos>, rank: map<Pos, nat>,
                       parent: Pos, nb: Pos, r: nat)
    requires grid.Valid() && Progress(grid, cfg, algo, start, goal, cameFrom, order, trace, body, added, rank)
    requires parent in order && nb in rank && nb !in order && grid.IsStep(parent, nb)
    requires parent in rank && r == rank[parent] + 1 && r < rank[nb]
    ensures Progress(grid, cfg, algo, start, goal, cameFrom[nb := Some(parent)], order,
                     trace, body, added, rank[nb := r])
  {
    DiscoveredRelink(grid, start, cameFrom, order, added, rank, parent, nb, r);
  }

  lemma DiscoveredRelink(grid: Board, start: Pos, cameFrom: map<Pos, Option<Pos>>, order: seq<Pos>,
                         added: seq<Pos>, rank: map<Pos, nat>, parent: Pos, nb: Pos, r: nat)
    requires grid.Valid() && Discovered(grid, start, cameFrom, order, added, rank)
    requires parent in order && nb in rank && nb !in order && grid.IsStep(parent, nb)
    requires parent in rank && r == rank[parent] + 1 && r < rank[nb]
    ensures Discovered(grid, start, cameFrom[nb := Some(parent)], order, added, rank[nb := r])
  {
    var cf, rk := cameFrom[nb := Some(parent)], rank[nb := r];
    assert ParentLinks(grid, cf, start, rk, Elements(order)) by {
      forall v | v in cf && v != start
        ensures v in rk && cf[v].Some? && cf[v].value in Elements(order) && cf[v].value in cf
        ensures cf[v].value in rk && grid.IsStep(cf[v].value, v) && rk[v] == rk[cf[v].value] + 1
      {
        if v != nb {
          assert cf[v] == cameFrom[v];
          assert cameFrom[v].value != nb;
        }
      }
    }
  }

  // ---------------------------------------------------------------------------
  // What a run promises

  /** The result of a run with start == goal: found at once, nothing expanded. */
  ghost predicate TrivialOutcome(res: SearchResult, cfg: AlgorithmConfig, algo: Algorithm, start: Pos)
    reads res
  {
    && res.found && res.start == start && res.goal == start
    && res.path == [start] && res.visitedOrder == []
    && res.cameFrom == map[start := None]
    && res.stats == SearchStats(0, 0, 1)
    && res.trace == Gated(cfg, [Init(algo, start, start), GoalFound(start), PathEvent([start]), Done(true)])
  }

  /**
   * What a run with start != goal records about its expansion: the expanded cells are distinct
   * keys of the predecessor map, start first, and every other key links back by one step to an
   * expanded cell; the counters are the numbers of expanded and discovered cells.
   */
  ghost predicate Expansion(grid: Board, cameFrom: map<Pos, Option<Pos>>, order: seq<Pos>, stats: SearchStats, start: Pos)
    requires grid.Valid()
  {
    && stats.visited == |cameFrom|
    && stats.expanded == |order|
    && Distinct(order)
    && |order| > 0 && order[0] == start
    && (forall i :: 0 <= i < |order| ==> order[i] in cameFrom)
    && start in cameFrom && cameFrom[start] == None
    && (forall v {:trigger cameFrom[v]} :: v in cameFrom && v != start ==>
          && cameFrom[v].Some?
          && cameFrom[v].value in order
          && grid.IsStep(cameFrom[v].value, v))
  }

  /**
   * found holds exactly when goal was expanded, and then it was expanded last; a found path is a
   * duplicate-free walk from start to goal, no longer than the number of discovered cells;
   * otherwise the path is empty and goal cannot be reached from start.
   */
  ghost predicate Verdict(grid: Board, found: bool, order: seq<Pos>, path: seq<Pos>, stats: SearchStats,
                          start: Pos, goal: Pos)
    requires grid.Valid()
  {
    && (found <==> goal in order)
    && (found ==> |order| > 0 && order[|order| - 1] == goal)
    && (found ==>
          && grid.IsWalkBetween(path, start, goal)
          && Distinct(path)
          && stats.pathLength == |path|
          && |path| <= stats.visited)
    && (!found ==> path == [] && stats.pathLength == 0 && !grid.Reachable(start, goal))
  }

  /** The trace is empty when tracing is off, and otherwise a search trace whose adds name each discovered cell once. */
  ghost predicate Traced(cfg: AlgorithmConfig, algo: Algorithm, start: Pos, goal: Pos, trace: seq<TraceEvent>,
                         found: bool, path: seq<Pos>, order: seq<Pos>, cameFrom: map<Pos, Option<Pos>>)
  {
    && (!cfg.emitTrace ==> trace == [])
    && (cfg.emitTrace ==> SearchTrace(trace, algo, start, goal, found, path, order, cameFrom.Keys))
  }

  /** What a search with start != goal computes: its expansion, its verdict and its trace. */
  ghost predicate Outcome(grid: Board, cfg: AlgorithmConfig, algo: Algorithm, start: Pos, goal: Pos,
                          found: bool, path: seq<Pos>, order: seq<Pos>, cameFrom: map<Pos, Option<Pos>>,
                          trace: seq<TraceEvent>, stats: SearchStats)
    requires grid.Valid()
  {
    && Expansion(grid, cameFrom, order, stats, start)
    && Verdict(grid, found, order, path, stats, start, goal)
    && Traced(cfg, algo, start, goal, trace, found, path, order, cameFrom)
  }

  /** The result record of a run with start != goal holds such an outcome. */
  ghost predicate SearchOutcome(grid: Board, res: SearchResult, cfg: AlgorithmConfig, algo: Algorithm,
                                start: Pos, goal: Pos)
    reads res
    requires grid.Valid()
  {
    && res.start == start && res.goal == goal
    && Outcome(grid, cfg, algo, start, goal, res.found, res.path, res.visitedOrder, res.cameFrom, res.trace, res.stats)
  }

  /** Assembling a trace from its body and closing events. */
  lemma AssembledTrace(algo: Algorithm, start: Pos, goal: Pos, body: seq<TraceEvent>, found: bool,
                       path: seq<Pos>, order: seq<Pos>, frontier: set<Pos>)
    requires forall i :: 0 <= i < |body| ==> IsSearchEvent(body[i])
    requires Positions(body, PopKind) == order && Positions(body, VisitKind) == order
    requires Distinct(Positions(body, AddKind))
    requires forall p :: p in Positions(body, AddKind) <==> p in frontier
    requires found && start != goal ==> |body| > 0 && body[|body| - 1] == Visit(goal)
    ensures SearchTrace([Init(algo, start, goal)] + body + Ending(found, goal, path),
                        algo, start, goal, found, path, order, frontier)
  {
    var tail := Ending(found, goal, path);
    var t := [Init(algo, start, goal)] + body + tail;
    assert t[|t| - |tail|..] == tail;
    assert t[1..|t| - |tail|] == body;
  }

  lemma CloseExpansion(grid: Board, start: Pos, cameFrom: map<Pos, Option<Pos>>, order: seq<Pos>,
                       added: seq<Pos>, rank: map<Pos, nat>, stats: SearchStats)
    requires grid.Valid() && Discovered(grid, start, cameFrom, order, added, rank)
    requires stats.visited == |added| && stats.expanded == |order|
    requires |order| > 0 && order[0] == start
    ensures Expansion(grid, cameFrom, order, stats, start)
    ensures |cameFrom| == |added|
  {
    assert cameFrom.Keys == Elements(added);
    DistinctElements(added);
  }

  lemma CloseVerdict(grid: Board, start: Pos, goal: Pos, cameFrom: map<Pos, Option<Pos>>, order: seq<Pos>,
                     added: seq<Pos>, rank: map<Pos, nat>, found: bool, path: seq<Pos>, stats: SearchStats)
    requires grid.Valid() && Discovered(grid, start, cameFrom, order, added, rank)
    requires stats.visited == |cameFrom| && stats.pathLength == |path|
    requires found <==> goal in order
    requires found ==> |order| > 0 && order[|order| - 1] == goal
    requires found ==> |path| > 0 && path[0] == start && path[|path| - 1] == goal
    requires found ==> forall i {:trigger Get(cameFrom, path[i])} :: 0 < i < |path| ==>
               Get(cameFrom, path[i]) == Some(path[i - 1])
    requires !found ==> path == [] && !grid.Reachable(start, goal)
    ensures Verdict(grid, found, order, path, stats, start, goal)
    ensures found ==> goal in rank && |path| == rank[goal] + 1
  {
    if found {
      ReconstructedWalk(grid, cameFrom, start, goal, rank, Elements(order), path);
      DistinctLength(path, cameFrom.Keys);
    }
  }

  lemma CloseTrace(cfg: AlgorithmConfig, algo: Algorithm, start: Pos, goal: Pos, order: seq<Pos>,
                   trace: seq<TraceEvent>, body: seq<TraceEvent>, added: seq<Pos>, cameFrom: map<Pos, Option<Pos>>,
                   found: bool, path: seq<Pos>, final: seq<TraceEvent>)
    requires start != goal && Logged(cfg, algo, start, goal, order, trace, body, added)
    requires Distinct(added) && forall p :: p in cameFrom <==> p in added
    requires found ==> |body| > 0 && body[|body| - 1] == Visit(goal)
    requires final == trace + Gated(cfg, Ending(found, goal, path))
    ensures Traced(cfg, algo, start, goal, final, found, path, order, cameFrom)
    ensures final == Gated(cfg, [Init(algo, start, goal)] + body + Ending(found, goal, path))
  {
    AssembledTrace(algo, start, goal, body, found, path, order, cameFrom.Keys);
    var init := [Init(algo, start, goal)];
    assert final == Gated(cfg, init + body + Ending(found, goal, path));
  }

  /**
   * What the three searches do after their loop: given the bookkeeping, the path that
   * reconstruct_path returned when found, unreachability when not, and the closing events, the
   * search meets `Outcome`, and a found path has rank[goal] moves.
   */
  lemma CloseSearch(grid: Board, cfg: AlgorithmConfig, algo: Algorithm, start: Pos, goal: Pos,
                    found: bool, path: seq<Pos>, order: seq<Pos>, cameFrom: map<Pos, Option<Pos>>,
                    logged: seq<TraceEvent>, trace: seq<TraceEvent>, stats: SearchStats,
                    body: seq<TraceEvent>, added: seq<Pos>, rank: map<Pos, nat>)
    requires grid.Valid() && start != goal
    requires Progress(grid, cfg, algo, start, goal, cameFrom, order, logged, body, added, rank)
    requires stats == SearchStats(|order|, |added|, |path|)
    requires |order| > 0 && order[0] == start
    requires found <==> goal in order
    requires found ==> order[|order| - 1] == goal
    requires found ==> |body| > 0 && body[|body| - 1] == Visit(goal)
    requires found ==> |path| > 0 && path[0] == start && path[|path| - 1] == goal
    requires found ==> forall i {:trigger Get(cameFrom, path[i])} :: 0 < i < |path| ==>
               Get(cameFrom, path[i]) == Some(path[i - 1])
    requires !found ==> path == [] && !grid.Reachable(start, goal)
    requires trace == logged + Gated(cfg, Ending(found, goal, path))
    ensures Outcome(grid, cfg, algo, start, goal, found, path, order, cameFrom, trace, stats)
    ensures found ==> goal in rank && |path| == rank[goal] + 1
    ensures |cameFrom| == |added|
    ensures trace == Gated(cfg, [Init(algo, start, goal)] + body + Ending(found, goal, path))
  {
    CloseExpansion(grid, start, cameFrom, order, added, rank, stats);
    CloseVerdict(grid, start, goal, cameFrom, order, added, rank, found, path, stats);
    CloseTrace(cfg, algo, start, goal, order, logged, body, added, cameFrom, found, path, trace);
  }

  /**
   * The common ending of the searches, on values: when goal was reached, rebuild the path with
   * reconstruct_path and emit it, then emit done and fill in the statistics.
   */
  method Conclude(grid: Board, cfg: AlgorithmConfig, algo: Algorithm, start: Pos, goal: Pos,
                  found: bool, expanded: int, order: seq<Pos>, cameFrom: map<Pos, Option<Pos>>,
                  trace0: seq<TraceEvent>, discovered: int, ghost logged: seq<TraceEvent>,
                  ghost body: seq<TraceEvent>, ghost added: seq<Pos>, ghost rank: map<Pos, nat>)
    returns (path: seq<Pos>, trace: seq<TraceEvent>, stats: SearchStats)
    requires grid.Valid() && start != goal
    requires Progress(grid, cfg, algo, start, goal, cameFrom, order, logged, body, added, rank)
    requires expanded == |order| && |order| > 0 && order[0] == start
    requires discovered == |added| && (found <==> goal in order)
    requires found ==> order[|order| - 1] == goal && |body| > 0 && body[|body| - 1] == Visit(goal)
    requires found ==> trace0 == logged + Gated(cfg, [GoalFound(goal)])
    requires !found ==> trace0 == logged && !grid.Reachable(start, goal)
    ensures Outcome(grid, cfg, algo, start, goal, found, path, order, cameFrom, trace, stats)
    ensures found ==> goal in rank && |path| == rank[goal] + 1
    ensures path == (if found then PathIn(cameFrom, start, goal) else [])
    ensures stats == SearchStats(|order|, |cameFrom|, |path|)
    ensures trace == Gated(cfg, [Init(algo, start, goal)] + body + Ending(found, goal, path))
  {
    // The closing events emitted so far, after the logged ones.
    ghost var closing: seq<TraceEvent> := if found then [GoalFound(goal)] else [];
    trace, path := trace0, [];
    if found {
      RootIsStart(grid, cameFrom, start, rank, Elements(order), goal);
      path := ReconstructPath(cameFrom, start, goal, rank);
      GatedSnoc(cfg, logged, closing, PathEvent(path));
      trace, closing := trace + Gated(cfg, [PathEvent(path)]), closing + [PathEvent(path)];
    }
    GatedSnoc(cfg, logged, closing, Done(found));
    trace, closing := trace + Gated(cfg, [Done(found)]), closing + [Done(found)];
    assert closing == Ending(found, goal, path);
    stats := SearchStats(expanded, discovered, |path|);
    CloseSearch(grid, cfg, algo, start, goal, found, path, order, cameFrom, logged, trace, stats, body, added, rank);
  }

  // ---------------------------------------------------------------------------
  // Pieces the reference definitions of the searches share

  /** The cells of nbs that are not in visited, in order. */
  function Unvisited(nbs: seq<Pos>, visited: set<Pos>): (r: seq<Pos>)
    ensures |r| <= |nbs|
    ensures forall q :: q in r <==> q in nbs && q !in visited
  {
    if nbs == [] then []
    else Unvisited(nbs[..|nbs| - 1], visited) + (if nbs[|nbs| - 1] in visited then [] else [nbs[|nbs| - 1]])
  }

  /** Leaving out the visited cells keeps the rest in the order +x, -x, +y, -y. */
  lemma {:induction false} UnvisitedOrder(p: Pos, nbs: seq<Pos>, visited: set<Pos>)
    requires InDirectionOrder(p, nbs)
    ensures InDirectionOrder(p, Unvisited(nbs, visited))
  {
    if nbs != [] {
      var init, last := nbs[..|nbs| - 1], nbs[|nbs| - 1];
      assert InDirectionOrder(p, init) by {
        forall i, j | 0 <= i < j < |init| ensures Direction(p, init[i]) < Direction(p, init[j]) {
          assert init[i] == nbs[i] && init[j] == nbs[j];
        }
      }
      UnvisitedOrder(p, init, visited);
      var r := Unvisited(init, visited);
      forall i | 0 <= i < |r| ensures Direction(p, r[i]) < Direction(p, last) {
        assert r[i] in init;
        var j :| 0 <= j < |init| && init[j] == r[i];
        assert nbs[j] == r[i];
      }
    }
  }

  /**
   * The scan of nbs[i], nbs being duplicate-free: the cell is not among the new cells of the
   * earlier neighbours, and it joins them exactly when it is not in visited.
   */
  lemma UnvisitedNext(nbs: seq<Pos>, i: int, visited: set<Pos>)
    requires 0 <= i < |nbs| && Distinct(nbs)
    ensures nbs[i] !in Unvisited(nbs[..i], visited)
    ensures Unvisited(nbs[..i + 1], visited)
            == Unvisited(nbs[..i], visited) + (if nbs[i] in visited then [] else [nbs[i]])
  {
    assert nbs[..i + 1][..i] == nbs[..i];
    if nbs[i] in nbs[..i] {
      var j :| 0 <= j < i && nbs[j] == nbs[i];
      DistinctAt(nbs, j, i);
    }
  }

  /** The predecessor map after each cell of cells, in order, is linked to parent. */
  function Link(cameFrom: map<Pos, Option<Pos>>, cells: seq<Pos>, parent: Pos): (r: map<Pos, Option<Pos>>)
    ensures forall q :: q in r <==> q in cameFrom || q in cells
    ensures forall q :: q in cells ==> r[q] == Some(parent)
    ensures forall q :: q in cameFrom && q !in cells ==> r[q] == cameFrom[q]
  {
    if cells == [] then cameFrom
    else Link(cameFrom, cells[..|cells| - 1], parent)[cells[|cells| - 1] := Some(parent)]
  }

  lemma LinkSnoc(cameFrom: map<Pos, Option<Pos>>, cells: seq<Pos>, parent: Pos, c: Pos)
    ensures Link(cameFrom, cells + [c], parent) == Link(cameFrom, cells, parent)[c := Some(parent)]
  {
    assert (cells + [c])[..|cells|] == cells;
  }

  /**
   * What a run with start != goal computes, whatever the trace flag: whether goal was reached,
   * the expanded cells in order, the predecessor map, and for each expanded cell the cells its
   * scan put on the frontier.
   */
  datatype Summary = Summary(found: bool, order: seq<Pos>, cameFrom: map<Pos, Option<Pos>>,
                             scans: seq<seq<Pos>>)

  /**
   * The fields of a run are those of the summary s: found, the expansion order and the
   * predecessor map are s's; the path is the one s's map records from start to goal when found,
   * and empty otherwise; the counters are the numbers of expanded cells, discovered cells and
   * path cells; and the trace, when tracing is on, is init, start's frontier_add, one block per
   * expansion, and the closing events (with tracing off it is empty).
   */
  ghost predicate Reproduces(cfg: AlgorithmConfig, algo: Algorithm, start: Pos, goal: Pos, s: Summary,
                             found: bool, path: seq<Pos>, order: seq<Pos>, cameFrom: map<Pos, Option<Pos>>,
                             trace: seq<TraceEvent>, stats: SearchStats)
  {
    && found == s.found && order == s.order && cameFrom == s.cameFrom
    && |s.scans| == |s.order|
    && path == (if s.found then PathIn(s.cameFrom, start, goal) else [])
    && stats == SearchStats(|s.order|, |s.cameFrom|, |path|)
    && trace == Gated(cfg, [Init(algo, start, goal)] + Body(start, s.order, s.scans) + Ending(s.found, goal, path))
  }

  /** The result record of a run with start != goal holds the fields the summary s determines. */
  ghost predicate Recorded(res: SearchResult, cfg: AlgorithmConfig, algo: Algorithm, start: Pos, goal: Pos, s: Summary)
    reads res
  {
    && res.start == start && res.goal == goal
    && Reproduces(cfg, algo, start, goal, s, res.found, res.path, res.visitedOrder, res.cameFrom, res.trace, res.stats)
  }

  /**
   * The trace flag decides only the trace: two runs that reproduce the same loop summary, one
   * with tracing on and one with it off, agree on found, path, expansion order, predecessor map
   * and counters, and the run without tracing records no event.
   */
  lemma TraceFlagFree(algo: Algorithm, start: Pos, goal: Pos, s: Summary,
                      found: bool, path: seq<Pos>, order: seq<Pos>, cameFrom: map<Pos, Option<Pos>>,
                      trace: seq<TraceEvent>, stats: SearchStats,
                      found': bool, path': seq<Pos>, order': seq<Pos>, cameFrom': map<Pos, Option<Pos>>,
                      trace': seq<TraceEvent>, stats': SearchStats)
    requires Reproduces(AlgorithmConfig(true), algo, start, goal, s, found, path, order, cameFrom, trace, stats)
    requires Reproduces(AlgorithmConfig(false), algo, start, goal, s, found', path', order', cameFrom', trace', stats')
    ensures found' == found && path' == path && order' == order && cameFrom' == cameFrom && stats' == stats
    ensures trace' == [] && |trace| == 1 + |Body(start, order, s.scans)| + |Ending(found, goal, path)|
  {
  }

  /**
   * The searches store their outcome into the result record, which keeps its start and goal.
   * The outcome and the summary it reproduces carry over to the record.
   */
  method Store(ghost grid: Board, res: SearchResult, cfg: AlgorithmConfig, algo: Algorithm, start: Pos, goal: Pos,
               ghost s: Summary, found: bool, path: seq<Pos>, order: seq<Pos>, cameFrom: map<Pos, Option<Pos>>,
               trace: seq<TraceEvent>, stats: SearchStats)
    requires grid.Valid() && res.start == start && res.goal == goal
    requires Outcome(grid, cfg, algo, start, goal, found, path, order, cameFrom, trace, stats)
    requires Reproduces(cfg, algo, start, goal, s, found, path, order, cameFrom, trace, stats)
    modifies res
    ensures res.start == start && res.goal == goal
    ensures res.found == found && res.path == path && res.visitedOrder == order
    ensures res.cameFrom == cameFrom && res.trace == trace && res.stats == stats
    ensures SearchOutcome(grid, res, cfg, algo, start, goal)
    ensures Recorded(res, cfg, algo, start, goal, s)
  {
    res.found, res.path, res.visitedOrder, res.cameFrom, res.trace, res.stats :=
      found, path, order, cameFrom, trace, stats;
  }
}
