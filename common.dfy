/** Helpers shared by the searches: the heuristic, path reconstruction, result set-up and trace emission. */
module Common {
  import opened Sequences
  import opened Grids
  import opened Results

  /** AlgorithmConfig; the source defaults emit_trace to true. */
  datatype AlgorithmConfig = AlgorithmConfig(emitTrace: bool)

  function Abs(n: int): nat {
    if n < 0 then -n else n
  }

  /** manhattan: |ax - bx| + |ay - by|. */
  function Manhattan(a: Pos, b: Pos): (d: nat)
    ensures d == 0 <==> a == b
  {
    Abs(a.0 - b.0) + Abs(a.1 - b.1)
  }

  lemma ManhattanSymmetric(a: Pos, b: Pos)
    ensures Manhattan(a, b) == Manhattan(b, a)
  {
  }

  lemma ManhattanTriangle(a: Pos, b: Pos, c: Pos)
    ensures Manhattan(a, c) <= Manhattan(a, b) + Manhattan(b, c)
  {
  }

  /** Every candidate neighbour is one move away, so the heuristic changes by at most 1 per move (consistency). */
  lemma ManhattanStep(p: Pos, q: Pos, goal: Pos)
    requires q in Candidates(p)
    ensures Manhattan(p, q) == 1
    ensures Manhattan(p, goal) <= Manhattan(q, goal) + 1
    ensures Manhattan(q, goal) <= Manhattan(p, goal) + 1
  {
  }

  /** The heuristic never overestimates: a walk from w[i] to its end takes at least Manhattan moves. */
  lemma {:induction false} WalkAdmissible(grid: Board, w: seq<Pos>, i: int)
    requires grid.Valid() && grid.IsWalk(w)
    requires 0 <= i < |w|
    ensures Manhattan(w[i], w[|w| - 1]) <= |w| - 1 - i
    decreases |w| - i
  {
    if i < |w| - 1 {
      WalkAdmissible(grid, w, i + 1);
      assert grid.StepAt(w, i);
      ManhattanStep(w[i], w[i + 1], w[|w| - 1]);
    }
  }

  /** common.neighbors4 delegates to the grid: the steps out of p, in the order +x, -x, +y, -y, each once. */
  method Neighbors4(grid: Grid, p: Pos) returns (r: seq<Pos>)
    requires grid.View().Valid()
    ensures r == grid.View().Neighbors(p)
    ensures forall q :: q in r <==> grid.View().IsStep(p, q)
    ensures InDirectionOrder(p, r) && Distinct(r)
  {
    r := grid.Neighbors4(p);
  }

  // ---------------------------------------------------------------------------
  // Path reconstruction

  /** dict.get: the stored value, or None for a missing key. */
  function Get(cameFrom: map<Pos, Option<Pos>>, p: Pos): Option<Pos> {
    if p in cameFrom then cameFrom[p] else None
  }

  /** rank strictly decreases along predecessor links between keys, so walking back terminates. */
  ghost predicate Ranked(cameFrom: map<Pos, Option<Pos>>, rank: map<Pos, nat>) {
    forall k {:trigger cameFrom[k]} :: k in cameFrom ==>
      k in rank &&
      (cameFrom[k].Some? && cameFrom[k].value in cameFrom ==>
         cameFrom[k].value in rank && rank[cameFrom[k].value] < rank[k])
  }

  /** The cells visited by walking predecessor links back from p until `get` yields None. */
  ghost function Chain(cameFrom: map<Pos, Option<Pos>>, rank: map<Pos, nat>, p: Pos): (c: seq<Pos>)
    requires Ranked(cameFrom, rank)
    ensures |c| > 0 && c[0] == p
    ensures Get(cameFrom, c[|c| - 1]) == None
    decreases if p in cameFrom then rank[p] + 1 else 0
  {
    match Get(cameFrom, p)
    case None => [p]
    case Some(q) => [p] + Chain(cameFrom, rank, q)
  }

  /** Each cell of the chain records the next one as its predecessor. */
  lemma {:induction false} ChainLinks(cameFrom: map<Pos, Option<Pos>>, rank: map<Pos, nat>, p: Pos)
    requires Ranked(cameFrom, rank)
    ensures forall i {:trigger Get(cameFrom, Chain(cameFrom, rank, p)[i])} :: 0 <= i < |Chain(cameFrom, rank, p)| - 1 ==>
              Get(cameFrom, Chain(cameFrom, rank, p)[i]) == Some(Chain(cameFrom, rank, p)[i + 1])
    decreases if p in cameFrom then rank[p] + 1 else 0
  {
    match Get(cameFrom, p)
    case None =>
    case Some(q) =>
      ChainLinks(cameFrom, rank, q);
      var c, d := Chain(cameFrom, rank, p), Chain(cameFrom, rank, q);
      assert c == [p] + d;
      forall i | 0 <= i < |c| - 1 ensures Get(cameFrom, c[i]) == Some(c[i + 1]) {
        if i > 0 {
          assert c[i] == d[i - 1] && c[i + 1] == d[i];
          assert Get(cameFrom, d[i - 1]) == Some(d[i]);
        } else {
          assert c[1] == d[0] == q;
        }
      }
  }

  /** Where the walk back from p stops. */
  ghost function Root(cameFrom: map<Pos, Option<Pos>>, rank: map<Pos, nat>, p: Pos): Pos
    requires Ranked(cameFrom, rank)
  {
    var c := Chain(cameFrom, rank, p);
    c[|c| - 1]
  }

  /** p ends at goal, every cell of p after the first records the cell before it as predecessor, and the first records none. */
  ghost predicate Backtrack(cameFrom: map<Pos, Option<Pos>>, goal: Pos, p: seq<Pos>) {
    && |p| > 0 && p[|p| - 1] == goal && Get(cameFrom, p[0]) == None
    && forall i {:trigger Get(cameFrom, p[i])} :: 0 < i < |p| ==> Get(cameFrom, p[i]) == Some(p[i - 1])
  }

  /** Two such sequences agree on their last k cells. */
  lemma {:induction false} BacktrackSuffix(cameFrom: map<Pos, Option<Pos>>, goal: Pos, p: seq<Pos>, q: seq<Pos>, k: nat)
    requires Backtrack(cameFrom, goal, p) && Backtrack(cameFrom, goal, q)
    requires k < |p| && k < |q|
    ensures p[|p| - 1 - k] == q[|q| - 1 - k]
  {
    if k > 0 {
      BacktrackSuffix(cameFrom, goal, p, q, k - 1);
      var i, j := |p| - k, |q| - k;
      assert Get(cameFrom, p[i]) == Some(p[i - 1]) && Get(cameFrom, q[j]) == Some(q[j - 1]);
    }
  }

  /** The predecessor map determines the back-walk from goal: there is at most one such sequence. */
  lemma BacktrackUnique(cameFrom: map<Pos, Option<Pos>>, goal: Pos, p: seq<Pos>, q: seq<Pos>)
    requires Backtrack(cameFrom, goal, p) && Backtrack(cameFrom, goal, q)
    ensures p == q
  {
    if |p| < |q| {
      BacktrackSuffix(cameFrom, goal, p, q, |p| - 1);
      assert false;
    } else if |q| < |p| {
      BacktrackSuffix(cameFrom, goal, q, p, |q| - 1);
      assert false;
    } else {
      forall i | 0 <= i < |p| ensures p[i] == q[i] {
        BacktrackSuffix(cameFrom, goal, p, q, |p| - 1 - i);
      }
    }
  }

  /**
   * The path the predecessor map records from start to goal: the back-walk from goal, front to
   * back, when goal has an entry and the walk begins at start; otherwise empty.
   */
  ghost function PathIn(cameFrom: map<Pos, Option<Pos>>, start: Pos, goal: Pos): seq<Pos> {
    if goal in cameFrom && exists p :: Backtrack(cameFrom, goal, p) && p[0] == start then
      var p :| Backtrack(cameFrom, goal, p) && p[0] == start; p
    else []
  }

  /** reconstruct_path: walk back from goal, reverse, and keep the result only if it begins at start. */
  method ReconstructPath(cameFrom: map<Pos, Option<Pos>>, start: Pos, goal: Pos, ghost rank: map<Pos, nat>)
    returns (path: seq<Pos>)
    requires Ranked(cameFrom, rank)
    ensures goal !in cameFrom ==> path == []
    ensures goal in cameFrom ==> (path != [] <==> Root(cameFrom, rank, goal) == start)
    ensures path != [] ==> path[0] == start && path[|path| - 1] == goal
    ensures path != [] ==> Get(cameFrom, path[0]) == None
    ensures forall i {:trigger Get(cameFrom, path[i])} :: 0 < i < |path| ==> Get(cameFrom, path[i]) == Some(path[i - 1])
    ensures path == PathIn(cameFrom, start, goal)
  {
    if goal !in cameFrom {
      return [];
    }
    var cur: Option<Pos> := Some(goal);
    path := [];
    while cur.Some?
      invariant cur.Some? ==> path + Chain(cameFrom, rank, cur.value) == Chain(cameFrom, rank, goal)
      invariant cur.None? ==> path == Chain(cameFrom, rank, goal)
      decreases if cur.None? then 0 else if cur.value in cameFrom then rank[cur.value] + 2 else 1
    {
      var p := cur.value;
      ghost var before := path;
      path := path + [p];
      cur := Get(cameFrom, p);
      match cur {
        case None =>
          assert Chain(cameFrom, rank, p) == [p];
        case Some(q) =>
          assert Chain(cameFrom, rank, p) == [p] + Chain(cameFrom, rank, q);
          assert path + Chain(cameFrom, rank, q) == before + ([p] + Chain(cameFrom, rank, q));
      }
    }
    ghost var chain := path;
    path := Reverse(path);
    LinksReversed(cameFrom, rank, goal, chain, path);
    BacktrackPathIn(cameFrom, start, goal, path);
    if path == [] || path[0] != start {
      path := [];
    }
  }

  /** The back-walk from goal is PathIn when it begins at start; otherwise PathIn is empty. */
  lemma BacktrackPathIn(cameFrom: map<Pos, Option<Pos>>, start: Pos, goal: Pos, path: seq<Pos>)
    requires goal in cameFrom && |path| > 0 && path[|path| - 1] == goal && Get(cameFrom, path[0]) == None
    requires forall i {:trigger Get(cameFrom, path[i])} :: 0 < i < |path| ==> Get(cameFrom, path[i]) == Some(path[i - 1])
    ensures path[0] == start ==> PathIn(cameFrom, start, goal) == path
    ensures path[0] != start ==> PathIn(cameFrom, start, goal) == []
  {
    assert Backtrack(cameFrom, goal, path);
    if path[0] == start {
      BacktrackUnique(cameFrom, goal, path, PathIn(cameFrom, start, goal));
    } else {
      forall p | Backtrack(cameFrom, goal, p) ensures p[0] != start {
        BacktrackUnique(cameFrom, goal, p, path);
      }
    }
  }

  /** Reversing the chain from goal turns its predecessor links into forward steps. */
  lemma LinksReversed(cameFrom: map<Pos, Option<Pos>>, rank: map<Pos, nat>, goal: Pos, chain: seq<Pos>, path: seq<Pos>)
    requires Ranked(cameFrom, rank)
    requires chain == Chain(cameFrom, rank, goal)
    requires |path| == |chain| && forall k :: 0 <= k < |path| ==> path[k] == chain[|chain| - 1 - k]
    ensures |path| > 0 && path[0] == Root(cameFrom, rank, goal) && path[|path| - 1] == goal
    ensures Get(cameFrom, path[0]) == None
    ensures forall i {:trigger Get(cameFrom, path[i])} :: 0 < i < |path| ==> Get(cameFrom, path[i]) == Some(path[i - 1])
  {
    var n := |chain|;
    ChainLinks(cameFrom, rank, goal);
    forall i | 0 < i < n ensures Get(cameFrom, path[i]) == Some(path[i - 1]) {
      var j := n - 1 - i;
      assert path[i] == chain[j] && path[i - 1] == chain[j + 1];
      assert Get(cameFrom, chain[j]) == Some(chain[j + 1]);
    }
  }

  // ---------------------------------------------------------------------------
  // Result set-up and trace emission

  /** new_result: a fresh record, not found, whose predecessor map holds only start -> None. */
  method NewResult(start: Pos, goal: Pos) returns (r: SearchResult)
    ensures fresh(r)
    ensures !r.found && r.start == start && r.goal == goal
    ensures r.cameFrom == map[start := None]
    ensures r.path == [] && r.visitedOrder == [] && r.trace == [] && r.stats == DefaultStats
  {
    r := new SearchResult(false, start, goal);
    r.cameFrom := r.cameFrom[start := None];
  }

  /** emit: append the event to the trace when tracing is on; nothing else changes. */
  method Emit(res: SearchResult, cfg: AlgorithmConfig, e: TraceEvent)
    modifies res`trace
    ensures res.trace == old(res.trace) + (if cfg.emitTrace then [e] else [])
  {
    if cfg.emitTrace {
      res.trace := res.trace + [e];
    }
  }

  /** The trace a run leaves behind when its full event log is `log`. */
  function Gated(cfg: AlgorithmConfig, log: seq<TraceEvent>): seq<TraceEvent> {
    if cfg.emitTrace then log else []
  }

  /** Emitting one more event extends the gated log by that event. */
  lemma GatedSnoc(cfg: AlgorithmConfig, t: seq<TraceEvent>, log: seq<TraceEvent>, e: TraceEvent)
    ensures t + Gated(cfg, log) + Gated(cfg, [e]) == t + Gated(cfg, log + [e])
  {
    if cfg.emitTrace {
      assert t + log + [e] == t + (log + [e]);
    }
  }

  datatype EventKind = AddKind | PopKind | VisitKind

  predicate OfKind(e: TraceEvent, k: EventKind) {
    match k
    case AddKind => e.FrontierAdd?
    case PopKind => e.FrontierPop?
    case VisitKind => e.Visit?
  }

  /** The events a search emits between init and the final goal_found/path/done events. */
  predicate IsSearchEvent(e: TraceEvent) {
    e.FrontierAdd? || e.FrontierPop? || e.Visit?
  }

  /** The payloads of the events of kind k in t, in order. */
  function Positions(t: seq<TraceEvent>, k: EventKind): seq<Pos> {
    if t == [] then []
    else Positions(t[..|t| - 1], k) + (if OfKind(t[|t| - 1], k) then [t[|t| - 1].pos] else [])
  }

  lemma PositionsSnoc(t: seq<TraceEvent>, e: TraceEvent)
    ensures forall k :: Positions(t + [e], k) == Positions(t, k) + (if OfKind(e, k) then [e.pos] else [])
  {
    assert (t + [e])[..|t|] == t;
  }

  /** A frontier_add for each cell of cells, in order. */
  function Adds(cells: seq<Pos>): (t: seq<TraceEvent>)
    ensures |t| == |cells| && forall i :: 0 <= i < |cells| ==> t[i] == FrontierAdd(cells[i])
  {
    if cells == [] then [] else Adds(cells[..|cells| - 1]) + [FrontierAdd(cells[|cells| - 1])]
  }

  lemma AddsSnoc(cells: seq<Pos>, c: Pos)
    ensures Adds(cells + [c]) == Adds(cells) + [FrontierAdd(c)]
  {
    assert (cells + [c])[..|cells|] == cells;
  }

  /**
   * The events of the expansions, one block per expanded cell: its frontier_pop and its visit,
   * then a frontier_add for each cell its scan put on the frontier (scans[i] for order[i]).
   */
  function Blocks(order: seq<Pos>, scans: seq<seq<Pos>>): seq<TraceEvent>
    requires |scans| == |order|
  {
    if order == [] then []
    else Blocks(order[..|order| - 1], scans[..|scans| - 1])
         + [FrontierPop(order[|order| - 1]), Visit(order[|order| - 1])] + Adds(scans[|scans| - 1])
  }

  /** The events between init and the closing events: start enters the frontier, then the blocks. */
  function Body(start: Pos, order: seq<Pos>, scans: seq<seq<Pos>>): seq<TraceEvent>
    requires |scans| == |order|
  {
    [FrontierAdd(start)] + Blocks(order, scans)
  }

  /** Expanding one more cell appends its block. */
  lemma BodySnoc(start: Pos, order: seq<Pos>, scans: seq<seq<Pos>>, c: Pos, scan: seq<Pos>)
    requires |scans| == |order|
    ensures Body(start, order + [c], scans + [scan])
            == Body(start, order, scans) + [FrontierPop(c), Visit(c)] + Adds(scan)
  {
    assert (order + [c])[..|order|] == order;
    assert (scans + [scan])[..|scans|] == scans;
  }

  /** The events that close a run. */
  function Ending(found: bool, goal: Pos, path: seq<Pos>): seq<TraceEvent> {
    if found then [GoalFound(goal), PathEvent(path), Done(true)] else [Done(false)]
  }

  /**
   * The shape of a search trace: init, then only frontier_add / frontier_pop / visit events,
   * whose pops and visits follow `order` and whose adds name each cell of `frontier` once,
   * then goal_found, path, done (found) or done (not found).
   */
  ghost predicate SearchTrace(t: seq<TraceEvent>, algo: Algorithm, start: Pos, goal: Pos, found: bool,
                              path: seq<Pos>, order: seq<Pos>, frontier: set<Pos>)
  {
    var tail := Ending(found, goal, path);
    |t| >= 1 + |tail| && t[0] == Init(algo, start, goal) && t[|t| - |tail|..] == tail &&
    var body := t[1..|t| - |tail|];
    (forall i :: 0 <= i < |body| ==> IsSearchEvent(body[i])) &&
    Positions(body, PopKind) == order && Positions(body, VisitKind) == order &&
    Distinct(Positions(body, AddKind)) &&
    (forall p :: p in Positions(body, AddKind) <==> p in frontier) &&
    (found && start != goal ==> |body| > 0 && body[|body| - 1] == Visit(goal))
  }
}
