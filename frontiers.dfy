/**
 * The reference for the loops of bfs.run and dfs.run: one step function on the loop state,
 * iterated from the start. The two loops differ only in which end of the frontier they pop;
 * both push at the back. Nothing here depends on the trace flag.
 */
module Frontiers {
  import opened Sequences
  import opened Grids
  import opened Results
  import opened Common
  import opened SearchFacts

  /** Which end of the frontier a turn pops: the front (a queue) or the back (a stack). */
  datatype Discipline = Fifo | Lifo

  /** The cell the next turn pops. */
  function Top(d: Discipline, frontier: seq<Pos>): Pos
    requires frontier != []
  {
    if d == Fifo then frontier[0] else frontier[|frontier| - 1]
  }

  /** The frontier once its top is popped: what is left on either side of it, in order. */
  function Rest(d: Discipline, frontier: seq<Pos>): (r: seq<Pos>)
    requires frontier != []
    ensures d == Fifo ==> frontier == [Top(d, frontier)] + r
    ensures d == Lifo ==> frontier == r + [Top(d, frontier)]
  {
    if d == Fifo then frontier[1..] else frontier[..|frontier| - 1]
  }

  /**
   * The loop state: the frontier, the visited set, the predecessor map, the expanded cells, the
   * cells each expansion pushed, and whether goal was reached.
   */
  datatype Sweep = Sweep(frontier: seq<Pos>, visited: set<Pos>, cameFrom: map<Pos, Option<Pos>>,
                         order: seq<Pos>, scans: seq<seq<Pos>>, found: bool)

  /** The state when the loop begins: start alone is on the frontier and visited; the loop takes at least one turn. */
  function Begin(start: Pos): (s: Sweep)
    ensures !Halted(s) && start in s.visited && start in s.cameFrom
  {
    Sweep([start], {start}, map[start := None], [], [], false)
  }

  /** The loop stops when goal was reached or the frontier is empty. */
  predicate Halted(s: Sweep) {
    s.found || s.frontier == []
  }

  /**
   * One turn of the loop: pop the top of the frontier and expand it; stop at goal, and otherwise
   * push its unvisited neighbours at the back, in the order +x, -x, +y, -y, each linked to it.
   */
  ghost function Step(b: Board, d: Discipline, goal: Pos, s: Sweep): Sweep
    requires b.Valid()
  {
    if Halted(s) then s
    else
      var c, rest := Top(d, s.frontier), Rest(d, s.frontier);
      if c == goal then s.(frontier := rest, order := s.order + [c], scans := s.scans + [[]], found := true)
      else
        var news := Unvisited(b.Neighbors(c), s.visited);
        Sweep(rest + news, s.visited + Elements(news), Link(s.cameFrom, news, c), s.order + [c],
              s.scans + [news], false)
  }

  /** The state after n turns of the loop from Begin(start). */
  ghost function Sweeps(b: Board, d: Discipline, start: Pos, goal: Pos, n: nat): Sweep
    requires b.Valid()
    decreases n, 1
  {
    if n == 0 then Begin(start) else SweepAfter(b, d, start, goal, n)
  }

  /** The n-th turn, n > 0, taken after the first n - 1. */
  ghost function SweepAfter(b: Board, d: Discipline, start: Pos, goal: Pos, n: nat): Sweep
    requires b.Valid() && n > 0
    decreases n, 0
  {
    Step(b, d, goal, Sweeps(b, d, start, goal, n - 1))
  }

  /** The loop has stopped after n turns. */
  ghost predicate HaltsAfter(b: Board, d: Discipline, start: Pos, goal: Pos, n: nat)
    requires b.Valid()
  {
    Halted(Sweeps(b, d, start, goal, n))
  }

  /**
   * The state the loop ends in: the first halted one, which stays put. (The loop always halts;
   * the else branch only makes the definition total.)
   */
  ghost function Ended(b: Board, d: Discipline, start: Pos, goal: Pos): Sweep
    requires b.Valid()
  {
    if exists n: nat :: HaltsAfter(b, d, start, goal, n) then
      var n: nat :| HaltsAfter(b, d, start, goal, n); Sweeps(b, d, start, goal, n)
    else Begin(start)
  }

  function Summarize(s: Sweep): Summary {
    Summary(s.found, s.order, s.cameFrom, s.scans)
  }

  /** After the loop halts it stays halted in the same state. */
  lemma {:induction false} SweepsHalted(b: Board, d: Discipline, start: Pos, goal: Pos, n: nat, m: nat)
    requires b.Valid() && HaltsAfter(b, d, start, goal, n) && n <= m
    ensures Sweeps(b, d, start, goal, m) == Sweeps(b, d, start, goal, n)
    decreases m
  {
    if m > n {
      SweepsHalted(b, d, start, goal, n, m - 1);
      assert Sweeps(b, d, start, goal, m) == SweepAfter(b, d, start, goal, m);
    }
  }

  /** A loop that halts after n turns ends in Sweeps(n). */
  lemma EndedAt(b: Board, d: Discipline, start: Pos, goal: Pos, n: nat)
    requires b.Valid() && HaltsAfter(b, d, start, goal, n)
    ensures Ended(b, d, start, goal) == Sweeps(b, d, start, goal, n)
  {
    var m: nat :| HaltsAfter(b, d, start, goal, m) && Ended(b, d, start, goal) == Sweeps(b, d, start, goal, m);
    if m <= n {
      SweepsHalted(b, d, start, goal, m, n);
    } else {
      SweepsHalted(b, d, start, goal, n, m);
    }
  }

  /**
   * The pop order of a stack: after a turn that expands a cell other than goal, the next cell
   * popped is the last neighbour that turn pushed, or the cell below the popped one when it
   * pushed none. The queue, by contrast, pops the cell that was behind the popped one.
   */
  lemma PopsLatest(b: Board, d: Discipline, goal: Pos, s: Sweep)
    requires b.Valid() && !Halted(s) && Top(d, s.frontier) != goal
    requires !Halted(Step(b, d, goal, s))
    ensures var news := Unvisited(b.Neighbors(Top(d, s.frontier)), s.visited);
            var next := Top(d, Step(b, d, goal, s).frontier);
            && (d == Lifo && news != [] ==> next == news[|news| - 1])
            && (d == Lifo && news == [] ==> next == s.frontier[|s.frontier| - 2])
            && (d == Fifo && |s.frontier| > 1 ==> next == s.frontier[1])
  {
    var f := s.frontier;
    var news := Unvisited(b.Neighbors(Top(d, f)), s.visited);
    var f' := Rest(d, f) + news;
    assert Step(b, d, goal, s).frontier == f';
    if d == Lifo && news == [] {
      assert f' == f[..|f| - 1];
    }
    if d == Fifo && |f| > 1 {
      assert f'[0] == f[1..][0];
    }
  }

  /** Where the loop stands after n turns: the state, its expansions and the body of the trace. */
  ghost predicate Turns(b: Board, d: Discipline, start: Pos, goal: Pos, s: Sweep, body: seq<TraceEvent>)
    requires b.Valid()
  {
    && |s.scans| == |s.order|
    && s == Sweeps(b, d, start, goal, |s.order|)
    && body == Body(start, s.order, s.scans)
  }

  /** Before the first turn. */
  lemma TurnsBegin(b: Board, d: Discipline, start: Pos, goal: Pos)
    requires b.Valid()
    ensures Turns(b, d, start, goal, Begin(start), [FrontierAdd(start)])
  {
  }

  /** A turn that pops goal: the next state is the halted one, and the body gains the pop and visit of goal. */
  lemma TurnsFound(b: Board, d: Discipline, start: Pos, goal: Pos, s: Sweep, body: seq<TraceEvent>)
    requires b.Valid() && Turns(b, d, start, goal, s, body) && !s.found && s.frontier != []
    requires Top(d, s.frontier) == goal
    ensures Turns(b, d, start, goal, s.(frontier := Rest(d, s.frontier), order := s.order + [goal],
                                        scans := s.scans + [[]], found := true),
                  body + [FrontierPop(goal), Visit(goal)])
  {
    assert Sweeps(b, d, start, goal, |s.order| + 1) == SweepAfter(b, d, start, goal, |s.order| + 1);
    BodySnoc(start, s.order, s.scans, goal, []);
    assert body + [FrontierPop(goal), Visit(goal)] + Adds([]) == body + [FrontierPop(goal), Visit(goal)];
  }

  /** Once the loop halts, it stays in the state Ended describes. */
  lemma TurnsEnded(b: Board, d: Discipline, start: Pos, goal: Pos, s: Sweep, body: seq<TraceEvent>)
    requires b.Valid() && Turns(b, d, start, goal, s, body) && Halted(s)
    ensures Ended(b, d, start, goal) == s
  {
    EndedAt(b, d, start, goal, |s.order|);
  }

  /**
   * The scan state after the neighbours nbs: the cells among them not in visited0 are pushed at
   * the back of the frontier, visited, linked to current and reported, in order.
   */
  ghost predicate Enqueued(nbs: seq<Pos>, current: Pos, frontier0: seq<Pos>, visited0: set<Pos>,
                           cameFrom0: map<Pos, Option<Pos>>, body0: seq<TraceEvent>, frontier: seq<Pos>,
                           visited: set<Pos>, cameFrom: map<Pos, Option<Pos>>, body: seq<TraceEvent>)
  {
    && frontier == frontier0 + Unvisited(nbs, visited0)
    && visited == visited0 + Elements(Unvisited(nbs, visited0))
    && cameFrom == Link(cameFrom0, Unvisited(nbs, visited0), current)
    && body == body0 + Adds(Unvisited(nbs, visited0))
  }

  /** Before the first neighbour nothing is pushed. */
  lemma EnqueuedNone(current: Pos, frontier0: seq<Pos>, visited0: set<Pos>, cameFrom0: map<Pos, Option<Pos>>,
                     body0: seq<TraceEvent>)
    ensures Enqueued([], current, frontier0, visited0, cameFrom0, body0, frontier0, visited0, cameFrom0, body0)
  {
    assert frontier0 + [] == frontier0 && body0 + [] == body0;
  }

  /** nbs[i] is visited exactly when it was before the scan, and pushing it extends Enqueued by one. */
  lemma EnqueuedNext(nbs: seq<Pos>, i: int, current: Pos, frontier0: seq<Pos>, visited0: set<Pos>,
                     cameFrom0: map<Pos, Option<Pos>>, body0: seq<TraceEvent>, frontier: seq<Pos>,
                     visited: set<Pos>, cameFrom: map<Pos, Option<Pos>>, body: seq<TraceEvent>)
    requires 0 <= i < |nbs| && Distinct(nbs)
    requires Enqueued(nbs[..i], current, frontier0, visited0, cameFrom0, body0, frontier, visited, cameFrom, body)
    ensures nbs[i] in visited <==> nbs[i] in visited0
    ensures nbs[i] in visited ==>
              Enqueued(nbs[..i + 1], current, frontier0, visited0, cameFrom0, body0, frontier, visited, cameFrom, body)
    ensures nbs[i] !in visited ==>
              Enqueued(nbs[..i + 1], current, frontier0, visited0, cameFrom0, body0, frontier + [nbs[i]],
                       visited + {nbs[i]}, cameFrom[nbs[i] := Some(current)], body + [FrontierAdd(nbs[i])])
  {
    var nb, news := nbs[i], Unvisited(nbs[..i], visited0);
    UnvisitedNext(nbs, i, visited0);
    assert nb !in Elements(news);
    if nb !in visited0 {
      var news' := news + [nb];
      assert Unvisited(nbs[..i + 1], visited0) == news';
      LinkSnoc(cameFrom0, news, current, nb);
      AddsSnoc(news, nb);
      SnocAssoc(frontier0, news, nb);
      SnocAssoc(body0, Adds(news), FrontierAdd(nb));
      ElementsSnoc(news, nb);
    } else {
      assert Unvisited(nbs[..i + 1], visited0) == news;
    }
  }

  /**
   * A turn that pops a cell other than goal and scans its neighbours is a Step: the state and the
   * trace body of the next turn.
   */
  lemma TurnsScanned(b: Board, d: Discipline, start: Pos, goal: Pos, s: Sweep, body: seq<TraceEvent>,
                     frontier: seq<Pos>, visited: set<Pos>, cameFrom: map<Pos, Option<Pos>>, body': seq<TraceEvent>)
    requires b.Valid() && Turns(b, d, start, goal, s, body) && !s.found && s.frontier != []
    requires Top(d, s.frontier) != goal
    requires Enqueued(b.Neighbors(Top(d, s.frontier)), Top(d, s.frontier), Rest(d, s.frontier), s.visited,
                      s.cameFrom, body + [FrontierPop(Top(d, s.frontier)), Visit(Top(d, s.frontier))],
                      frontier, visited, cameFrom, body')
    ensures Turns(b, d, start, goal,
                  Sweep(frontier, visited, cameFrom, s.order + [Top(d, s.frontier)],
                        s.scans + [Unvisited(b.Neighbors(Top(d, s.frontier)), s.visited)], false), body')
  {
    var c := Top(d, s.frontier);
    assert Sweeps(b, d, start, goal, |s.order| + 1) == SweepAfter(b, d, start, goal, |s.order| + 1);
    BodySnoc(start, s.order, s.scans, c, Unvisited(b.Neighbors(c), s.visited));
  }
}
