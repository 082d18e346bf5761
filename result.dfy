/** The output record shared by the three searches, and the events of their trace. */
module Results {
  import opened Grids

  datatype Option<T> = None | Some(value: T)

  /** Which search wrote a trace (the `algo` entry of the init payload). */
  datatype Algorithm = BFS | DFS | AStar

  /** One trace entry; each kind carries only its own payload. */
  datatype TraceEvent =
    | Init(algo: Algorithm, start: Pos, goal: Pos)
    | FrontierAdd(pos: Pos)
    | FrontierPop(pos: Pos)
    | Visit(pos: Pos)
    | GoalFound(pos: Pos)
    | PathEvent(path: seq<Pos>)
    | Done(found: bool)

  /** SearchStats; every counter defaults to 0. */
  datatype SearchStats = SearchStats(expanded: int, visited: int, pathLength: int)

  const DefaultStats := SearchStats(0, 0, 0)

  class SearchResult {
    var found: bool
    var start: Pos
    var goal: Pos
    /** The final path, start..goal. */
    var path: seq<Pos>
    var visitedOrder: seq<Pos>
    /** Predecessor of each discovered cell; None marks the start. */
    var cameFrom: map<Pos, Option<Pos>>
    var stats: SearchStats
    var trace: seq<TraceEvent>

    /** found, start and goal are supplied; every other field starts empty or zero. */
    constructor (found: bool, start: Pos, goal: Pos)
      ensures this.found == found && this.start == start && this.goal == goal
      ensures path == [] && visitedOrder == [] && cameFrom == map[]
      ensures stats == DefaultStats && trace == []
    {
      this.found := found;
      this.start := start;
      this.goal := goal;
      path := [];
      visitedOrder := [];
      cameFrom := map[];
      stats := DefaultStats;
      trace := [];
    }
  }
}
