# Wrath of the Path: the search engine and the maze generator

Wrath of the Path is a small grid path-finding game. Its core is a binary obstacle grid with
4-connected adjacency. Three searches (breadth-first, depth-first and A*) run over it. Each one
records:
- the cells it expanded, in order;
- the predecessor map of every cell it discovered;
- counters, and the reconstructed path;
- a replayable trace of `init`, `frontier_add`, `frontier_pop`, `visit`, `goal_found`, `path`
  and `done` events.

A randomized recursive backtracker carves mazes into the grid. A player token walks the found
path, one cell per step delay, and a step timer paces the animation. Small integer geometry maps
board cells to screen pixels and back.

The project models this core in Dafny:

| module | file | models |
|---|---|---|
| `Sequences` | sequences.dfy | helpers: duplicate-free sequences, reversal |
| `Grids` | grid.dfy | `Grid`; its contents at one moment as the value `Board` |
| `Results` | result.dfy | `SearchStats`, `SearchResult`, trace events, `Option` |
| `Common` | common.dfy | `manhattan`, `reconstruct_path`, `new_result`, `emit`, `neighbors4` |
| `SearchFacts` | searchfacts.dfy | invariants shared by the three searches; what a run promises |
| `Frontiers` | frontiers.dfy | the loop of `bfs.run` and `dfs.run` as a step function on its state |
| `Bfs`, `Dfs` | bfs.dfy, dfs.dfy | `bfs.run`, `dfs.run` |
| `HeapQueue`, `Astar` | heapqueue.dfy, astar.dfy | `heapq` push/pop; `astar.run` |
| `Mazes` | maze.dfy | `MazeGenerator.generate`, `clamp_odd`, `cell_neighbors`, `_neighbors_in_bounds` |
| `Players` | player.dfy | `Player` |
| `Timing` | timing.dfy | `StepTimer` |
| `Math2D` | math2d.dfy | `Rect`, `clamp`, `grid_to_screen`, `screen_to_grid` |

The grid, the player and the timer are classes whose methods update their fields in place.
The result record is a class too: it has only a constructor, and the module-level `NewResult`,
`Emit` and the searches fill in its fields. The searches work on local sets, queues and maps in
`while` loops. They are methods proved against value-level predicates in `SearchFacts`. Together
these say:
- the expansion order is duplicate-free and begins at start;
- every discovered cell links back by one step to an expanded cell;
- `found` holds exactly when goal was expanded;
- a found path is a duplicate-free walk from start to goal;
- a run that does not find goal proves goal unreachable, by a set closed under steps;
- for BFS and A*, the found path is shortest.

Each search is also proved against a reference: its loop written as a step function on the
loop state (`Frontiers.Step` for BFS and DFS, which differ only in the end of the frontier they
pop, and `Astar.Step`). `Ended` is the state in which that loop stops. The reference does not
mention the trace flag. Each `Run` ensures that its record holds what `Ended` determines:
- `found`, `visited_order` and `came_from`;
- the path reconstructed from them, and the counters;
- the trace.

The trace is `init`; then `frontier_add(start)`; then one block per expanded cell `c`, in
order: `frontier_pop(c)`, `visit(c)`, and a `frontier_add` for each cell the scan of `c`
reported; then `goal_found`, `path` and `done` as the outcome demands. All of it is empty
when tracing is off. So the trace flag changes nothing but the trace
(`SearchFacts.TraceFlagFree`).

The maze generator keeps the source's loops. The backtracker's random choices come from an
oracle `pick`: the n-th choice among k options is `pick(n) % k`.

## Model

| member | source | states |
|---|---|---|
| Grids.Grid.Filled | src/core/grid.py:15-18 | a width x height grid whose every in-bounds cell holds the given wall value |
| Grids.CellSetSize | src/core/grid.py:15-18 | a w x h board has exactly w * h cells (used to bound the discovered sets) |
| Grids.Board.InBounds | src/core/grid.py:20-22 | true exactly for the cells of the board |
| Grids.Board.WallAfterSet | src/core/grid.py:24-30 | after `set_wall(p, v)`, `is_wall` reads v at p and the old value at every other cell |
| Grids.Board.IsWalkable | src/core/grid.py:32-33 | true exactly for the cells of the board that are not walls |
| Grids.Board.WalkableAfterSet | src/core/grid.py:28-33 | after `set_wall(p, v)`, p is walkable exactly when v is false; every other cell keeps its walkability |
| Grids.Board.Neighbors | src/core/grid.py:35-40 | the walkable cells among +x, -x, +y, -y, in that order, each once |
| Grids.Board.With | src/core/grid.py:28-30 | after setting cell p, p holds the new value; every other cell is unchanged; the size is unchanged |
| Grids.Grid.SetWall | src/core/grid.py:28-30 | the grid's new contents are the old contents with cell p set |
| Grids.Grid.Neighbors4 | src/core/grid.py:35-40 | yields exactly the walkable cells among +x, -x, +y, -y, in that order, each once |
| Results.SearchResult.constructor | src/core/result.py:16-28 | found, start and goal as given; path, visited order, predecessor map and trace empty; counters zero |
| Common.Manhattan | src/algorithms/common.py:15-16 | the distance is zero exactly when the two cells are equal |
| Common.ManhattanSymmetric | src/algorithms/common.py:15-16 | the distance is symmetric |
| Common.ManhattanTriangle | src/algorithms/common.py:15-16 | the distance obeys the triangle inequality |
| Common.ManhattanStep | src/algorithms/common.py:15-16 | a 4-neighbour is at distance 1, so the heuristic changes by at most 1 per move (consistent) |
| Common.WalkAdmissible | src/algorithms/common.py:15-16 | no walk from a cell to the end of the walk is shorter than their distance (admissible) |
| Common.Neighbors4 | src/algorithms/common.py:47-48 | returns exactly the cells one step from p, in the order +x, -x, +y, -y, each once |
| Common.Chain | src/algorithms/common.py:22-26 | walking predecessor links back from p starts at p and ends at a cell with no predecessor |
| Common.ChainLinks | src/algorithms/common.py:22-26 | each cell of the back-walk records the next cell as its predecessor |
| Common.LinksReversed | src/algorithms/common.py:27 | the reversed back-walk runs from the root to goal, each cell's predecessor being the cell before it |
| Common.ReconstructPath | src/algorithms/common.py:19-30 | empty when goal has no entry; otherwise non-empty exactly when the back-walk reaches start, and then a start..goal path whose every cell's predecessor is the cell before it |
| Common.NewResult | src/algorithms/common.py:33-36 | a fresh record, not found, whose predecessor map holds only start -> None |
| Common.Emit | src/algorithms/common.py:39-41 | appends the event exactly when tracing is on; nothing else changes |
| Common.GatedSnoc | src/algorithms/common.py:39-41 | emitting events one at a time gives the gated log of all of them |
| Common.BacktrackUnique | src/algorithms/common.py:22-26 | the predecessor map determines the back-walk from goal: there is at most one |
| Common.BacktrackPathIn | src/algorithms/common.py:19-30 | the walked-back path is the reconstructed path when it begins at start; otherwise the reconstruction is empty |
| Common.BodySnoc | src/algorithms/bfs.py:31-50 | expanding one more cell appends its block: `frontier_pop`, `visit`, then its `frontier_add`s |
| SearchFacts.ReconstructedWalk | src/algorithms/common.py:19-30 | a reconstructed path is a duplicate-free walk from start to goal, one longer than goal's rank |
| SearchFacts.RankBelowSize | src/algorithms/astar.py:58-59 | a discovered cell's cost is below the number of discovered cells |
| SearchFacts.DiscoveredBound | src/algorithms/astar.py:58-59 | a set of start and in-bounds cells has at most width * height + 1 members, so costs stay below the 10**9 sentinel |
| SearchFacts.ClosedUnreachable | src/algorithms/bfs.py:31-50 | when the expanded set is closed under steps and misses goal, goal is unreachable from start |
| SearchFacts.WalkLowerBound | src/algorithms/astar.py:35-67 | when every step out of the closed set is relaxed, and every open estimate g + h is at least d, no walk from start to goal is shorter than d |
| SearchFacts.CloseSearch | src/algorithms/bfs.py:52-59 | the loop's invariants, the path, the counters and the closing events give the documented outcome |
| SearchFacts.UnvisitedOrder | src/algorithms/bfs.py:44-47 | the neighbours a scan skips are exactly the visited ones; the rest keep the +x, -x, +y, -y order |
| SearchFacts.TraceFlagFree | src/algorithms/common.py:39-41 | two runs with the same loop summary, tracing on and off, agree on found, path, expansion order, predecessor map and counters; the untraced run has an empty trace |
| SearchFacts.Store | src/algorithms/bfs.py:35-59 | the record keeps start and goal and takes the outcome, so it holds exactly what the summary determines |
| SearchFacts.Conclude | src/algorithms/bfs.py:52-59 | the shared closing block: sets `stats.visited`; when found, reconstructs the path and emits `path`; emits `done`; the outcome holds |
| Frontiers.Begin | src/algorithms/bfs.py:25-29 | the state before the loop (dfs.py:23-26 likewise): start alone on the frontier, visited and linked to nothing; it is not halted, so the loop takes at least one turn |
| Frontiers.Step | src/algorithms/bfs.py:31-50 | the reference turn, without a contract of its own (dfs.py:28-47 with `Lifo`): a halted state stays; otherwise the top is popped and recorded, goal stops the loop with an empty scan, and any other cell pushes `Unvisited(Neighbors(c), visited)` at the back, marks those cells visited and links them to c; its properties are `Frontiers.PopsLatest`, `Frontiers.TurnsFound` and `Frontiers.TurnsScanned` |
| Frontiers.Ended | src/algorithms/bfs.py:31-50 | the reference's final state, without a contract of its own (dfs.py:28-47 likewise): the first halted state of the turns from `Begin`; `Frontiers.EndedAt` pins it to the turn at which the loop stops |
| Frontiers.Rest | src/algorithms/bfs.py:32 | `popleft` takes the front and the rest keeps its order; for the stack (dfs.py:29) `pop` takes the back |
| Frontiers.PopsLatest | src/algorithms/dfs.py:29-47 | on the stack, the next cell popped after an expansion is the last cell it pushed, or the cell below the popped one when it pushed none; on the queue, the cell behind the popped one |
| Frontiers.EndedAt | src/algorithms/bfs.py:31-50 | a loop that stops after n turns ends in the state after n turns |
| Frontiers.TurnsFound | src/algorithms/bfs.py:32-42 | a turn that pops goal records it, ends the loop, and adds its pop and visit to the trace |
| Frontiers.EnqueuedNext | src/algorithms/bfs.py:44-50 | a neighbour is skipped exactly when it was visited before the scan; otherwise it is pushed, visited, linked and reported |
| Frontiers.TurnsScanned | src/algorithms/bfs.py:31-50 | a turn that pops another cell and scans its neighbours is one step of the reference, and appends its block to the trace |
| Frontiers.TurnsEnded | src/algorithms/bfs.py:31-50 | once the loop halts, its state is the one the reference ends in |
| Bfs.PopStep | src/algorithms/bfs.py:32-42 | popping the queue front keeps the invariants; when it is goal, no walk is shorter than its recorded depth |
| Bfs.Discover | src/algorithms/bfs.py:45-50 | one neighbour keeps the loop invariants; the first i + 1 neighbours are then discovered at depth at most level + 1, and the queue, visited set, links and trace body are those at the scan start extended by `Unvisited(nbs[..i + 1], visited0)`: the neighbour is added exactly when it was not visited before the scan |
| Bfs.Scan | src/algorithms/bfs.py:44-50 | the neighbour loop discovers every unvisited step out of the current cell; depths, links and trace stay consistent |
| Bfs.Expand | src/algorithms/bfs.py:44-50 | scanning the popped non-goal cell completes one reference `Step` from the state before the pop; the invariants hold with the cell done, and discovered minus queued cells stays the same |
| Bfs.Turn | src/algorithms/bfs.py:31-50 | one iteration is one step of the reference: it expands the queue front and stops at goal or scans |
| Bfs.Explore | src/algorithms/bfs.py:25-50 | the loop ends in the reference's final state; it expands start first; found holds exactly when goal was expanded, last, at minimal depth; otherwise goal is unreachable |
| Bfs.Search | src/algorithms/bfs.py:25-59 | the full outcome of a search with start != goal, as the reference determines it; a found path is shortest |
| Bfs.Run | src/algorithms/bfs.py:10-59 | start == goal gives the one-cell result and its four-event trace; otherwise the record holds what the reference determines, and a found path is shortest |
| Dfs.PopStep | src/algorithms/dfs.py:29-39 | popping the stack top keeps the invariants and moves to scanning its neighbours |
| Dfs.PushedOnTop | src/algorithms/dfs.py:41-47 | the old stack stays below; above it lie the unvisited steps out of the current cell, in the order +x, -x, +y, -y |
| Dfs.Discover | src/algorithms/dfs.py:42-47 | one neighbour keeps the loop invariants; the first i + 1 neighbours are then visited, and the stack, visited set, links and trace body are those at the scan start extended by `Unvisited(nbs[..i + 1], visited0)`: the neighbour is pushed exactly when it was not visited before the scan, one pushed cell per newly visited one |
| Dfs.Scan | src/algorithms/dfs.py:41-47 | pushes exactly the unvisited steps out of the current cell on top of the old stack, in the order +x, -x, +y, -y; marks them visited, links and reports them |
| Dfs.StackExhausted | src/algorithms/dfs.py:28-47 | an emptied stack means goal is unreachable from start |
| Dfs.Expand | src/algorithms/dfs.py:41-47 | scanning the popped non-goal cell completes one reference `Step` from the state before the pop; the invariants hold with the cell done, and discovered minus stacked cells stays the same |
| Dfs.Turn | src/algorithms/dfs.py:28-47 | one iteration is one step of the reference: it expands the stack top and stops at goal or scans |
| Dfs.Explore | src/algorithms/dfs.py:23-47 | the loop ends in the reference's final state, so each expansion pops the last cell pushed; it expands start first; found holds exactly when goal was expanded, last; otherwise goal is unreachable |
| Dfs.Search | src/algorithms/dfs.py:23-56 | the full outcome of a search with start != goal, as the reference determines it |
| Dfs.Run | src/algorithms/dfs.py:8-56 | start == goal gives the one-cell result and its trace; otherwise the record holds what the reference determines |
| HeapQueue.Push | src/algorithms/astar.py:29 | heappush adds exactly the new entry to the queue (as a multiset) |
| HeapQueue.RemoveAt | src/algorithms/astar.py:36 | the queue without one entry; every other entry stays |
| HeapQueue.RemoveAtKeeps | src/algorithms/astar.py:36 | an entry other than the removed one is still queued |
| HeapQueue.ArgMin | src/algorithms/astar.py:36 | the index of an entry least by (f, tie), the first such |
| HeapQueue.PopMin | src/algorithms/astar.py:36 | heappop returns the entry at `ArgMin`, least by (f, tie), and among equal f the earliest pushed, and removes it |
| Astar.PendingInit | src/algorithms/astar.py:25-33 | the initial cost map, heap and open set satisfy the loop invariant |
| Astar.StalePop | src/algorithms/astar.py:36-38 | discarding a popped entry of a closed cell keeps the invariant |
| Astar.LeastEntry | src/algorithms/astar.py:36-38 | a least live entry carries its cell's current estimate, and no open estimate is smaller |
| Astar.PopStep | src/algorithms/astar.py:36-50 | expanding the least live entry keeps the invariants; when it is goal, no walk is shorter than its cost |
| Astar.HeapExhausted | src/algorithms/astar.py:35-67 | an emptied heap means goal is unreachable from start |
| Astar.Relax | src/algorithms/astar.py:58-64 | an improved cost keeps every estimate, ticket and relaxation invariant |
| Astar.ScanClosed | src/algorithms/astar.py:55-56 | a closed neighbour is skipped |
| Astar.LevelBound | src/algorithms/astar.py:58 | every recorded cost is at most width * height |
| Astar.CostCount | src/algorithms/astar.py:61 | the cost map has one entry per discovered cell |
| Astar.Consider | src/algorithms/astar.py:55-67 | one neighbour: skipped when closed or not improved, otherwise relaxed; the invariants hold |
| Astar.Lower | src/algorithms/astar.py:60-66 | the new predecessor, cost, tie and entry, and in_open gains the cell; together one relaxation step of the reference |
| Astar.Improve | src/algorithms/astar.py:59-67 | records the predecessor and cost, pushes the entry, and emits `frontier_add` only on first entry to the open set; one relaxation step of the reference |
| Astar.Begin | src/algorithms/astar.py:25-33 | the state before the loop: start alone on the heap with f = h(start) and tie 0, at cost 0, in in_open, nothing closed; it is not halted, so the loop takes at least one turn |
| Astar.RelaxOne | src/algorithms/astar.py:55-67 | one neighbour of the reference scan: no cost rises and no costed cell is lost; a cell is reported at most once, and only when it was not in in_open |
| Astar.Relaxing | src/algorithms/astar.py:54-67 | the reference scan of the neighbours in order: no cost rises and no costed cell is lost |
| Astar.Close | src/algorithms/astar.py:40-67 | the reference expansion of a popped non-goal cell, without a contract of its own: it leaves in_open, joins closed and the expanded cells, and its neighbours are relaxed at its cost; `Astar.TurnsClosed` ties the loop to it |
| Astar.Step | src/algorithms/astar.py:35-67 | the reference turn, without a contract of its own: a halted state stays; otherwise the least entry is popped, dropped when its cell is closed, stops the loop at goal, and is closed with `Close` otherwise; its properties are `Astar.TurnsStale`, `Astar.TurnsFound` and `Astar.TurnsClosed` |
| Astar.Ended | src/algorithms/astar.py:35-67 | the reference's final state, without a contract of its own: the first halted state of the turns from `Begin`; `Astar.EndedAt` pins it to the turn at which the loop stops |
| Astar.RelaxingNext | src/algorithms/astar.py:54-67 | the reference scan takes the neighbours one at a time, in order |
| Astar.TurnsStale | src/algorithms/astar.py:36-38 | a turn that pops a closed cell's entry only shrinks the heap and reports nothing |
| Astar.TurnsFound | src/algorithms/astar.py:36-50 | a turn that pops goal records it, ends the loop, and adds its pop and visit to the trace |
| Astar.TurnsClosed | src/algorithms/astar.py:36-67 | a turn that expands another cell is one step of the reference, and appends its block to the trace |
| Astar.EndedAt | src/algorithms/astar.py:35-67 | a loop that stops after n turns ends in the state after n turns |
| Astar.Scan | src/algorithms/astar.py:54-67 | the neighbour loop restores the loop invariant and computes the reference scan |
| Astar.Expand | src/algorithms/astar.py:40-67 | expanding a live entry either reaches goal at minimal cost, or closes the cell and keeps the invariant |
| Astar.Turn | src/algorithms/astar.py:35-67 | one loop iteration is one step of the reference: it either discards a stale entry (the heap shrinks) or expands one more cell |
| Astar.Explore | src/algorithms/astar.py:35-67 | the loop ends in the reference's final state; it expands start first; found holds exactly when goal was expanded; otherwise goal is unreachable |
| Astar.Search | src/algorithms/astar.py:25-76 | the full outcome of a search with start != goal, as the reference determines it; a found path is shortest |
| Astar.Run | src/algorithms/astar.py:10-76 | start == goal gives the one-cell result; otherwise the record holds what the reference determines, and a found path is shortest |
| Mazes.Fill | src/core/maze.py:20-22 | after the fill loops every cell is a wall |
| Mazes.ClampOdd | src/core/maze.py:24-28 | odd and at least 1; in [1, m - 2] when m >= 3; v itself when v is odd and in range, v - 1 when even; 1 below the range |
| Mazes.CellNeighbors | src/core/maze.py:37-45 | exactly the unvisited cells two steps away along one axis that lie inside the border |
| Mazes.FreshShrinks | src/core/maze.py:37-45 | visiting more cells never gives a cell with no fresh neighbours a fresh neighbour again |
| Mazes.CarveInit | src/core/maze.py:33-35 | the first stack, visited set and open origin satisfy the carving invariants |
| Mazes.CarveBounds | src/core/maze.py:54-57 | the chosen cell is odd, inside the border and unvisited; the midpoint is a cell carving may open, between the two |
| Mazes.CarvedStep | src/core/maze.py:57-61 | opening the midpoint and the chosen cell keeps every visited cell reachable from the origin and adds the chosen one |
| Mazes.ShapedStep | src/core/maze.py:58-59 | carving opens only lattice cells and midpoints inside the border |
| Mazes.BacktrackedPush | src/core/maze.py:61-62 | pushing the chosen cell keeps the stack inside the visited set |
| Mazes.BacktrackedPop | src/core/maze.py:50-52 | a cell is popped only when it has no fresh neighbour left |
| Mazes.Spanning | src/core/maze.py:47-62 | when no visited cell has a fresh neighbour, every odd cell inside the border is visited |
| Mazes.CarvedReachable | src/core/maze.py:54-62 | visited cells are reachable from the origin through open cells |
| Mazes.CarveTo | src/core/maze.py:54-62 | one carving step opens exactly the midpoint and the chosen cell, and keeps the invariants |
| Mazes.Carve | src/core/maze.py:33-62 | carving ends with every odd inner cell visited, open and reachable from the origin, and no border cell other than the origin opened |
| Mazes.NeighborsInBounds | src/core/maze.py:75-78 | exactly the 4-neighbours that lie on the board |
| Mazes.NeighborsInBoundsNonEmpty | src/core/maze.py:71 | on a board at least 2 x 2 every cell has a neighbour on the board, so `rnd.choice` has a choice |
| Mazes.NeighborsInBoundsSingle | src/core/maze.py:71 | on a 1 x 1 board the only cell has no neighbour on the board |
| Mazes.EndPass | src/core/maze.py:67-72 | one round of the closing pass keeps the board's size and consumes at most one choice |
| Mazes.EndPassOpens | src/core/maze.py:67-72 | after one round p is open, has an open neighbour, and only p and its neighbours changed |
| Mazes.OpenEnd | src/core/maze.py:67-72 | the loop body leaves exactly the board `EndPass` describes |
| Mazes.EndsPassOpens | src/core/maze.py:64-72 | after the final lines start and goal are open with open neighbours; only they and their neighbours changed |
| Mazes.OpenEnds | src/core/maze.py:64-72 | the final lines leave exactly the board `EndsPass` describes |
| Mazes.Generate | src/core/maze.py:17-72 | carving leaves every odd inner cell reachable from the origin; the final board is the closing pass applied to it; start and goal are open, each with an open neighbour; the odd inner cells stay reachable |
| Mazes.GoalPocket | src/core/maze.py:64-72 | on an even board at least 6 x 6 with start (1, 1) and goal (W - 2, H - 2), a closing choice of index 0 or 2 leaves start and goal mutually unreachable |
| Mazes.GenerateLinked | src/core/maze.py:17-72 | the corrected generator: every odd inner cell is reachable from start, and start and goal reach each other |
| Players.StepCount | src/core/player.py:30-33 | the update loop never advances past the end of the path |
| Players.StepCountClosed | src/core/player.py:30-33 | with a positive delay and a non-negative accumulator, the loop advances min(room, accum // delay) cells |
| Players.StepCountStops | src/core/player.py:30-33 | after the loop either less than one delay is left or the path has run out |
| Players.Player.constructor | src/core/player.py:8-13 | a token at the given cell with no path |
| Players.Player.SetPath | src/core/player.py:15-20 | a new path starts from its first cell, with a zero index and accumulator; an empty path leaves the token where it is; the player is done exactly when the path has at most one cell |
| Players.Player.IsDone | src/core/player.py:22-23 | on a valid player, done exactly when there is no path or the token stands on its last cell; otherwise a next cell exists |
| Players.Player.Update | src/core/player.py:25-33 | a player that is done does not change; otherwise it advances exactly `StepCount` cells, keeps the leftover time, and stands on the path cell its index names |
| Timing.Drained | src/utils/timing.py:23-25 | never negative: one delay less when ready, zero otherwise |
| Timing.DrainedOneStep | src/utils/timing.py:23-25 | consuming a ready timer takes away exactly one delay, never more than was accumulated |
| Timing.StepTimer.constructor | src/utils/timing.py:6-10 | running, with nothing accumulated |
| Timing.StepTimer.Reset | src/utils/timing.py:12-13 | the accumulator is zero, so with a positive delay the timer is not ready |
| Timing.StepTimer.Update | src/utils/timing.py:15-18 | time counts only while running; afterwards ready exactly when running and the old accumulator plus dt reaches the delay |
| Timing.StepTimer.IsReady | src/utils/timing.py:20-21 | a paused timer is never ready; a ready one holds a whole delay that consume takes away exactly |
| Timing.StepTimer.Consume | src/utils/timing.py:23-25 | the accumulator becomes `Drained` of its old value; a ready timer loses exactly one delay; with a positive delay it stays ready exactly when two delays were held |
| Timing.StepTimer.StepOnce | src/utils/timing.py:27-29 | while paused, exactly one delay is loaded (ready once resumed); while running, nothing changes |
| Math2D.Rect.Contains | src/utils/math2d.py:15-16 | a pixel is inside exactly when its offset from the top-left corner is in [0, w) x [0, h); a rectangle holding any pixel is at least 1 x 1 |
| Math2D.ContainsCorners | src/utils/math2d.py:15-16 | a rectangle is half-open: it holds its top-left pixel, not its far edges, and nothing when empty |
| Math2D.Clamp | src/utils/math2d.py:19-20 | within [lo, hi] when lo <= hi; v when v is in range; the nearer bound otherwise; lo when hi < lo |
| Math2D.ClampIdempotent | src/utils/math2d.py:19-20 | clamping twice is clamping once |
| Math2D.FloorDiv | src/utils/math2d.py:39-40 | Python's `//`: the quotient rounded towards minus infinity |
| Math2D.FloorMod | src/utils/math2d.py:43 | Python's `%`: the remainder of `//`, with the sign of the divisor |
| Math2D.GridToScreen | src/utils/math2d.py:23-28 | a cell's corner lies cell * (size + gap) from the origin on each axis |
| Math2D.ScreenToGrid | src/utils/math2d.py:31-46 | None for any pixel left of or above the origin (checked before the division, so a zero pitch is allowed there); with a positive pitch, a cell it returns is non-negative on both axes and its size x size square holds the pixel |
| Math2D.ScreenToGridExact | src/utils/math2d.py:31-46 | with size >= 1 and gap >= 0, a pixel maps to a cell exactly when it lies in that cell's size x size square |
| Math2D.RoundTrip | src/utils/math2d.py:23-46 | a cell's corner pixel maps back to the cell |
| Math2D.GapIsNone | src/utils/math2d.py:43-44 | a pixel at or past the origin whose offset `%` the pitch is at least the cell size on the x axis or on the y axis maps to no cell |
| Math2D.ScreenToGridNone | src/utils/math2d.py:31-46 | with size >= 1 and gap >= 0, a pixel maps to None exactly when no cell (c >= 0 on both axes) holds it in its size x size square |

## Left out

- Randomness: `random.Random(seed)` and `MazeConfig.seed` are replaced by the oracle `pick`. The generator's statements hold for every oracle, so for every seed. The Mersenne Twister itself is not modelled.
- Mazes.Generate: requires a board at least 2 x 2 with start and goal on it. On a 1 x 1 board `rnd.choice` fails on an empty list (`Mazes.NeighborsInBoundsSingle`). On a board 1 cell wide, `set_wall((1, y))` indexes past the row. On a board 1 row high, `clamp_odd(start[1], 1)` is 1 (maze.py:30), so `set_wall((sx, 1))` (maze.py:35) indexes `walls[1]`, a row that does not exist, hence `height >= 2`.
- Mazes.Generate: does not promise that start and goal reach each other, because the source does not guarantee it (see Findings).
- Mazes.Generate: `gx, gy` are computed and never used in the source; the model computes them too.
- Grid accessors: Python's negative indices would wrap around. The model reads and writes cells only in bounds, as every caller in the core does.
- `grid.neighbors4` is a lazy generator. The model computes its sequence at once; the grid does not change during a search, so the yielded cells are the same.
- `heapq`'s binary-heap layout is not modelled. The open heap is a sequence, and `PopMin` takes an entry least by (f, tie). The tie counter is unique, so this is the same entry `heappop` returns.
- Astar.Run: requires `width * height + 1 < 10**9`. The source compares costs with the sentinel `10**9`, and costs reach it only on boards of about 10**9 cells.
- Math2D.ScreenToGrid: requires `cell_size + cell_gap != 0` only for a pixel at or past the origin, where the source divides by it (math2d.py:38-40) and raises on zero; a pixel left of or above the origin returns None before the division (math2d.py:35-36) for any pitch.
- Math2D.ScreenToGrid: its own contract states the None case before the origin and what a returned cell satisfies; the full characterization, both ways, is `Math2D.ScreenToGridExact` with `Math2D.ScreenToGridNone`.
- Players.Player.Update: requires `Valid()` (the index is on the path). The dataclass accepts any `_path_index`; with one outside the path `path[_path_index]` raises.
- Bfs.Run: visiting cells in non-decreasing hop distance is kept as a loop invariant. The contract exports its consequence: a found path is shortest.
- The searches' optional `cfg` argument: `cfg or AlgorithmConfig()` (bfs.py:10-11, dfs.py:8-9, astar.py:10-11) defaults to tracing on, `AlgorithmConfig(true)`. The model always takes `cfg` explicitly.
- Grids.Board.IsWall: the matrix read itself has no contract of its own; what `is_wall` returns is stated through `set_wall` and `filled` (`Grids.Board.WallAfterSet`, `Grids.Board.With`, `Grids.Grid.Filled`).
- Trace payloads: the source's event tuples with dict payloads become the constructors of `TraceEvent`, one per event name.
- The UI (`src/ui/app.py`, `src/ui/rendered.py`, `src/ui/widgets.py`) and `src/config.py` are not part of this model. The configured board (50 x 50, start (1, 1), goal (48, 48)) appears only in the finding below.
- Wall-clock time and rendering are not modelled. The timer and the player take elapsed milliseconds as parameters.

## Findings

| source | as written | input that shows it | evidently intended | confidence | as-written member | corrected member |
|---|---|---|---|---|---|---|
| src/core/maze.py:64-72 | after carving, the closing pass opens one random in-bounds neighbour of a walled-in start or goal, which may be a border cell | the configured 50 x 50 board with start (1, 1) and goal (48, 48): carving leaves all four neighbours of goal walled; when `rnd.choice` picks index 0 or 2 it opens (49, 48) or (48, 49), a border cell whose other neighbours are walls, so goal sits in a two-cell pocket | a generated maze in which start and goal are mutually reachable | proved for the model, not executed | Mazes.GoalPocket (with Mazes.Generate) | Mazes.GenerateLinked |

`Mazes.GoalPocket` holds for any even width and height of at least 6, with start (1, 1) and goal
(W - 2, H - 2). Under these conditions the closing pass gets round-by-round semantics
(`EndsPass`), and `Mazes.Generate` proves the final board is that pass applied to the carved
board. The corrected `Mazes.GenerateLinked` keeps fill and carving. Instead of the random
closing pass, it opens a straight corridor from start to its own odd-lattice cell and from goal
to its own. Both lattice cells are carved and reachable from the origin, so start and goal
reach each other on every board at least 3 x 3.
