# MazeAI in Dafny

This project models MazeAI, a fog-of-war maze engine and the two agents that explore it.

- The maze is a rectangular grid of symbols: `#` wall, `o` start, `*` goal, `.` open space.
- A parallel grid of "visited" flags records what has been revealed.
- `explore(row, col)` reveals a cell only if one of these holds:
  - it was revealed before;
  - it is the start;
  - an orthogonal neighbour that exists is revealed and holds the start or open space.
- A refused request answers `'X'` (off the grid) or `'?'` (not reachable) and changes nothing.
- Two agents of `main.cpp` run the same loop over different frontiers:
  - `intelligent_agent` uses a queue, so it searches breadth-first;
  - `stack_agent` uses a stack, so it searches depth-first.
- The loop body is the same for both:
  1. take an entry and explore it;
  2. stop on the goal;
  3. after a start or open answer, push every unvisited neighbour, in the order down, up, right, left, whose moved coordinate lies strictly inside the border.

The files are:

- `maze.dfy` (module `MazeModel`):
  - the reveal rule on values: `Board`, `CanExplore` and `Reveal`, with its lemmas;
  - the constructor's row-major scan for the start and the goal;
  - the `Maze` class. Its `array2` fields are updated in place, and its methods are proved against the value-level rule.
- `agents.dfy` (module `Agents`):
  - `Agent`, the run of the agent loop as a function of the board, the visited set, the frontier and a step budget, with lemmas about one iteration and whole runs;
  - `Search`, the loop on a `Maze` object, proved to compute `Agent`;
  - `IntelligentAgent` and `StackAgent`.
- `frontier.dfy` (module `FrontierEncoding`): the agents store a frontier as a flat container of ints, two per entry. The lemmas show that both encodings give back the pair that was pushed.
- `scenarios.dfy` (module `Scenarios`): whole runs on small concrete mazes.

The push tests (main.cpp:90, 95, 100, 105) bound only the coordinate that moves, not the one that stays, so a neighbour on the outer border can be pushed. Two consequences:

- A neighbour that keeps the start's row or column on the border is pushed. `BorderColumnGoalFound` shows a goal in column 0 found this way.
- A goal whose row (or column) lies on the border and differs from the start's is never reached. `BorderGoalIsNeverReached` shows the queue agent running out of frontier on a 3x3 corridor whose goal sits on the bottom border.

`AgentStaysOnReachableLines` states the general rule.

## Model

| member | source | states |
|---|---|---|
| MazeModel.CanExploreIffAdjacentOpen | maze.h:249-254 | The guard holds iff the cell is visited, or is the start, or has a visited in-bounds orthogonal neighbour holding 'o' or '.'; a visited '#' or '*' neighbour does not qualify |
| MazeModel.CanExploreMonotone | maze.h:249-256 | Setting more flags never withdraws permission to explore a cell |
| MazeModel.RevealOutOfBounds | maze.h:238-242 | A request off the grid answers 'X' and leaves every flag as it was |
| MazeModel.RevealStart | maze.h:254-257 | The start cell is always revealed: answer 'o', its flag set, whatever was visited before |
| MazeModel.RevealIdempotent | maze.h:249-257 | After a successful reveal the cell is visited, and revealing it again gives the same answer and the same flags |
| MazeModel.RevealNotReachable | maze.h:259-263 | An unvisited non-start cell with no visited start/open neighbour answers '?' and changes nothing |
| MazeModel.RevealFrame | maze.h:255-257 | Flags only grow, at most the requested one is set, and when one is set the answer is that cell's symbol |
| MazeModel.RevealSucceeded | maze.h:249-257 | An answer other than 'X' and '?' means the cell is on the grid, the guard held, the cell is now visited and the answer is its symbol |
| MazeModel.ScanStep | maze.h:112-121 | Reading a cell that holds the symbol makes it the last occurrence found so far; any other cell keeps the previous one |
| MazeModel.ScanDone | maze.h:103-126 | After the whole grid the scan holds the last occurrence in row-major order, or nothing exactly when the symbol does not occur |
| MazeModel.ScanCell | maze.h:107-121 | One cell of the scan: an 'o' replaces the start found so far, otherwise a '*' replaces the goal |
| MazeModel.ScanRow | maze.h:105-125 | One row of the scan copies every symbol, clears every flag, leaves other rows unchanged and extends the start/goal scan to the row's end |
| MazeModel.Maze.constructor | maze.h:103-126 | Arrays hold the given rows, all flags are false, the start is the last 'o' in row-major order, and the goal is the last '*' (absent iff there is none) |
| MazeModel.Maze.StartCoord | maze.h:58-59 | getStartRow/getStartCol give a cell on the grid holding 'o' |
| MazeModel.Maze.HaveVisited | maze.h:274-277 | haveVisited is true iff the cell has been revealed |
| MazeModel.Maze.Explorable | maze.h:249-254 | The guard read off the two arrays equals the value-level rule `CanExplore` |
| MazeModel.Maze.Explore | maze.h:235-265 | explore returns what `Reveal` gives on the old flags, and the flags become the new set; no other flag changes and the symbols are never written |
| Agents.ExpandSound | main.cpp:88-108 | At most four neighbours are pushed, each unvisited, adjacent, and with its moved coordinate strictly inside the border |
| Agents.ExpandComplete | main.cpp:88-108 | Conversely, every unvisited neighbour whose moved coordinate is strictly inside the border is pushed |
| Agents.ExpandOrder | main.cpp:89-108 | Pushed neighbours come in the order down, up, right, left, each at most once |
| Agents.IterateNoPushUnlessPassable | main.cpp:83-88 | After a goal, wall, 'X' or '?' answer nothing is pushed |
| Agents.QueueIsFifo | main.cpp:76-79 | The queue agent explores its oldest entry and keeps the others ahead of new pushes |
| Agents.StackIsLifo | main.cpp:134-137 | The stack agent explores its newest entry; after a pushed left neighbour, that neighbour is explored next |
| Agents.StartFrontierOk | main.cpp:68-69 | The initial frontier, the start alone, is on the grid and explorable |
| Agents.ExpandOk | main.cpp:88-108 | Every neighbour pushed from a revealed start/open cell is on the grid and explorable |
| Agents.IterateKeepsFrontierOk | main.cpp:76-108 | One iteration from a good frontier reveals its entry, never refused, and leaves a good frontier |
| Agents.AgentChangesOnlyThroughExplore | main.cpp:74-111 | Flags only grow; each new flag belongs to an explored entry; one explore per iteration, so at most the budget, and exactly the budget when it runs out |
| Agents.AgentStopsAtGoal | main.cpp:83-86 | A run ends with Found iff its last answer is '*'; no earlier answer is '*'; the found cell holds the goal and is visited |
| Agents.AgentNeverRefused | main.cpp:74-111 | From a good frontier every answer of a run is the symbol of an on-grid cell, never 'X' or '?' |
| Agents.AgentStaysOnReachableLines | main.cpp:90-105 | Each explored cell's row and column, and those of any goal found, are each strictly inside the border or equal to the start's |
| Agents.StackExploresLeftNext | main.cpp:163-166 | When the stack agent pushes the left neighbour, its next explore is that neighbour |
| Agents.Search | main.cpp:74-111 | The loop on a Maze returns the outcome of `Agent` and leaves exactly its flags |
| Agents.ExploreNext | main.cpp:76-108 | One loop body on a Maze is one `Iterate` step of the model |
| Agents.PushNeighbours | main.cpp:88-108 | The four conditional pushes append exactly `Expand` to the frontier |
| Agents.IntelligentAgent | main.cpp:59-114 | The queue agent returns the outcome of the breadth-first run from the start and leaves its flags |
| Agents.StackAgent | main.cpp:115-173 | The stack agent returns the outcome of the depth-first run from the start and leaves its flags |
| FrontierEncoding.QueuePushPair | main.cpp:91-92 | Pushing row then column onto the int queue appends the pair |
| FrontierEncoding.QueuePopPair | main.cpp:76-79 | The queue holds two ints per entry; two pops from its front give the oldest pair's row, then its column, and leave the rest |
| FrontierEncoding.StackPushPair | main.cpp:126-127 | Pushing column then row onto the int stack appends the pair |
| FrontierEncoding.StackPopPair | main.cpp:134-137 | The stack holds two ints per entry; two pops from its top give the newest pair's row, then its column, and leave the rest |
| Scenarios.BorderGoalIsNeverReached | main.cpp:90 | On a 3x3 corridor with the goal on the bottom border the queue agent ends Exhausted after two reveals |
| Scenarios.BorderColumnGoalFound | main.cpp:90 | From a start in column 0 the cell below, also in column 0, is pushed and its goal found |
| Scenarios.InnerCorridorFound | main.cpp:74-111 | An inner goal two cells away is found by the queue agent on the third explore |
| Scenarios.WalledGoalExhausts | main.cpp:132-169 | A walled-off goal: the stack agent reveals the start and the wall and ends Exhausted |
| Scenarios.TwoBranchesQueue | main.cpp:74-111 | With open space on both sides the queue agent alternates sides by distance and needs five reveals |
| Scenarios.TwoBranchesStack | main.cpp:132-169 | On the same maze the stack agent follows the left neighbour and needs three reveals |
| Scenarios.InnerCorridorHarness | main.cpp:59-114 | A Maze built from rows and run by the queue agent finds the goal |

## Left out

- File reading, the size header and newline handling in the constructor. The constructor takes an already parsed rectangular grid.
- Failure to open the file and `exit(1)`: both are process I/O.
- `display`, `displayNoFog` and every console message: output only. `explore` keeps only its return values.
- `humanPlayer` and `main`: interactive console loops and menu selection.
- `exit(1)` after the agents finish: the agents return an `Outcome` instead.
- Manual row allocation and the destructor. The model uses one `array2` per grid, sized height by width. This includes the allocation loop bounded by `width` instead of `height` (maze.h:92).
- getWidth and getHeight are the constant fields `width` and `height`; they have no members of their own.
- Maze.constructor: requires at least one 'o'. The source leaves the start unset when there is none.
- Maze.Explore: negative coordinates answer 'X'. The source indexes the arrays with them.
- PushNeighbours: the bound tests run before `haveVisited`. The source calls `haveVisited` first and can read one cell past the grid. Either order pushes the same neighbours.
- Agent: an empty frontier ends the run with `Exhausted`. The source reads the front or top of an empty container.
- Agent: the step budget `fuel` ends a run with `BudgetSpent`. The source loop has no bound, and its frontier is not deduplicated, so termination is not evident.
- Breadth-first distance order is shown on a concrete maze (`TwoBranchesQueue`), not proved for all mazes.
- The goal position found by the constructor is kept as `finish` but, as in the source, no agent reads it.
