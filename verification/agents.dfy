/**
 * The two automatic players of main.cpp: `intelligent_agent`, whose frontier
 * is a FIFO queue (breadth-first), and `stack_agent`, whose frontier is a LIFO
 * stack (depth-first). Apart from the frontier discipline they run the same
 * loop: take a coordinate, explore it, stop on the goal, and on open space or
 * the start push every unvisited neighbour whose moved coordinate lies
 * strictly inside the border, in the order down, up, right, left.
 *
 * `Agent` is the run as a function of the board, the visited set, the frontier
 * and a step budget; `Search` is the loop on a `Maze` object, proved to compute
 * it. The lemmas state what the source's loop guarantees.
 */
module Agents {
  import opened MazeModel

  datatype Discipline = Fifo | Lifo

  /** How a run ends: the goal revealed at a coordinate, an empty frontier, or the budget used up. */
  datatype Outcome = Found(at: Coord) | Exhausted | BudgetSpent

  /** One loop iteration's `explore` call and its answer. */
  datatype Step = Step(at: Coord, result: char)

  datatype Run = Run(outcome: Outcome, visited: set<Coord>, trace: seq<Step>)

  /** The entry the discipline takes next: the oldest for a queue, the newest for a stack. */
  function Next(d: Discipline, f: seq<Coord>): Coord
    requires |f| > 0
  {
    if d == Fifo then f[0] else f[|f| - 1]
  }

  /** The frontier once `Next` has been taken off. */
  function Remaining(d: Discipline, f: seq<Coord>): seq<Coord>
    requires |f| > 0
  {
    if d == Fifo then f[1..] else f[..|f| - 1]
  }

  // The four candidate neighbours, in the order the agents consider them.
  function Down(p: Coord): Coord { Coord(p.row + 1, p.col) }
  function Up(p: Coord): Coord { Coord(p.row - 1, p.col) }
  function Right(p: Coord): Coord { Coord(p.row, p.col + 1) }
  function Left(p: Coord): Coord { Coord(p.row, p.col - 1) }

  /** A push that happens only when its test holds. */
  function PushIf(test: bool, q: Coord): seq<Coord> {
    if test then [q] else []
  }

  /**
   * The neighbours pushed after revealing open space or the start at `p`, each
   * under the bound test main.cpp writes for it and only if not yet visited.
   */
  function Expand(b: Board, vis: set<Coord>, p: Coord): seq<Coord> {
    PushIf(p.row + 1 < b.height - 1 && p.row + 1 > 0 && Down(p) !in vis, Down(p))
    + PushIf(p.row - 1 > 0 && p.row - 1 < b.height && Up(p) !in vis, Up(p))
    + PushIf(p.col + 1 < b.width - 1 && p.col + 1 > 0 && Right(p) !in vis, Right(p))
    + PushIf(p.col - 1 > 0 && p.col - 1 < b.width && Left(p) !in vis, Left(p))
  }

  /** The result of one loop iteration: what was explored, its answer, the new state. */
  datatype Iteration = Iteration(at: Coord, result: char, visited: set<Coord>, frontier: seq<Coord>)

  function Iterate(d: Discipline, b: Board, vis: set<Coord>, f: seq<Coord>): Iteration
    requires b.WellFormed() && |f| > 0
  {
    var p := Next(d, f);
    var s := Reveal(b, vis, p.row, p.col);
    var pushed := if s.result == Open || s.result == Start then Expand(b, s.visited, p) else [];
    Iteration(p, s.result, s.visited, Remaining(d, f) + pushed)
  }

  /**
   * The agent loop from the given state, with at most `fuel` iterations: an
   * empty frontier ends it with Exhausted, a spent budget with BudgetSpent;
   * otherwise one iteration runs and the loop continues from its result.
   */
  function Agent(d: Discipline, b: Board, vis: set<Coord>, f: seq<Coord>, fuel: nat): Run
    requires b.WellFormed()
    decreases fuel, 0
  {
    if |f| == 0 then Run(Exhausted, vis, [])
    else if fuel == 0 then Run(BudgetSpent, vis, [])
    else Continue(d, b, Iterate(d, b, vis, f), fuel - 1)
  }

  /**
   * The rest of the loop once iteration `it` has run, with `fuel` iterations
   * left: revealing the goal ends it with Found, anything else goes round again.
   */
  function Continue(d: Discipline, b: Board, it: Iteration, fuel: nat): Run
    requires b.WellFormed()
    decreases fuel, 1
  {
    if it.result == Goal then Run(Found(it.at), it.visited, [Step(it.at, it.result)])
    else
      var rest := Agent(d, b, it.visited, it.frontier, fuel);
      Run(rest.outcome, rest.visited, [Step(it.at, it.result)] + rest.trace)
  }

  // ---------------------------------------------------------------------------
  // Properties of one iteration
  // ---------------------------------------------------------------------------

  /** Index of `q` among the candidate neighbours of `p`, in push order. */
  function DirectionIndex(p: Coord, q: Coord): int {
    if q == Down(p) then 0 else if q == Up(p) then 1 else if q == Right(p) then 2 else if q == Left(p) then 3 else 4
  }

  /**
   * Every pushed neighbour is adjacent to `p` and not yet visited, and its
   * changed coordinate lies strictly inside the border.
   */
  lemma ExpandSound(b: Board, vis: set<Coord>, p: Coord)
    requires b.InBounds(p.row, p.col)
    ensures var e := Expand(b, vis, p);
            |e| <= 4 &&
            forall q :: q in e ==>
              q !in vis && Adjacent(q, p) &&
              (q.col == p.col ==> 1 <= q.row <= b.height - 2) &&
              (q.row == p.row ==> 1 <= q.col <= b.width - 2)
  {
  }

  /**
   * The converse of `ExpandSound`: every unvisited neighbour whose changed
   * coordinate lies strictly inside the border is pushed.
   */
  lemma ExpandComplete(b: Board, vis: set<Coord>, p: Coord)
    requires b.InBounds(p.row, p.col)
    ensures 1 <= p.row + 1 <= b.height - 2 && Down(p) !in vis ==> Down(p) in Expand(b, vis, p)
    ensures 1 <= p.row - 1 < b.height && Up(p) !in vis ==> Up(p) in Expand(b, vis, p)
    ensures 1 <= p.col + 1 <= b.width - 2 && Right(p) !in vis ==> Right(p) in Expand(b, vis, p)
    ensures 1 <= p.col - 1 < b.width && Left(p) !in vis ==> Left(p) in Expand(b, vis, p)
  {
  }

  /** The neighbours in `e` come in strictly increasing push order. */
  predicate InPushOrder(p: Coord, e: seq<Coord>) {
    forall i, j :: 0 <= i < j < |e| ==> DirectionIndex(p, e[i]) < DirectionIndex(p, e[j])
  }

  /**
   * Two runs of neighbours in push order, the first wholly before index `k`
   * and the second in [k, hi), stay in push order when joined, all below `hi`.
   */
  lemma JoinInPushOrder(p: Coord, e1: seq<Coord>, e2: seq<Coord>, k: int, hi: int)
    requires InPushOrder(p, e1) && InPushOrder(p, e2)
    requires forall i :: 0 <= i < |e1| ==> DirectionIndex(p, e1[i]) < k
    requires k <= hi && forall i :: 0 <= i < |e2| ==> k <= DirectionIndex(p, e2[i]) < hi
    ensures InPushOrder(p, e1 + e2)
    ensures forall i :: 0 <= i < |e1 + e2| ==> DirectionIndex(p, (e1 + e2)[i]) < hi
  {
    var e := e1 + e2;
    forall i, j | 0 <= i < j < |e|
      ensures DirectionIndex(p, e[i]) < DirectionIndex(p, e[j])
    {
      if j < |e1| {
        assert e[i] == e1[i] && e[j] == e1[j];
      } else if i < |e1| {
        assert e[i] == e1[i] && e[j] == e2[j - |e1|];
      } else {
        assert e[i] == e2[i - |e1|] && e[j] == e2[j - |e1|];
      }
    }
    forall i | 0 <= i < |e|
      ensures DirectionIndex(p, e[i]) < hi
    {
      if i < |e1| {
        assert e[i] == e1[i];
      } else {
        assert e[i] == e2[i - |e1|];
      }
    }
  }

  /**
   * The neighbours are pushed in the order down, up, right, left, each at most
   * once.
   */
  lemma ExpandOrder(b: Board, vis: set<Coord>, p: Coord)
    ensures InPushOrder(p, Expand(b, vis, p))
  {
    FourPushesInOrder(p,
      p.row + 1 < b.height - 1 && p.row + 1 > 0 && Down(p) !in vis,
      p.row - 1 > 0 && p.row - 1 < b.height && Up(p) !in vis,
      p.col + 1 < b.width - 1 && p.col + 1 > 0 && Right(p) !in vis,
      p.col - 1 > 0 && p.col - 1 < b.width && Left(p) !in vis);
  }

  /** Whichever of the four neighbours are pushed, they come down, up, right, left. */
  lemma FourPushesInOrder(p: Coord, down: bool, up: bool, right: bool, left: bool)
    ensures InPushOrder(p, PushIf(down, Down(p)) + PushIf(up, Up(p)) + PushIf(right, Right(p)) + PushIf(left, Left(p)))
  {
    ThreePushesInOrder(p, down, up, right);
    PushIfRank(p, left, Left(p), 3);
    JoinInPushOrder(p, PushIf(down, Down(p)) + PushIf(up, Up(p)) + PushIf(right, Right(p)), PushIf(left, Left(p)), 3, 4);
  }

  lemma ThreePushesInOrder(p: Coord, down: bool, up: bool, right: bool)
    ensures var e := PushIf(down, Down(p)) + PushIf(up, Up(p)) + PushIf(right, Right(p));
            InPushOrder(p, e) && forall i :: 0 <= i < |e| ==> DirectionIndex(p, e[i]) < 3
  {
    TwoPushesInOrder(p, down, up);
    PushIfRank(p, right, Right(p), 2);
    JoinInPushOrder(p, PushIf(down, Down(p)) + PushIf(up, Up(p)), PushIf(right, Right(p)), 2, 3);
  }

  lemma TwoPushesInOrder(p: Coord, down: bool, up: bool)
    ensures var e := PushIf(down, Down(p)) + PushIf(up, Up(p));
            InPushOrder(p, e) && forall i :: 0 <= i < |e| ==> DirectionIndex(p, e[i]) < 2
  {
    PushIfRank(p, down, Down(p), 0);
    PushIfRank(p, up, Up(p), 1);
    JoinInPushOrder(p, PushIf(down, Down(p)), PushIf(up, Up(p)), 1, 2);
  }

  /** A single conditional push of the neighbour of rank `k` is in push order, all of rank `k`. */
  lemma PushIfRank(p: Coord, test: bool, q: Coord, k: int)
    requires DirectionIndex(p, q) == k
    ensures InPushOrder(p, PushIf(test, q))
    ensures forall i :: 0 <= i < |PushIf(test, q)| ==> DirectionIndex(p, PushIf(test, q)[i]) == k
  {
  }

  /**
   * Only a start or open answer pushes anything: after the goal, a wall, 'X' or
   * '?' the frontier is the old one minus the explored entry.
   */
  lemma IterateNoPushUnlessPassable(d: Discipline, b: Board, vis: set<Coord>, f: seq<Coord>)
    requires b.WellFormed() && |f| > 0
    requires Iterate(d, b, vis, f).result != Open && Iterate(d, b, vis, f).result != Start
    ensures Iterate(d, b, vis, f).frontier == Remaining(d, f)
  {
  }

  /**
   * The queue agent explores its oldest entry, and the entries it already held
   * stay ahead of everything it pushes.
   */
  lemma QueueIsFifo(b: Board, vis: set<Coord>, f: seq<Coord>)
    requires b.WellFormed() && |f| > 0
    ensures var it := Iterate(Fifo, b, vis, f);
            it.at == f[0] && |it.frontier| >= |f| - 1 && it.frontier[..|f| - 1] == f[1..]
  {
  }

  /**
   * The stack agent explores its newest entry; after it reveals open space or
   * the start, it explores next the last neighbour it pushed, which is the
   * left one whenever the left one was pushed.
   */
  lemma StackIsLifo(b: Board, vis: set<Coord>, f: seq<Coord>)
    requires b.WellFormed() && |f| > 0
    ensures var it := Iterate(Lifo, b, vis, f);
            it.at == f[|f| - 1] && it.frontier[..|f| - 1] == f[..|f| - 1]
    ensures var it := Iterate(Lifo, b, vis, f);
            var p := it.at;
            (it.result == Open || it.result == Start) &&
            p.col - 1 > 0 && p.col - 1 < b.width && Left(p) !in it.visited ==>
              Next(Lifo, it.frontier) == Left(p)
  {
  }

  // ---------------------------------------------------------------------------
  // The frontier invariant
  // ---------------------------------------------------------------------------

  /** Every frontier entry is on the grid and may legally be explored. */
  predicate FrontierOk(b: Board, vis: set<Coord>, f: seq<Coord>)
    requires b.WellFormed()
  {
    forall i :: 0 <= i < |f| ==> b.InBounds(f[i].row, f[i].col) && CanExplore(b, vis, f[i].row, f[i].col)
  }

  /** The frontier the agents start from, the start coordinate alone, satisfies the invariant. */
  lemma StartFrontierOk(b: Board, vis: set<Coord>, start: Coord)
    requires b.WellFormed() && b.InBounds(start.row, start.col) && b.At(start.row, start.col) == Start
    ensures FrontierOk(b, vis, [start])
  {
  }

  /** The entry taken next and every entry left behind come from the frontier. */
  lemma TakenFromFrontier(d: Discipline, f: seq<Coord>)
    requires |f| > 0
    ensures Next(d, f) in f
    ensures forall i :: 0 <= i < |Remaining(d, f)| ==> Remaining(d, f)[i] in f
  {
  }

  /** Entries left in the frontier stay explorable once more flags are set. */
  lemma RemainingStaysOk(d: Discipline, b: Board, vis: set<Coord>, vis': set<Coord>, f: seq<Coord>)
    requires b.WellFormed() && |f| > 0 && FrontierOk(b, vis, f) && vis <= vis'
    ensures FrontierOk(b, vis', Remaining(d, f))
  {
    var rem := Remaining(d, f);
    TakenFromFrontier(d, f);
    forall i | 0 <= i < |rem|
      ensures b.InBounds(rem[i].row, rem[i].col) && CanExplore(b, vis', rem[i].row, rem[i].col)
    {
      var k :| 0 <= k < |f| && f[k] == rem[i];
      CanExploreMonotone(b, vis, vis', rem[i].row, rem[i].col);
    }
  }

  /**
   * Each neighbour pushed after revealing `p` is on the grid and explorable,
   * because `p` is now visited and holds the start or open space.
   */
  lemma ExpandOk(b: Board, vis: set<Coord>, p: Coord)
    requires b.WellFormed() && b.InBounds(p.row, p.col) && OpenVisited(b, vis, p.row, p.col)
    ensures FrontierOk(b, vis, Expand(b, vis, p))
  {
    var e := Expand(b, vis, p);
    ExpandSound(b, vis, p);
    forall i | 0 <= i < |e|
      ensures b.InBounds(e[i].row, e[i].col) && CanExplore(b, vis, e[i].row, e[i].col)
    {
      var q := e[i];
      assert q in e;
      if q.row == p.row + 1 {
        assert q.row != 0 && OpenVisited(b, vis, q.row - 1, q.col);
      } else if q.row + 1 == p.row {
        assert q.row + 1 != b.height && OpenVisited(b, vis, q.row + 1, q.col);
      } else if q.col == p.col + 1 {
        assert q.col != 0 && OpenVisited(b, vis, q.row, q.col - 1);
      } else {
        assert q.col + 1 != b.width && OpenVisited(b, vis, q.row, q.col + 1);
      }
    }
  }

  /** The invariant holds of a concatenation when it holds of both parts. */
  lemma FrontierOkAppend(b: Board, vis: set<Coord>, f: seq<Coord>, g: seq<Coord>)
    requires b.WellFormed() && FrontierOk(b, vis, f) && FrontierOk(b, vis, g)
    ensures FrontierOk(b, vis, f + g)
  {
    forall i | 0 <= i < |f + g|
      ensures b.InBounds((f + g)[i].row, (f + g)[i].col) && CanExplore(b, vis, (f + g)[i].row, (f + g)[i].col)
    {
      if i >= |f| {
        assert (f + g)[i] == g[i - |f|];
      }
    }
  }

  /**
   * One iteration keeps the invariant: old entries stay explorable because
   * flags only grow, and each pushed entry is on the grid and next to the cell
   * just revealed, which is visited and holds the start or open space. Hence
   * the explored entry is revealed, never refused.
   */
  lemma IterateKeepsFrontierOk(d: Discipline, b: Board, vis: set<Coord>, f: seq<Coord>)
    requires b.WellFormed() && |f| > 0 && FrontierOk(b, vis, f)
    ensures var it := Iterate(d, b, vis, f);
            b.InBounds(it.at.row, it.at.col) && it.result == b.At(it.at.row, it.at.col) &&
            it.visited == vis + {it.at} && FrontierOk(b, it.visited, it.frontier)
  {
    var it := Iterate(d, b, vis, f);
    var p := it.at;
    TakenFromFrontier(d, f);
    assert b.InBounds(p.row, p.col) && CanExplore(b, vis, p.row, p.col);
    assert it.visited == vis + {p};
    RemainingStaysOk(d, b, vis, it.visited, f);
    if it.result == Open || it.result == Start {
      ExpandOk(b, it.visited, p);
      FrontierOkAppend(b, it.visited, Remaining(d, f), Expand(b, it.visited, p));
    } else {
      assert it.frontier == Remaining(d, f);
    }
  }

  // ---------------------------------------------------------------------------
  // Properties of whole runs
  // ---------------------------------------------------------------------------

  /**
   * A run's flags only grow, and every flag it sets belongs to a coordinate it
   * explored: the agents change the maze only through `explore`. Each
   * iteration makes exactly one `explore` call, so a run records at most
   * `fuel` of them, and exactly `fuel` when the budget runs out.
   */
  lemma {:induction false} AgentChangesOnlyThroughExplore(d: Discipline, b: Board, vis: set<Coord>, f: seq<Coord>, fuel: nat)
    requires b.WellFormed()
    ensures var run := Agent(d, b, vis, f, fuel);
            vis <= run.visited &&
            (forall q :: q in run.visited ==> q in vis || exists i :: 0 <= i < |run.trace| && run.trace[i].at == q) &&
            |run.trace| <= fuel &&
            (run.outcome == BudgetSpent ==> |run.trace| == fuel)
    decreases fuel
  {
    if |f| > 0 && fuel > 0 {
      var it := Iterate(d, b, vis, f);
      AgentFirstStep(d, b, vis, f, fuel);
      RevealFrame(b, vis, it.at.row, it.at.col);
      if it.result == Goal {
        var run := Agent(d, b, vis, f, fuel);
        assert run.trace[0].at == it.at;
      } else {
        AgentChangesOnlyThroughExplore(d, b, it.visited, it.frontier, fuel - 1);
        var rest := Agent(d, b, it.visited, it.frontier, fuel - 1);
        var run := Agent(d, b, vis, f, fuel);
        assert run.trace == [Step(it.at, it.result)] + rest.trace;
        forall q | q in run.visited && q !in vis
          ensures exists i :: 0 <= i < |run.trace| && run.trace[i].at == q
        {
          if q in it.visited {
            assert run.trace[0].at == q;
          } else {
            var i :| 0 <= i < |rest.trace| && rest.trace[i].at == q;
            assert run.trace[i + 1].at == q;
          }
        }
      }
    }
  }

  /**
   * A run stops exactly when `explore` answers the goal: Found is returned
   * iff the last recorded answer is '*', no earlier answer is '*', and the
   * found cell is on the grid, holds the goal and is now visited.
   */
  lemma {:induction false} AgentStopsAtGoal(d: Discipline, b: Board, vis: set<Coord>, f: seq<Coord>, fuel: nat)
    requires b.WellFormed()
    ensures var run := Agent(d, b, vis, f, fuel);
            (forall i :: 0 <= i < |run.trace| - 1 ==> run.trace[i].result != Goal) &&
            (run.outcome.Found? <==> |run.trace| > 0 && run.trace[|run.trace| - 1].result == Goal)
    ensures var run := Agent(d, b, vis, f, fuel);
            run.outcome.Found? ==>
              var g := run.outcome.at;
              run.trace[|run.trace| - 1].at == g &&
              b.InBounds(g.row, g.col) && b.At(g.row, g.col) == Goal && g in run.visited
    decreases fuel
  {
    if |f| > 0 && fuel > 0 {
      var it := Iterate(d, b, vis, f);
      if it.result == Goal {
        RevealSucceeded(b, vis, it.at.row, it.at.col);
      } else {
        AgentFirstStep(d, b, vis, f, fuel);
        AgentStopsAtGoal(d, b, it.visited, it.frontier, fuel - 1);
        AgentChangesOnlyThroughExplore(d, b, it.visited, it.frontier, fuel - 1);
      }
    }
  }

  /** Every recorded answer is the symbol of the explored cell, which is on the grid. */
  predicate AnswersAreCells(b: Board, trace: seq<Step>)
    requires b.WellFormed()
  {
    forall i :: 0 <= i < |trace| ==>
      b.InBounds(trace[i].at.row, trace[i].at.col) && trace[i].result == b.At(trace[i].at.row, trace[i].at.col)
  }

  /**
   * From a frontier satisfying the invariant (in particular from the start
   * alone) no explored entry is ever refused: every answer is the symbol of a
   * cell on the grid, never the sentinel 'X' or '?' of `explore`.
   */
  lemma {:induction false} AgentNeverRefused(d: Discipline, b: Board, vis: set<Coord>, f: seq<Coord>, fuel: nat)
    requires b.WellFormed() && FrontierOk(b, vis, f)
    ensures AnswersAreCells(b, Agent(d, b, vis, f, fuel).trace)
    decreases fuel
  {
    if |f| > 0 && fuel > 0 {
      var it := Iterate(d, b, vis, f);
      IterateKeepsFrontierOk(d, b, vis, f);
      AgentFirstStep(d, b, vis, f, fuel);
      if it.result != Goal {
        AgentNeverRefused(d, b, it.visited, it.frontier, fuel - 1);
      }
    }
  }

  /**
   * A coordinate lies on the lines the agents can reach from `start`: each
   * coordinate is strictly inside the border or equal to the start's.
   */
  predicate OnReachableLines(b: Board, start: Coord, q: Coord) {
    (1 <= q.row <= b.height - 2 || q.row == start.row) &&
    (1 <= q.col <= b.width - 2 || q.col == start.col)
  }

  /** One iteration explores an entry on the reachable lines and pushes only such entries. */
  lemma IterateStaysOnReachableLines(d: Discipline, b: Board, vis: set<Coord>, f: seq<Coord>, start: Coord)
    requires b.WellFormed() && |f| > 0
    requires forall i :: 0 <= i < |f| ==> OnReachableLines(b, start, f[i])
    ensures var it := Iterate(d, b, vis, f);
            OnReachableLines(b, start, it.at) &&
            forall i :: 0 <= i < |it.frontier| ==> OnReachableLines(b, start, it.frontier[i])
  {
    var it := Iterate(d, b, vis, f);
    var p := it.at;
    var rem := Remaining(d, f);
    TakenFromFrontier(d, f);
    if it.result == Open || it.result == Start {
      ExpandSound(b, it.visited, p);
      assert it.frontier == rem + Expand(b, it.visited, p);
    }
    forall i | 0 <= i < |it.frontier|
      ensures OnReachableLines(b, start, it.frontier[i])
    {
      if i >= |rem| {
        assert Adjacent(it.frontier[i], p);
      }
    }
  }

  /**
   * Because only the moved coordinate is compared with the border, every cell
   * a run explores, and so any goal it finds, has a row that is strictly inside
   * the border or equal to the start's, and likewise a column.
   */
  lemma {:induction false} AgentStaysOnReachableLines(d: Discipline, b: Board, vis: set<Coord>, f: seq<Coord>, fuel: nat, start: Coord)
    requires b.WellFormed()
    requires forall i :: 0 <= i < |f| ==> OnReachableLines(b, start, f[i])
    ensures var run := Agent(d, b, vis, f, fuel);
            (forall i :: 0 <= i < |run.trace| ==> OnReachableLines(b, start, run.trace[i].at)) &&
            (run.outcome.Found? ==> OnReachableLines(b, start, run.outcome.at))
    decreases fuel
  {
    if |f| > 0 && fuel > 0 {
      var it := Iterate(d, b, vis, f);
      IterateStaysOnReachableLines(d, b, vis, f, start);
      AgentFirstStep(d, b, vis, f, fuel);
      if it.result != Goal {
        AgentStaysOnReachableLines(d, b, it.visited, it.frontier, fuel - 1, start);
      }
    }
  }

  /**
   * A run with a non-empty frontier and budget left starts with one `explore`
   * of the entry its discipline takes next, and goes on as the run from the
   * state that iteration leaves, unless that answer was the goal.
   */
  lemma AgentFirstStep(d: Discipline, b: Board, vis: set<Coord>, f: seq<Coord>, fuel: nat)
    requires b.WellFormed() && |f| > 0 && fuel > 0
    ensures var run := Agent(d, b, vis, f, fuel);
            var it := Iterate(d, b, vis, f);
            |run.trace| > 0 && run.trace[0] == Step(Next(d, f), it.result) &&
            (it.result == Goal ==> run.outcome == Found(Next(d, f)) && run.visited == it.visited) &&
            (it.result != Goal ==>
               var rest := Agent(d, b, it.visited, it.frontier, fuel - 1);
               run.outcome == rest.outcome && run.visited == rest.visited && run.trace[1..] == rest.trace)
  {
  }

  /**
   * After the stack agent reveals open space or the start and pushes the left
   * neighbour, the very next `explore` of the run is that left neighbour.
   */
  lemma StackExploresLeftNext(b: Board, vis: set<Coord>, f: seq<Coord>, fuel: nat)
    requires b.WellFormed() && |f| > 0 && fuel >= 2
    requires var it := Iterate(Lifo, b, vis, f);
             (it.result == Open || it.result == Start) &&
             it.at.col - 1 > 0 && it.at.col - 1 < b.width && Left(it.at) !in it.visited
    ensures var run := Agent(Lifo, b, vis, f, fuel);
            |run.trace| >= 2 && run.trace[1].at == Left(run.trace[0].at)
  {
    StackIsLifo(b, vis, f);
    var it := Iterate(Lifo, b, vis, f);
    AgentFirstStep(Lifo, b, vis, f, fuel);
    AgentFirstStep(Lifo, b, it.visited, it.frontier, fuel - 1);
  }

  /** Two runs that end the same way and leave the same flags. */
  predicate SameEnd(r1: Run, r2: Run) {
    r1.outcome == r2.outcome && r1.visited == r2.visited
  }

  /**
   * Once the first iteration's result `it` is known, a run that ends like
   * `whole` is either over, with the goal at `it.at`, or goes on as a run from
   * the state `it` leaves that still ends like `whole`.
   */
  lemma AgentAfterStep(d: Discipline, b: Board, vis: set<Coord>, f: seq<Coord>, fuel: nat, it: Iteration, whole: Run)
    requires b.WellFormed() && |f| > 0 && fuel > 0 && Iterate(d, b, vis, f) == it
    requires SameEnd(Agent(d, b, vis, f, fuel), whole)
    ensures it.result == Goal ==> whole.outcome == Found(it.at) && whole.visited == it.visited
    ensures it.result != Goal ==> SameEnd(Agent(d, b, it.visited, it.frontier, fuel - 1), whole)
  {
    AgentFirstStep(d, b, vis, f, fuel);
  }

  /**
   * A run whose first iteration is known to be `it`, spelled out: on the goal
   * it ends there after that one step; otherwise it is that step followed by
   * the run from the state `it` leaves.
   */
  lemma AgentUnrolls(d: Discipline, b: Board, vis: set<Coord>, f: seq<Coord>, fuel: nat, it: Iteration)
    requires b.WellFormed() && |f| > 0 && fuel > 0 && Iterate(d, b, vis, f) == it
    ensures Agent(d, b, vis, f, fuel) ==
              if it.result == Goal then Run(Found(it.at), it.visited, [Step(it.at, it.result)])
              else var rest := Agent(d, b, it.visited, it.frontier, fuel - 1);
                   Run(rest.outcome, rest.visited, [Step(it.at, it.result)] + rest.trace)
    ensures it.result != Goal ==>
              Agent(d, b, vis, f, fuel).trace == [Step(it.at, it.result)] + Agent(d, b, it.visited, it.frontier, fuel - 1).trace
  {
  }

  // ---------------------------------------------------------------------------
  // The loop of main.cpp on a Maze object
  // ---------------------------------------------------------------------------

  /**
   * The shared agent loop. The frontier starts with the start coordinate; each
   * iteration takes one entry per the discipline, explores it, stops on the
   * goal and otherwise, on open space or the start, pushes the unvisited
   * neighbours whose moved coordinate lies strictly inside the border, down,
   * up, right, left. Bounds are evaluated before the
   * visited flag is read. An empty frontier ends the run with Exhausted, and
   * at most `fuel` entries are explored.
   */
  method Search(m: Maze, d: Discipline, fuel: nat) returns (outcome: Outcome)
    requires m.Valid()
    modifies m, m.visited
    ensures m.Valid()
    ensures var run := Agent(d, m.Layout(), old(m.Visited), [m.StartCoord()], fuel);
            outcome == run.outcome && m.Visited == run.visited
  {
    ghost var b := m.Layout();
    ghost var whole := Agent(d, b, m.Visited, [m.StartCoord()], fuel);
    var frontier := [Coord(m.startRow, m.startCol)];
    var steps := fuel;
    while |frontier| > 0 && steps > 0
      invariant m.Valid()
      invariant SameEnd(Agent(d, b, m.Visited, frontier, steps), whole)
      decreases steps
    {
      ghost var vis, f := m.Visited, frontier;
      var p, result;
      p, result, frontier := ExploreNext(m, d, frontier);
      AgentAfterStep(d, b, vis, f, steps, Iteration(p, result, m.Visited, frontier), whole);
      steps := steps - 1;
      if result == Goal {
        return Found(p);
      }
    }
    if |frontier| == 0 {
      outcome := Exhausted;
    } else {
      outcome := BudgetSpent;
    }
  }

  /**
   * One pass of the loop body: take the next entry, explore it, and on open
   * space or the start push its unvisited neighbours whose moved coordinate
   * lies strictly inside the border.
   */
  method ExploreNext(m: Maze, d: Discipline, frontier: seq<Coord>) returns (p: Coord, result: char, next: seq<Coord>)
    requires m.Valid() && |frontier| > 0
    modifies m, m.visited
    ensures m.Valid()
    ensures Iterate(d, m.Layout(), old(m.Visited), frontier) == Iteration(p, result, m.Visited, next)
  {
    ghost var vis := m.Visited;
    if d == Fifo {
      p := frontier[0];
      next := frontier[1..];
    } else {
      p := frontier[|frontier| - 1];
      next := frontier[..|frontier| - 1];
    }
    result := m.Explore(p.row, p.col);
    if result == Open || result == Start {
      RevealSucceeded(m.Layout(), vis, p.row, p.col);
      next := PushNeighbours(m, p, next);
    }
  }

  /**
   * The pushes that follow an open or start answer at `p`: down, up, right,
   * left, each only if its moved coordinate is strictly inside the border and
   * it is not yet visited. The
   * bounds are evaluated before the flag is read.
   */
  method PushNeighbours(m: Maze, p: Coord, frontier: seq<Coord>) returns (next: seq<Coord>)
    requires m.Valid() && m.Layout().InBounds(p.row, p.col)
    ensures next == frontier + Expand(m.Layout(), m.Visited, p)
  {
    var r, c := p.row, p.col;
    var down := r + 1 < m.height - 1 && r + 1 > 0 && !m.HaveVisited(r + 1, c);
    var up := r - 1 > 0 && r - 1 < m.height && !m.HaveVisited(r - 1, c);
    var right := c + 1 < m.width - 1 && c + 1 > 0 && !m.HaveVisited(r, c + 1);
    var left := c - 1 > 0 && c - 1 < m.width && !m.HaveVisited(r, c - 1);
    next := frontier + PushIf(down, Down(p));
    next := next + PushIf(up, Up(p));
    next := next + PushIf(right, Right(p));
    next := next + PushIf(left, Left(p));
    ExpandByTests(m.Layout(), m.Visited, p, frontier, down, up, right, left);
  }

  /**
   * Appending `Expand` to a frontier is the four conditional pushes one after
   * another, once each test has been evaluated.
   */
  lemma ExpandByTests(b: Board, vis: set<Coord>, p: Coord, f: seq<Coord>, down: bool, up: bool, right: bool, left: bool)
    requires down == (p.row + 1 < b.height - 1 && p.row + 1 > 0 && Down(p) !in vis)
    requires up == (p.row - 1 > 0 && p.row - 1 < b.height && Up(p) !in vis)
    requires right == (p.col + 1 < b.width - 1 && p.col + 1 > 0 && Right(p) !in vis)
    requires left == (p.col - 1 > 0 && p.col - 1 < b.width && Left(p) !in vis)
    ensures f + Expand(b, vis, p) == f + PushIf(down, Down(p)) + PushIf(up, Up(p)) + PushIf(right, Right(p)) + PushIf(left, Left(p))
  {
    assert Expand(b, vis, p) == PushIf(down, Down(p)) + PushIf(up, Up(p)) + PushIf(right, Right(p)) + PushIf(left, Left(p));
  }


  /** intelligent_agent: the loop with a FIFO queue (breadth-first). */
  method IntelligentAgent(m: Maze, fuel: nat) returns (outcome: Outcome)
    requires m.Valid()
    modifies m, m.visited
    ensures m.Valid()
    ensures var run := Agent(Fifo, m.Layout(), old(m.Visited), [m.StartCoord()], fuel);
            outcome == run.outcome && m.Visited == run.visited
  {
    outcome := Search(m, Fifo, fuel);
  }

  /** stack_agent: the loop with a LIFO stack (depth-first). */
  method StackAgent(m: Maze, fuel: nat) returns (outcome: Outcome)
    requires m.Valid()
    modifies m, m.visited
    ensures m.Valid()
    ensures var run := Agent(Lifo, m.Layout(), old(m.Visited), [m.StartCoord()], fuel);
            outcome == run.outcome && m.Visited == run.visited
  {
    outcome := Search(m, Lifo, fuel);
  }
}
