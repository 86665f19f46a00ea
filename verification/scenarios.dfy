/**
 * Small mazes run through both agents, as whole traces of `explore` calls.
 */
module Scenarios {
  import opened MazeModel
  import opened Agents

  /** A vertical corridor from a start on the top border to a goal on the bottom border. */
  function BorderCorridor(): (b: Board)
    ensures b.WellFormed()
  {
    Board(3, 3, ["#o#", "#.#", "#*#"])
  }

  /** A start on the left border with the goal below it, also on the left border. */
  function BorderColumn(): (b: Board)
    ensures b.WellFormed()
  {
    Board(4, 3, ["###", "o.#", "*.#", "###"])
  }

  /** A horizontal corridor with start and goal inside the border. */
  function InnerCorridor(): (b: Board)
    ensures b.WellFormed()
  {
    Board(3, 5, ["#####", "#o.*#", "#####"])
  }

  /** The goal is walled off from the start. */
  function WalledGoal(): (b: Board)
    ensures b.WellFormed()
  {
    Board(3, 5, ["#####", "#o#*#", "#####"])
  }

  /** Open space on both sides of the start; the goal lies to the left. */
  function TwoBranches(): (b: Board)
    ensures b.WellFormed()
  {
    Board(3, 7, ["#######", "#*.o..#", "#######"])
  }

  // Each run below is proved one iteration at a time: a `...Step` lemma
  // evaluates one iteration on the concrete board, and the lemma for a state
  // states the rest of the run from there, using `AgentUnrolls` and the lemma
  // for the state after it.

  lemma BorderStep1()
    ensures Iterate(Fifo, BorderCorridor(), {}, [Coord(0, 1)]) ==
            Iteration(Coord(0, 1), Start, {Coord(0, 1)}, [Coord(1, 1)])
  {
  }

  lemma BorderStep2()
    ensures Iterate(Fifo, BorderCorridor(), {Coord(0, 1)}, [Coord(1, 1)]) ==
            Iteration(Coord(1, 1), Open, {Coord(0, 1), Coord(1, 1)}, [])
  {
    assert CanExplore(BorderCorridor(), {Coord(0, 1)}, 1, 1);
  }

  /**
   * The goal on the bottom border is never pushed, because the down test asks
   * for row + 1 < height - 1: whatever the budget beyond two, the breadth-first
   * agent reveals the start and the open cell below it and then runs out of
   * frontier.
   */
  lemma BorderGoalIsNeverReached(fuel: nat)
    requires fuel >= 2
    ensures Agent(Fifo, BorderCorridor(), {}, [Coord(0, 1)], fuel) ==
            Run(Exhausted, {Coord(0, 1), Coord(1, 1)}, [Step(Coord(0, 1), Start), Step(Coord(1, 1), Open)])
  {
    BorderStep1();
    AgentUnrolls(Fifo, BorderCorridor(), {}, [Coord(0, 1)], fuel,
                 Iteration(Coord(0, 1), Start, {Coord(0, 1)}, [Coord(1, 1)]));
    BorderGoalSecond(fuel - 1);
  }

  lemma BorderGoalSecond(fuel: nat)
    requires fuel >= 1
    ensures Agent(Fifo, BorderCorridor(), {Coord(0, 1)}, [Coord(1, 1)], fuel) ==
            Run(Exhausted, {Coord(0, 1), Coord(1, 1)}, [Step(Coord(1, 1), Open)])
  {
    BorderStep2();
    AgentUnrolls(Fifo, BorderCorridor(), {Coord(0, 1)}, [Coord(1, 1)], fuel,
                 Iteration(Coord(1, 1), Open, {Coord(0, 1), Coord(1, 1)}, []));
  }

  lemma ColumnStep1()
    ensures Iterate(Fifo, BorderColumn(), {}, [Coord(1, 0)]) ==
            Iteration(Coord(1, 0), Start, {Coord(1, 0)}, [Coord(2, 0), Coord(1, 1)])
  {
  }

  lemma ColumnStep2()
    ensures Iterate(Fifo, BorderColumn(), {Coord(1, 0)}, [Coord(2, 0), Coord(1, 1)]) ==
            Iteration(Coord(2, 0), Goal, {Coord(1, 0), Coord(2, 0)}, [Coord(1, 1)])
  {
    assert CanExplore(BorderColumn(), {Coord(1, 0)}, 2, 0);
  }

  /**
   * Only the coordinate that moves is compared with the border: from a start
   * in column 0, the cell below it, also in column 0, is pushed, and the goal
   * there is found on the second `explore`.
   */
  lemma BorderColumnGoalFound(fuel: nat)
    requires fuel >= 2
    ensures Agent(Fifo, BorderColumn(), {}, [Coord(1, 0)], fuel) ==
            Run(Found(Coord(2, 0)), {Coord(1, 0), Coord(2, 0)}, [Step(Coord(1, 0), Start), Step(Coord(2, 0), Goal)])
  {
    ColumnStep1();
    AgentUnrolls(Fifo, BorderColumn(), {}, [Coord(1, 0)], fuel,
                 Iteration(Coord(1, 0), Start, {Coord(1, 0)}, [Coord(2, 0), Coord(1, 1)]));
    BorderColumnSecond(fuel - 1);
  }

  lemma BorderColumnSecond(fuel: nat)
    requires fuel >= 1
    ensures Agent(Fifo, BorderColumn(), {Coord(1, 0)}, [Coord(2, 0), Coord(1, 1)], fuel) ==
            Run(Found(Coord(2, 0)), {Coord(1, 0), Coord(2, 0)}, [Step(Coord(2, 0), Goal)])
  {
    ColumnStep2();
    AgentUnrolls(Fifo, BorderColumn(), {Coord(1, 0)}, [Coord(2, 0), Coord(1, 1)], fuel,
                 Iteration(Coord(2, 0), Goal, {Coord(1, 0), Coord(2, 0)}, [Coord(1, 1)]));
  }

  lemma InnerStep1()
    ensures Iterate(Fifo, InnerCorridor(), {}, [Coord(1, 1)]) ==
            Iteration(Coord(1, 1), Start, {Coord(1, 1)}, [Coord(1, 2)])
  {
  }

  lemma InnerStep2()
    ensures Iterate(Fifo, InnerCorridor(), {Coord(1, 1)}, [Coord(1, 2)]) ==
            Iteration(Coord(1, 2), Open, {Coord(1, 1), Coord(1, 2)}, [Coord(1, 3)])
  {
    assert CanExplore(InnerCorridor(), {Coord(1, 1)}, 1, 2);
  }

  lemma InnerStep3()
    ensures Iterate(Fifo, InnerCorridor(), {Coord(1, 1), Coord(1, 2)}, [Coord(1, 3)]) ==
            Iteration(Coord(1, 3), Goal, {Coord(1, 1), Coord(1, 2), Coord(1, 3)}, [])
  {
    assert CanExplore(InnerCorridor(), {Coord(1, 1), Coord(1, 2)}, 1, 3);
  }

  /** An inner goal two steps away is found by the queue agent on the third `explore`. */
  lemma InnerCorridorFound(fuel: nat)
    requires fuel >= 3
    ensures Agent(Fifo, InnerCorridor(), {}, [Coord(1, 1)], fuel) ==
            Run(Found(Coord(1, 3)), {Coord(1, 1), Coord(1, 2), Coord(1, 3)},
                [Step(Coord(1, 1), Start), Step(Coord(1, 2), Open), Step(Coord(1, 3), Goal)])
  {
    InnerStep1();
    AgentUnrolls(Fifo, InnerCorridor(), {}, [Coord(1, 1)], fuel,
                 Iteration(Coord(1, 1), Start, {Coord(1, 1)}, [Coord(1, 2)]));
    InnerCorridorSecond(fuel - 1);
  }

  lemma InnerCorridorSecond(fuel: nat)
    requires fuel >= 2
    ensures Agent(Fifo, InnerCorridor(), {Coord(1, 1)}, [Coord(1, 2)], fuel) ==
            Run(Found(Coord(1, 3)), {Coord(1, 1), Coord(1, 2), Coord(1, 3)},
                [Step(Coord(1, 2), Open), Step(Coord(1, 3), Goal)])
  {
    InnerStep2();
    AgentUnrolls(Fifo, InnerCorridor(), {Coord(1, 1)}, [Coord(1, 2)], fuel,
                 Iteration(Coord(1, 2), Open, {Coord(1, 1), Coord(1, 2)}, [Coord(1, 3)]));
    InnerCorridorThird(fuel - 1);
  }

  lemma InnerCorridorThird(fuel: nat)
    requires fuel >= 1
    ensures Agent(Fifo, InnerCorridor(), {Coord(1, 1), Coord(1, 2)}, [Coord(1, 3)], fuel) ==
            Run(Found(Coord(1, 3)), {Coord(1, 1), Coord(1, 2), Coord(1, 3)}, [Step(Coord(1, 3), Goal)])
  {
    InnerStep3();
    AgentUnrolls(Fifo, InnerCorridor(), {Coord(1, 1), Coord(1, 2)}, [Coord(1, 3)], fuel,
                 Iteration(Coord(1, 3), Goal, {Coord(1, 1), Coord(1, 2), Coord(1, 3)}, []));
  }

  lemma WalledStep1()
    ensures Iterate(Lifo, WalledGoal(), {}, [Coord(1, 1)]) ==
            Iteration(Coord(1, 1), Start, {Coord(1, 1)}, [Coord(1, 2)])
  {
  }

  lemma WalledStep2()
    ensures Iterate(Lifo, WalledGoal(), {Coord(1, 1)}, [Coord(1, 2)]) ==
            Iteration(Coord(1, 2), Wall, {Coord(1, 1), Coord(1, 2)}, [])
  {
    assert CanExplore(WalledGoal(), {Coord(1, 1)}, 1, 2);
  }

  /**
   * A walled-off goal: the stack agent reveals the start and the wall beside
   * it, pushes nothing after the wall, and ends with an empty frontier.
   */
  lemma WalledGoalExhausts(fuel: nat)
    requires fuel >= 2
    ensures Agent(Lifo, WalledGoal(), {}, [Coord(1, 1)], fuel) ==
            Run(Exhausted, {Coord(1, 1), Coord(1, 2)}, [Step(Coord(1, 1), Start), Step(Coord(1, 2), Wall)])
  {
    WalledStep1();
    AgentUnrolls(Lifo, WalledGoal(), {}, [Coord(1, 1)], fuel,
                 Iteration(Coord(1, 1), Start, {Coord(1, 1)}, [Coord(1, 2)]));
    WalledGoalSecond(fuel - 1);
    assert [Step(Coord(1, 1), Start)] + [Step(Coord(1, 2), Wall)] ==
           [Step(Coord(1, 1), Start), Step(Coord(1, 2), Wall)];
  }

  lemma WalledGoalSecond(fuel: nat)
    requires fuel >= 1
    ensures Agent(Lifo, WalledGoal(), {Coord(1, 1)}, [Coord(1, 2)], fuel) ==
            Run(Exhausted, {Coord(1, 1), Coord(1, 2)}, [Step(Coord(1, 2), Wall)])
  {
    WalledStep2();
    AgentUnrolls(Lifo, WalledGoal(), {Coord(1, 1)}, [Coord(1, 2)], fuel,
                 Iteration(Coord(1, 2), Wall, {Coord(1, 1), Coord(1, 2)}, []));
  }

  lemma QueueStep1()
    ensures Iterate(Fifo, TwoBranches(), {}, [Coord(1, 3)]) ==
            Iteration(Coord(1, 3), Start, {Coord(1, 3)}, [Coord(1, 4), Coord(1, 2)])
  {
  }

  lemma QueueStep2()
    ensures Iterate(Fifo, TwoBranches(), {Coord(1, 3)}, [Coord(1, 4), Coord(1, 2)]) ==
            Iteration(Coord(1, 4), Open, {Coord(1, 3), Coord(1, 4)}, [Coord(1, 2), Coord(1, 5)])
  {
    assert CanExplore(TwoBranches(), {Coord(1, 3)}, 1, 4);
  }

  lemma QueueStep3()
    ensures Iterate(Fifo, TwoBranches(), {Coord(1, 3), Coord(1, 4)}, [Coord(1, 2), Coord(1, 5)]) ==
            Iteration(Coord(1, 2), Open, {Coord(1, 3), Coord(1, 4), Coord(1, 2)}, [Coord(1, 5), Coord(1, 1)])
  {
    assert CanExplore(TwoBranches(), {Coord(1, 3), Coord(1, 4)}, 1, 2);
  }

  lemma QueueStep4()
    ensures Iterate(Fifo, TwoBranches(), {Coord(1, 3), Coord(1, 4), Coord(1, 2)}, [Coord(1, 5), Coord(1, 1)]) ==
            Iteration(Coord(1, 5), Open, {Coord(1, 3), Coord(1, 4), Coord(1, 2), Coord(1, 5)}, [Coord(1, 1)])
  {
    assert CanExplore(TwoBranches(), {Coord(1, 3), Coord(1, 4), Coord(1, 2)}, 1, 5);
  }

  lemma QueueStep5()
    ensures Iterate(Fifo, TwoBranches(), {Coord(1, 3), Coord(1, 4), Coord(1, 2), Coord(1, 5)}, [Coord(1, 1)]).result == Goal
  {
    assert CanExplore(TwoBranches(), {Coord(1, 3), Coord(1, 4), Coord(1, 2), Coord(1, 5)}, 1, 1);
  }

  /**
   * Two branches, breadth-first: the queue agent alternates between the two
   * sides in order of distance from the start and needs five reveals.
   */
  lemma TwoBranchesQueue(fuel: nat)
    requires fuel >= 5
    ensures Agent(Fifo, TwoBranches(), {}, [Coord(1, 3)], fuel).trace ==
            [Step(Coord(1, 3), Start), Step(Coord(1, 4), Open), Step(Coord(1, 2), Open),
             Step(Coord(1, 5), Open), Step(Coord(1, 1), Goal)]
  {
    QueueStep1();
    AgentUnrolls(Fifo, TwoBranches(), {}, [Coord(1, 3)], fuel,
                 Iteration(Coord(1, 3), Start, {Coord(1, 3)}, [Coord(1, 4), Coord(1, 2)]));
    TwoBranchesQueueSecond(fuel - 1);
  }

  lemma TwoBranchesQueueSecond(fuel: nat)
    requires fuel >= 4
    ensures Agent(Fifo, TwoBranches(), {Coord(1, 3)}, [Coord(1, 4), Coord(1, 2)], fuel).trace ==
            [Step(Coord(1, 4), Open), Step(Coord(1, 2), Open), Step(Coord(1, 5), Open), Step(Coord(1, 1), Goal)]
  {
    QueueStep2();
    AgentUnrolls(Fifo, TwoBranches(), {Coord(1, 3)}, [Coord(1, 4), Coord(1, 2)], fuel,
                 Iteration(Coord(1, 4), Open, {Coord(1, 3), Coord(1, 4)}, [Coord(1, 2), Coord(1, 5)]));
    TwoBranchesQueueThird(fuel - 1);
  }

  lemma TwoBranchesQueueThird(fuel: nat)
    requires fuel >= 3
    ensures Agent(Fifo, TwoBranches(), {Coord(1, 3), Coord(1, 4)}, [Coord(1, 2), Coord(1, 5)], fuel).trace ==
            [Step(Coord(1, 2), Open), Step(Coord(1, 5), Open), Step(Coord(1, 1), Goal)]
  {
    QueueStep3();
    AgentUnrolls(Fifo, TwoBranches(), {Coord(1, 3), Coord(1, 4)}, [Coord(1, 2), Coord(1, 5)], fuel,
                 Iteration(Coord(1, 2), Open, {Coord(1, 3), Coord(1, 4), Coord(1, 2)}, [Coord(1, 5), Coord(1, 1)]));
    TwoBranchesQueueFourth(fuel - 1);
  }

  lemma TwoBranchesQueueFourth(fuel: nat)
    requires fuel >= 2
    ensures Agent(Fifo, TwoBranches(), {Coord(1, 3), Coord(1, 4), Coord(1, 2)}, [Coord(1, 5), Coord(1, 1)], fuel).trace ==
            [Step(Coord(1, 5), Open), Step(Coord(1, 1), Goal)]
  {
    QueueStep4();
    AgentUnrolls(Fifo, TwoBranches(), {Coord(1, 3), Coord(1, 4), Coord(1, 2)}, [Coord(1, 5), Coord(1, 1)], fuel,
                 Iteration(Coord(1, 5), Open, {Coord(1, 3), Coord(1, 4), Coord(1, 2), Coord(1, 5)}, [Coord(1, 1)]));
    TwoBranchesQueueFifth(fuel - 1);
  }

  lemma TwoBranchesQueueFifth(fuel: nat)
    requires fuel >= 1
    ensures Agent(Fifo, TwoBranches(), {Coord(1, 3), Coord(1, 4), Coord(1, 2), Coord(1, 5)}, [Coord(1, 1)], fuel).trace ==
            [Step(Coord(1, 1), Goal)]
  {
    QueueStep5();
    AgentFirstStep(Fifo, TwoBranches(), {Coord(1, 3), Coord(1, 4), Coord(1, 2), Coord(1, 5)}, [Coord(1, 1)], fuel);
  }

  lemma StackStep1()
    ensures Iterate(Lifo, TwoBranches(), {}, [Coord(1, 3)]) ==
            Iteration(Coord(1, 3), Start, {Coord(1, 3)}, [Coord(1, 4), Coord(1, 2)])
  {
  }

  lemma StackStep2()
    ensures Iterate(Lifo, TwoBranches(), {Coord(1, 3)}, [Coord(1, 4), Coord(1, 2)]) ==
            Iteration(Coord(1, 2), Open, {Coord(1, 3), Coord(1, 2)}, [Coord(1, 4), Coord(1, 1)])
  {
    assert CanExplore(TwoBranches(), {Coord(1, 3)}, 1, 2);
  }

  lemma StackStep3()
    ensures Iterate(Lifo, TwoBranches(), {Coord(1, 3), Coord(1, 2)}, [Coord(1, 4), Coord(1, 1)]).result == Goal
  {
    assert CanExplore(TwoBranches(), {Coord(1, 3), Coord(1, 2)}, 1, 1);
  }

  /**
   * Two branches, depth-first: the stack agent follows the left neighbour,
   * pushed last, and needs three reveals.
   */
  lemma TwoBranchesStack(fuel: nat)
    requires fuel >= 3
    ensures Agent(Lifo, TwoBranches(), {}, [Coord(1, 3)], fuel).trace ==
            [Step(Coord(1, 3), Start), Step(Coord(1, 2), Open), Step(Coord(1, 1), Goal)]
  {
    StackStep1();
    AgentUnrolls(Lifo, TwoBranches(), {}, [Coord(1, 3)], fuel,
                 Iteration(Coord(1, 3), Start, {Coord(1, 3)}, [Coord(1, 4), Coord(1, 2)]));
    TwoBranchesStackSecond(fuel - 1);
  }

  lemma TwoBranchesStackSecond(fuel: nat)
    requires fuel >= 2
    ensures Agent(Lifo, TwoBranches(), {Coord(1, 3)}, [Coord(1, 4), Coord(1, 2)], fuel).trace ==
            [Step(Coord(1, 2), Open), Step(Coord(1, 1), Goal)]
  {
    StackStep2();
    AgentUnrolls(Lifo, TwoBranches(), {Coord(1, 3)}, [Coord(1, 4), Coord(1, 2)], fuel,
                 Iteration(Coord(1, 2), Open, {Coord(1, 3), Coord(1, 2)}, [Coord(1, 4), Coord(1, 1)]));
    TwoBranchesStackThird(fuel - 1);
  }

  lemma TwoBranchesStackThird(fuel: nat)
    requires fuel >= 1
    ensures Agent(Lifo, TwoBranches(), {Coord(1, 3), Coord(1, 2)}, [Coord(1, 4), Coord(1, 1)], fuel).trace ==
            [Step(Coord(1, 1), Goal)]
  {
    StackStep3();
    AgentFirstStep(Lifo, TwoBranches(), {Coord(1, 3), Coord(1, 2)}, [Coord(1, 4), Coord(1, 1)], fuel);
  }

  /** A client of the Maze object: the queue agent on the inner corridor. */
  method InnerCorridorHarness() returns (outcome: Outcome)
    ensures outcome == Found(Coord(1, 3))
  {
    var rows := ["#####", "#o.*#", "#####"];
    assert rows[1][1] == Start;
    var m := new Maze(5, 3, rows);
    assert IsLastOccurrence(m.Layout(), Start, Coord(1, 1));
    outcome := IntelligentAgent(m, 10);
    InnerCorridorFound(10);
  }
}
