/**
 * How main.cpp stores a frontier: not as pairs but as a flat container of
 * ints, two per entry. `intelligent_agent` pushes row then column onto a
 * queue and pops row then column from its front; `stack_agent` pushes column
 * then row onto a stack and pops row then column from its top. The agents of
 * this model keep a sequence of `Coord` pairs instead; the lemmas here show
 * that both int encodings give back exactly the pair that was pushed, so the
 * pair sequence is a faithful view of either container.
 */
module FrontierEncoding {
  import opened MazeModel

  /** The ints of `maze_queue` for frontier `f`, front first: r0, c0, r1, c1, ... */
  function QueueInts(f: seq<Coord>): seq<int> {
    if |f| == 0 then [] else [f[0].row, f[0].col] + QueueInts(f[1..])
  }

  /** The ints of `maze_stack` for frontier `f`, bottom first and top last: c0, r0, c1, r1, ... */
  function StackInts(f: seq<Coord>): seq<int> {
    if |f| == 0 then [] else StackInts(f[..|f| - 1]) + [f[|f| - 1].col, f[|f| - 1].row]
  }

  /** Each entry takes exactly two ints in the queue. */
  lemma {:induction false} QueueIntsLength(f: seq<Coord>)
    ensures |QueueInts(f)| == 2 * |f|
  {
    if |f| > 0 {
      QueueIntsLength(f[1..]);
    }
  }

  /** Each entry takes exactly two ints on the stack. */
  lemma {:induction false} StackIntsLength(f: seq<Coord>)
    ensures |StackInts(f)| == 2 * |f|
  {
    if |f| > 0 {
      StackIntsLength(f[..|f| - 1]);
    }
  }

  /** The queue of a concatenation is the concatenation of the queues. */
  lemma {:induction false} QueueIntsAppend(a: seq<Coord>, b: seq<Coord>)
    ensures QueueInts(a + b) == QueueInts(a) + QueueInts(b)
  {
    if |a| == 0 {
      assert a + b == b;
    } else {
      assert (a + b)[1..] == a[1..] + b;
      QueueIntsAppend(a[1..], b);
    }
  }

  /** Pushing row, then column, onto the queue appends the pair to the frontier. */
  lemma QueuePushPair(f: seq<Coord>, p: Coord)
    ensures QueueInts(f) + [p.row] + [p.col] == QueueInts(f + [p])
  {
    QueueIntsAppend(f, [p]);
    assert QueueInts([p]) == [p.row, p.col] + QueueInts([]);
  }

  /**
   * Popping the queue front twice yields the row, then the column, of the
   * oldest entry, and leaves the queue of the remaining entries. The queue
   * holds exactly two ints per entry, so it is empty only with the frontier.
   */
  lemma QueuePopPair(f: seq<Coord>)
    requires |f| > 0
    ensures var q := QueueInts(f);
            |q| == 2 * |f| && q[0] == f[0].row && q[1..][0] == f[0].col && q[1..][1..] == QueueInts(f[1..])
  {
    var q := QueueInts(f);
    QueueIntsLength(f);
    assert q == [f[0].row, f[0].col] + QueueInts(f[1..]);
    assert q[1..][1..] == q[2..];
  }

  /** Pushing column, then row, onto the stack appends the pair to the frontier. */
  lemma StackPushPair(f: seq<Coord>, p: Coord)
    ensures StackInts(f) + [p.col] + [p.row] == StackInts(f + [p])
  {
    assert (f + [p])[..|f|] == f;
  }

  /**
   * Popping the stack top twice yields the row, then the column, of the newest
   * entry, and leaves the stack of the remaining entries. The stack holds
   * exactly two ints per entry, so it is empty only with the frontier.
   */
  lemma StackPopPair(f: seq<Coord>)
    requires |f| > 0
    ensures var s := StackInts(f);
            var s1 := s[..|s| - 1];
            |s| == 2 * |f| && s[|s| - 1] == f[|f| - 1].row && s1[|s1| - 1] == f[|f| - 1].col &&
            s1[..|s1| - 1] == StackInts(f[..|f| - 1])
  {
    var rest := StackInts(f[..|f| - 1]);
    StackIntsLength(f);
    assert StackInts(f) == rest + [f[|f| - 1].col, f[|f| - 1].row];
  }
}
