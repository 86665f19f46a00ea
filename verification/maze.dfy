/**
 * The fog-of-war maze of maze.h: a rectangular grid of cell symbols, a
 * parallel grid of "visited" flags, and the adjacency-gated reveal rule
 * `explore`, which is the only operation that changes a flag.
 *
 * The first half of the module is the rule on values (a `Board` and the set of
 * visited coordinates); the second half is the `Maze` class, whose arrays are
 * updated in place and whose methods are proved against the value-level rule.
 */
module MazeModel {

  datatype Option<T> = None | Some(value: T)

  /** A (row, column) position; rows grow downwards, columns to the right. */
  datatype Coord = Coord(row: int, col: int)

  // Cell symbols of the maze file format.
  const Wall: char := '#'
  const Start: char := 'o'
  const Goal: char := '*'
  const Open: char := '.'

  // Sentinels returned by `explore` when it refuses a request.
  const OutOfBounds: char := 'X'
  const NotReachable: char := '?'

  /** The immutable part of a maze: its dimensions and its cell symbols. */
  datatype Board = Board(height: int, width: int, grid: seq<seq<char>>)
  {
    /** `grid` has `height` rows of `width` symbols each. */
    predicate WellFormed() {
      |grid| == height && forall i :: 0 <= i < |grid| ==> |grid[i]| == width
    }

    predicate InBounds(row: int, col: int) {
      0 <= row < height && 0 <= col < width
    }

    function At(row: int, col: int): char
      requires WellFormed() && InBounds(row, col)
    {
      grid[row][col]
    }

    /** Cells from which a neighbour may be revealed: the start and open space. */
    predicate Passable(row: int, col: int)
      requires WellFormed() && InBounds(row, col)
    {
      At(row, col) == Start || At(row, col) == Open
    }
  }

  // ---------------------------------------------------------------------------
  // The reveal rule on values
  // ---------------------------------------------------------------------------

  /** A visited cell that holds the start or open space. */
  predicate OpenVisited(b: Board, vis: set<Coord>, row: int, col: int)
    requires b.WellFormed() && b.InBounds(row, col)
  {
    Coord(row, col) in vis && b.Passable(row, col)
  }

  /**
   * The guard of `explore`, clause by clause as maze.h states it: the cell is
   * visited, or one of the four neighbours that exists is a visited start or
   * open cell, or the cell is the start.
   */
  predicate CanExplore(b: Board, vis: set<Coord>, row: int, col: int)
    requires b.WellFormed() && b.InBounds(row, col)
  {
    Coord(row, col) in vis
    || (row != 0 && OpenVisited(b, vis, row - 1, col))
    || (row + 1 != b.height && OpenVisited(b, vis, row + 1, col))
    || (col != 0 && OpenVisited(b, vis, row, col - 1))
    || (col + 1 != b.width && OpenVisited(b, vis, row, col + 1))
    || b.At(row, col) == Start
  }

  /** Orthogonal adjacency: the two positions differ by one step in one axis. */
  predicate Adjacent(p: Coord, q: Coord) {
    (p.row == q.row && (p.col == q.col + 1 || p.col + 1 == q.col))
    || (p.col == q.col && (p.row == q.row + 1 || p.row + 1 == q.row))
  }

  /** What `explore` returns and the visited set it leaves behind. */
  datatype Revealed = Revealed(result: char, visited: set<Coord>)

  /** The value-level meaning of one `explore(row, col)` call. */
  function Reveal(b: Board, vis: set<Coord>, row: int, col: int): Revealed
    requires b.WellFormed()
  {
    if !b.InBounds(row, col) then Revealed(OutOfBounds, vis)
    else if CanExplore(b, vis, row, col) then Revealed(b.At(row, col), vis + {Coord(row, col)})
    else Revealed(NotReachable, vis)
  }

  /**
   * The guard is exactly "visited, or the start, or next to a visited start or
   * open cell": the border tests of maze.h only stop it from looking past the
   * edge. A visited wall or goal neighbour does not qualify.
   */
  lemma CanExploreIffAdjacentOpen(b: Board, vis: set<Coord>, row: int, col: int)
    requires b.WellFormed() && b.InBounds(row, col)
    ensures CanExplore(b, vis, row, col) <==>
      Coord(row, col) in vis || b.At(row, col) == Start ||
      exists q :: q in vis && b.InBounds(q.row, q.col) && Adjacent(q, Coord(row, col)) && b.Passable(q.row, q.col)
  {
    var p := Coord(row, col);
    if row != 0 && OpenVisited(b, vis, row - 1, col) {
      var q := Coord(row - 1, col);
      assert q in vis && b.InBounds(q.row, q.col) && Adjacent(q, p) && b.Passable(q.row, q.col);
    } else if row + 1 != b.height && OpenVisited(b, vis, row + 1, col) {
      var q := Coord(row + 1, col);
      assert q in vis && b.InBounds(q.row, q.col) && Adjacent(q, p) && b.Passable(q.row, q.col);
    } else if col != 0 && OpenVisited(b, vis, row, col - 1) {
      var q := Coord(row, col - 1);
      assert q in vis && b.InBounds(q.row, q.col) && Adjacent(q, p) && b.Passable(q.row, q.col);
    } else if col + 1 != b.width && OpenVisited(b, vis, row, col + 1) {
      var q := Coord(row, col + 1);
      assert q in vis && b.InBounds(q.row, q.col) && Adjacent(q, p) && b.Passable(q.row, q.col);
    } else {
      forall q | q in vis && b.InBounds(q.row, q.col) && Adjacent(q, p)
        ensures !b.Passable(q.row, q.col)
      {
        assert OpenVisited(b, vis, q.row, q.col) ==> false;
      }
    }
  }

  /** Revealing more cells never withdraws permission to explore a cell. */
  lemma CanExploreMonotone(b: Board, vis: set<Coord>, vis': set<Coord>, row: int, col: int)
    requires b.WellFormed() && b.InBounds(row, col)
    requires vis <= vis' && CanExplore(b, vis, row, col)
    ensures CanExplore(b, vis', row, col)
  {
  }

  /** A request outside the grid, negative indices included, is refused with 'X' and changes nothing. */
  lemma RevealOutOfBounds(b: Board, vis: set<Coord>, row: int, col: int)
    requires b.WellFormed()
    requires row < 0 || col < 0 || row >= b.height || col >= b.width
    ensures Reveal(b, vis, row, col) == Revealed(OutOfBounds, vis)
  {
  }

  /** The start cell is always revealed, whatever has been visited before. */
  lemma RevealStart(b: Board, vis: set<Coord>, row: int, col: int)
    requires b.WellFormed() && b.InBounds(row, col) && b.At(row, col) == Start
    ensures Reveal(b, vis, row, col) == Revealed(Start, vis + {Coord(row, col)})
  {
  }

  /**
   * Revealing a cell a second time succeeds again, returns the same symbol and
   * leaves the visited set as the first reveal left it.
   */
  lemma RevealIdempotent(b: Board, vis: set<Coord>, row: int, col: int)
    requires b.WellFormed()
    requires Reveal(b, vis, row, col).result != OutOfBounds
    requires Reveal(b, vis, row, col).result != NotReachable
    ensures var first := Reveal(b, vis, row, col);
            b.InBounds(row, col) && Coord(row, col) in first.visited &&
            Reveal(b, first.visited, row, col) == first
  {
    var first := Reveal(b, vis, row, col);
    assert b.InBounds(row, col) && CanExplore(b, vis, row, col);
    assert first.visited + {Coord(row, col)} == first.visited;
  }

  /**
   * A refused in-bounds request answers '?' and changes nothing; it is refused
   * exactly when the cell is unvisited, not the start, and has no visited
   * start or open neighbour.
   */
  lemma RevealNotReachable(b: Board, vis: set<Coord>, row: int, col: int)
    requires b.WellFormed() && b.InBounds(row, col)
    requires Coord(row, col) !in vis && b.At(row, col) != Start
    requires forall q :: q in vis && b.InBounds(q.row, q.col) && Adjacent(q, Coord(row, col)) ==> !b.Passable(q.row, q.col)
    ensures Reveal(b, vis, row, col) == Revealed(NotReachable, vis)
  {
    CanExploreIffAdjacentOpen(b, vis, row, col);
  }

  /**
   * Whatever the answer, `explore` touches at most the requested flag, only ever
   * sets it, and a successful answer is the cell's own symbol.
   */
  lemma RevealFrame(b: Board, vis: set<Coord>, row: int, col: int)
    requires b.WellFormed()
    ensures var s := Reveal(b, vis, row, col);
            vis <= s.visited && s.visited <= vis + {Coord(row, col)} &&
            (s.visited != vis ==> b.InBounds(row, col) && s.result == b.At(row, col))
  {
  }

  /**
   * An answer other than the two sentinels comes from a legal reveal: the cell
   * is on the grid, the guard held, the cell is now visited and the answer is
   * its symbol.
   */
  lemma RevealSucceeded(b: Board, vis: set<Coord>, row: int, col: int)
    requires b.WellFormed()
    requires Reveal(b, vis, row, col).result != OutOfBounds
    requires Reveal(b, vis, row, col).result != NotReachable
    ensures b.InBounds(row, col) && CanExplore(b, vis, row, col)
    ensures Reveal(b, vis, row, col) == Revealed(b.At(row, col), vis + {Coord(row, col)})
  {
  }

  // ---------------------------------------------------------------------------
  // The constructor's scan for the start and the goal
  // ---------------------------------------------------------------------------

  /** Position (r, c) comes strictly before position (i, j) in row-major order. */
  predicate Before(r: int, c: int, i: int, j: int) {
    r < i || (r == i && c < j)
  }

  /** `p` holds `sym`, and no later cell in row-major order does. */
  ghost predicate IsLastOccurrence(b: Board, sym: char, p: Coord)
    requires b.WellFormed()
  {
    b.InBounds(p.row, p.col) && b.At(p.row, p.col) == sym &&
    forall r, c :: b.InBounds(r, c) && Before(p.row, p.col, r, c) ==> b.grid[r][c] != sym
  }

  ghost predicate Occurs(b: Board, sym: char)
    requires b.WellFormed()
  {
    exists r, c :: b.InBounds(r, c) && b.grid[r][c] == sym
  }

  /**
   * What a scan that has looked at every cell before (i, j) knows: `found` is
   * the last cell so far holding `sym`, or None if there was none.
   */
  ghost predicate ScannedFor(b: Board, sym: char, found: Option<Coord>, i: int, j: int)
    requires b.WellFormed()
  {
    match found
    case None =>
      forall r, c :: b.InBounds(r, c) && Before(r, c, i, j) ==> b.grid[r][c] != sym
    case Some(p) =>
      b.InBounds(p.row, p.col) && Before(p.row, p.col, i, j) && b.At(p.row, p.col) == sym &&
      forall r, c :: b.InBounds(r, c) && Before(r, c, i, j) && Before(p.row, p.col, r, c) ==> b.grid[r][c] != sym
  }

  /** One scan step at cell (i, j): a match replaces whatever was found before. */
  lemma ScanStep(b: Board, sym: char, found: Option<Coord>, i: int, j: int)
    requires b.WellFormed() && b.InBounds(i, j) && ScannedFor(b, sym, found, i, j)
    ensures b.At(i, j) == sym ==> ScannedFor(b, sym, Some(Coord(i, j)), i, j + 1)
    ensures b.At(i, j) != sym ==> ScannedFor(b, sym, found, i, j + 1)
  {
  }

  /** Finishing a row is the same as starting the next one. */
  lemma ScanRowEnd(b: Board, sym: char, found: Option<Coord>, i: int)
    requires b.WellFormed() && ScannedFor(b, sym, found, i, b.width)
    ensures ScannedFor(b, sym, found, i + 1, 0)
  {
  }

  /** After the whole grid the scan has found the last occurrence, if any. */
  lemma ScanDone(b: Board, sym: char, found: Option<Coord>)
    requires b.WellFormed() && ScannedFor(b, sym, found, b.height, 0)
    ensures found.None? <==> !Occurs(b, sym)
    ensures found.Some? ==> IsLastOccurrence(b, sym, found.value)
  {
  }

  /**
   * The check made on each cell as it is read: an 'o' replaces the start found
   * so far, and otherwise a '*' replaces the goal found so far.
   */
  method ScanCell(b: Board, i: int, j: int, start: Option<Coord>, goal: Option<Coord>)
    returns (start': Option<Coord>, goal': Option<Coord>)
    requires b.WellFormed() && b.InBounds(i, j)
    requires ScannedFor(b, Start, start, i, j) && ScannedFor(b, Goal, goal, i, j)
    ensures ScannedFor(b, Start, start', i, j + 1) && ScannedFor(b, Goal, goal', i, j + 1)
  {
    ScanStep(b, Start, start, i, j);
    ScanStep(b, Goal, goal, i, j);
    start', goal' := start, goal;
    if b.grid[i][j] == Start {
      start' := Some(Coord(i, j));
    } else if b.grid[i][j] == Goal {
      goal' := Some(Coord(i, j));
    }
  }

  /**
   * One pass of the constructor's inner loop over row `i`: copy each symbol,
   * clear each flag, and let every 'o' or '*' met replace the position found
   * so far. Rows other than `i` are left alone.
   */
  method ScanRow(b: Board, cells: array2<char>, seen: array2<bool>, i: int, start: Option<Coord>, goal: Option<Coord>)
    returns (start': Option<Coord>, goal': Option<Coord>)
    requires b.WellFormed() && 0 <= i < b.height
    requires cells.Length0 == b.height && cells.Length1 == b.width
    requires seen.Length0 == b.height && seen.Length1 == b.width
    requires ScannedFor(b, Start, start, i, 0) && ScannedFor(b, Goal, goal, i, 0)
    modifies cells, seen
    ensures forall r, c :: 0 <= r < b.height && 0 <= c < b.width && r != i ==> cells[r, c] == old(cells[r, c])
    ensures forall r, c :: 0 <= r < b.height && 0 <= c < b.width && r != i ==> seen[r, c] == old(seen[r, c])
    ensures forall c :: 0 <= c < b.width ==> cells[i, c] == b.grid[i][c]
    ensures forall c :: 0 <= c < b.width ==> !seen[i, c]
    ensures ScannedFor(b, Start, start', i + 1, 0) && ScannedFor(b, Goal, goal', i + 1, 0)
  {
    start', goal' := start, goal;
    var j := 0;
    while j < b.width
      invariant 0 <= j <= b.width
      invariant forall r, c :: 0 <= r < b.height && 0 <= c < b.width && r != i ==> cells[r, c] == old(cells[r, c])
      invariant forall r, c :: 0 <= r < b.height && 0 <= c < b.width && r != i ==> seen[r, c] == old(seen[r, c])
      invariant forall c :: 0 <= c < j ==> cells[i, c] == b.grid[i][c]
      invariant forall c :: 0 <= c < j ==> !seen[i, c]
      invariant ScannedFor(b, Start, start', i, j) && ScannedFor(b, Goal, goal', i, j)
    {
      cells[i, j] := b.grid[i][j];
      seen[i, j] := false;
      start', goal' := ScanCell(b, i, j, start', goal');
      j := j + 1;
    }
    ScanRowEnd(b, Start, start', i);
    ScanRowEnd(b, Goal, goal', i);
  }

  // ---------------------------------------------------------------------------
  // The Maze object of maze.h
  // ---------------------------------------------------------------------------

  /**
   * A maze whose `visited` flags are updated in place. `mazeArray` holds the
   * symbols and is never written after construction; the ghost set `Visited`
   * is the abstract view of the `visited` array.
   */
  class Maze {
    const height: int
    const width: int
    ghost const grid: seq<seq<char>>
    const mazeArray: array2<char>
    const visited: array2<bool>
    const startRow: int
    const startCol: int
    const finish: Option<Coord>
    ghost var Visited: set<Coord>

    ghost function Layout(): Board {
      Board(height, width, grid)
    }

    ghost predicate Valid()
      reads this, mazeArray, visited
    {
      Layout().WellFormed() &&
      mazeArray.Length0 == height && mazeArray.Length1 == width &&
      visited.Length0 == height && visited.Length1 == width &&
      (forall r, c :: 0 <= r < height && 0 <= c < width ==> mazeArray[r, c] == grid[r][c]) &&
      (forall r, c :: 0 <= r < height && 0 <= c < width ==> (visited[r, c] <==> Coord(r, c) in Visited)) &&
      (forall p :: p in Visited ==> Layout().InBounds(p.row, p.col)) &&
      Layout().InBounds(startRow, startCol) && grid[startRow][startCol] == Start
    }

    /**
     * Where the constructor's scan put the start and the goal: the last 'o' and
     * the last '*' in row-major order, the goal absent when there is no '*'.
     * Only constant fields are involved, so no later call can change this.
     */
    ghost predicate Located() {
      Layout().WellFormed() &&
      IsLastOccurrence(Layout(), Start, Coord(startRow, startCol)) &&
      (finish.None? <==> !Occurs(Layout(), Goal)) &&
      (finish.Some? ==> IsLastOccurrence(Layout(), Goal, finish.value))
    }

    /**
     * Builds the maze from an already parsed `height` x `width` grid. Every
     * flag starts false; the start (and the goal) is the LAST matching cell in
     * row-major order, because each match overwrites the previous one.
     */
    constructor (width: int, height: int, rows: seq<seq<char>>)
      requires |rows| == height && forall i :: 0 <= i < |rows| ==> |rows[i]| == width
      requires exists r, c :: 0 <= r < height && 0 <= c < width && rows[r][c] == Start
      ensures Valid() && Located() && fresh(mazeArray) && fresh(visited)
      ensures this.width == width && this.height == height && grid == rows
      ensures Visited == {}
      ensures forall r, c :: 0 <= r < height && 0 <= c < width ==> !visited[r, c]
    {
      var b := Board(height, width, rows);
      assert Occurs(b, Start);
      var cells := new char[height, width];
      var seen := new bool[height, width];
      var start: Option<Coord> := None;
      var goal: Option<Coord> := None;
      var i := 0;
      while i < height
        invariant 0 <= i <= height
        invariant forall r, c :: 0 <= r < i && 0 <= c < width ==> cells[r, c] == rows[r][c]
        invariant forall r, c :: 0 <= r < i && 0 <= c < width ==> !seen[r, c]
        invariant ScannedFor(b, Start, start, i, 0) && ScannedFor(b, Goal, goal, i, 0)
      {
        start, goal := ScanRow(b, cells, seen, i, start, goal);
        i := i + 1;
      }
      ScanDone(b, Start, start);
      ScanDone(b, Goal, goal);
      this.height := height;
      this.width := width;
      grid := rows;
      mazeArray := cells;
      visited := seen;
      startRow := start.value.row;
      startCol := start.value.col;
      finish := goal;
      Visited := {};
    }

    /** getStartRow / getStartCol: the start position, a cell holding 'o'. */
    function StartCoord(): (p: Coord)
      reads this, mazeArray, visited
      requires Valid()
      ensures Layout().InBounds(p.row, p.col) && mazeArray[p.row, p.col] == Start
    {
      Coord(startRow, startCol)
    }

    /** haveVisited: whether the cell has been revealed. Only defined on the grid. */
    function HaveVisited(row: int, col: int): (v: bool)
      reads this, mazeArray, visited
      requires Valid() && Layout().InBounds(row, col)
      ensures v <==> Coord(row, col) in Visited
    {
      visited[row, col]
    }

    /**
     * The guard of `explore`, read off the two arrays: the cell is visited, or
     * a neighbour that exists is visited and holds the start or open space, or
     * the cell is the start. It is the value-level rule `CanExplore`.
     */
    function Explorable(row: int, col: int): (ok: bool)
      reads this, mazeArray, visited
      requires Valid() && Layout().InBounds(row, col)
      ensures ok <==> CanExplore(Layout(), Visited, row, col)
    {
      visited[row, col]
      || (row != 0 && visited[row - 1, col] && (mazeArray[row - 1, col] == Start || mazeArray[row - 1, col] == Open))
      || (row + 1 != height && visited[row + 1, col] && (mazeArray[row + 1, col] == Start || mazeArray[row + 1, col] == Open))
      || (col != 0 && visited[row, col - 1] && (mazeArray[row, col - 1] == Start || mazeArray[row, col - 1] == Open))
      || (col + 1 != width && visited[row, col + 1] && (mazeArray[row, col + 1] == Start || mazeArray[row, col + 1] == Open))
      || mazeArray[row, col] == Start
    }

    /**
     * explore: reveal the cell if the guard allows it. Off the grid the answer
     * is 'X', a refused cell answers '?', and in both cases nothing changes;
     * otherwise exactly that cell's flag becomes true and its symbol is returned.
     */
    method Explore(row: int, col: int) returns (res: char)
      requires Valid()
      modifies this, visited
      ensures Valid()
      ensures var s := Reveal(Layout(), old(Visited), row, col);
              res == s.result && Visited == s.visited
      ensures forall r, c :: 0 <= r < height && 0 <= c < width && (r != row || c != col) ==>
                visited[r, c] == old(visited[r, c])
    {
      if row < 0 || col < 0 || row >= height || col >= width {
        return OutOfBounds;
      }
      if Explorable(row, col) {
        visited[row, col] := true;
        Visited := Visited + {Coord(row, col)};
        return mazeArray[row, col];
      }
      return NotReachable;
    }
  }
}
