/** Grids, 4-neighbour paths and path reconstruction. */
module Grids {
  import opened Collections

  datatype Cell = Cell(row: int, col: int)

  /** A grid of the given size; `obstacles` are the cells marked '#'. */
  datatype Grid = Grid(height: nat, width: nat, obstacles: set<Cell>) {
    /** is_valid_position */
    predicate Valid(c: Cell) {
      0 <= c.row < height && 0 <= c.col < width && c !in obstacles
    }

    /** The neighbour in one of the four directions up, down, left, right, if it is valid. */
    function Toward(c: Cell, dr: int, dc: int): seq<Cell> {
      var n := Cell(c.row + dr, c.col + dc);
      if Valid(n) then [n] else []
    }

    /** _get_neighbors */
    function Neighbors(c: Cell): seq<Cell> {
      Toward(c, -1, 0) + Toward(c, 1, 0) + Toward(c, 0, -1) + Toward(c, 0, 1)
    }
  }

  function Manhattan(a: Cell, b: Cell): nat {
    Abs(a.row - b.row) + Abs(a.col - b.col)
  }

  /** A neighbour is a valid cell one step away. */
  lemma NeighborsAreMoves(g: Grid, a: Cell, b: Cell)
    ensures b in g.Neighbors(a) <==> g.Valid(b) && Manhattan(a, b) == 1
    ensures b in g.Neighbors(a) ==> a != b
  {
  }

  predicate Move(g: Grid, a: Cell, b: Cell) {
    b in g.Neighbors(a)
  }

  /** A chain of moves from a to b. */
  ghost predicate IsPath(g: Grid, p: seq<Cell>, a: Cell, b: Cell) {
    && p != [] && p[0] == a && p[|p| - 1] == b
    && forall i :: 0 <= i < |p| - 1 ==> Move(g, p[i], p[i + 1])
  }

  ghost predicate Reachable(g: Grid, a: Cell, b: Cell) {
    exists p :: IsPath(g, p, a, b)
  }

  ghost predicate Shortest(g: Grid, p: seq<Cell>, a: Cell, b: Cell) {
    IsPath(g, p, a, b) && forall q :: IsPath(g, q, a, b) ==> |p| <= |q|
  }

  lemma PathPrefix(g: Grid, p: seq<Cell>, a: Cell, b: Cell)
    requires IsPath(g, p, a, b) && |p| > 1
    ensures IsPath(g, p[..|p| - 1], a, p[|p| - 2]) && Move(g, p[|p| - 2], b)
  {
    var q := p[..|p| - 1];
    forall i | 0 <= i < |q| - 1 ensures Move(g, q[i], q[i + 1]) {
      assert Move(g, p[i], p[i + 1]);
    }
    assert Move(g, p[|p| - 2], p[|p| - 2 + 1]);
  }

  // ---------------------------------------------------------------------------------------------
  // Reconstruction

  /** Following `from` strictly decreases a rank, by one or more per step. */
  ghost predicate Ranked(from: map<Cell, Cell>, rank: map<Cell, nat>) {
    forall c :: c in from ==> c in rank && from[c] in rank && rank[from[c]] < rank[c]
  }

  /** The cells from the root of the predecessor chain to `c`. */
  ghost function Trail(from: map<Cell, Cell>, rank: map<Cell, nat>, c: Cell): (p: seq<Cell>)
    requires Ranked(from, rank) && c in rank
    ensures p != [] && p[|p| - 1] == c && p[0] !in from && p[0] in rank
    ensures forall i :: 0 < i < |p| ==> p[i] in from && from[p[i]] == p[i - 1]
    ensures rank[p[0]] + |p| - 1 <= rank[c]
    decreases rank[c]
  {
    if c in from then Trail(from, rank, from[c]) + [c] else [c]
  }

  /** _reconstruct_path: it terminates because the ranks decrease. */
  method ReconstructPath(from: map<Cell, Cell>, goal: Cell, ghost rank: map<Cell, nat>) returns (path: seq<Cell>)
    requires Ranked(from, rank) && goal in rank
    ensures path == Trail(from, rank, goal)
  {
    var current := goal;
    var backwards := [current];
    while current in from
      invariant current in rank && backwards != [] && backwards[|backwards| - 1] == current
      invariant Trail(from, rank, goal) == Trail(from, rank, current) + Reversed(backwards[..|backwards| - 1])
      decreases rank[current]
    {
      var before := current;
      current := from[current];
      ghost var done := backwards[..|backwards| - 1];
      backwards := backwards + [current];
      assert backwards[..|backwards| - 1] == done + [before];
      ReversedSnoc(done, before);
      assert Trail(from, rank, current) + [before] + Reversed(done)
          == Trail(from, rank, current) + ([before] + Reversed(done));
    }
    path := Reversed(backwards);
    assert backwards == backwards[..|backwards| - 1] + [current];
    ReversedSnoc(backwards[..|backwards| - 1], current);
  }

  function Reversed<T>(s: seq<T>): seq<T> {
    if s == [] then [] else Reversed(s[1..]) + [s[0]]
  }

  lemma {:induction false} ReversedSnoc<T>(s: seq<T>, x: T)
    ensures Reversed(s + [x]) == [x] + Reversed(s)
  {
    if s == [] {
      assert [x][1..] == [];
    } else {
      assert (s + [x])[1..] == s[1..] + [x];
      ReversedSnoc(s[1..], x);
    }
  }

  /** Every predecessor edge is a move, so the trail of a cell is a path from the only root. */
  lemma TrailIsPath(g: Grid, from: map<Cell, Cell>, rank: map<Cell, nat>, start: Cell, c: Cell)
    requires Ranked(from, rank) && c in rank
    requires forall n :: n in from ==> Move(g, from[n], n)
    requires forall n :: n in rank && n !in from ==> n == start
    ensures IsPath(g, Trail(from, rank, c), start, c)
  {
    var p := Trail(from, rank, c);
    forall i | 0 <= i < |p| - 1 ensures Move(g, p[i], p[i + 1]) {
      assert from[p[i + 1]] == p[i];
    }
  }

  /** All cells that a search can meet: the start and the cells of the grid. */
  function Universe(g: Grid, start: Cell): set<Cell> {
    {start} + set r, c | 0 <= r < g.height && 0 <= c < g.width :: Cell(r, c)
  }

  lemma SmallerRest<T>(all: set<T>, a: set<T>, b: set<T>)
    requires a < b <= all
    ensures |all - b| < |all - a|
  {
    assert !(b <= a);
    var x :| x in b && x !in a;
    assert all - b <= all - a - {x};
    SubsetSize(all - b, all - a - {x});
  }
}
