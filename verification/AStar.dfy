/** A* search with the Manhattan heuristic. A neighbour that is already queued keeps its old priority
    when its cost improves, so the search is sound and complete but not optimal. The binary heap is a
    list from which the least entry is taken. */
module AStar {
  import opened Collections
  import opened Grids

  datatype Entry = Entry(f: nat, cell: Cell)

  /** Tuples compare by priority, then row, then column. */
  predicate Before(a: Entry, b: Entry) {
    || a.f < b.f
    || (a.f == b.f && (a.cell.row < b.cell.row || (a.cell.row == b.cell.row && a.cell.col < b.cell.col)))
  }

  /** The place of the least entry. */
  function Least(open: seq<Entry>): (k: nat)
    requires open != []
    ensures k < |open| && forall i :: 0 <= i < |open| ==> open[k].f <= open[i].f
  {
    var n := |open| - 1;
    if n == 0 then 0
    else
      var k := Least(open[..n]);
      if Before(open[n], open[k]) then n else k
  }

  /** The entry that is taken has the least priority, and of those with this priority it is in the first row,
      and of those in this row in the first column. */
  lemma {:induction false} LeastComesFirst(open: seq<Entry>, i: nat)
    requires i < |open|
    ensures var a, b := open[Least(open)], open[i];
      && a.f <= b.f
      && (a.f == b.f ==> a.cell.row <= b.cell.row)
      && (a.f == b.f && a.cell.row == b.cell.row ==> a.cell.col <= b.cell.col)
  {
    var n := |open| - 1;
    if i < n {
      LeastComesFirst(open[..n], i);
    } else if n > 0 {
      LeastComesFirst(open[..n], Least(open[..n]));
    }
  }

  predicate Queued(open: seq<Entry>, c: Cell) {
    exists i :: 0 <= i < |open| && open[i].cell == c
  }

  datatype State = State(open: seq<Entry>, cost: map<Cell, nat>, from: map<Cell, Cell>)

  function Initial(start: Cell): State {
    State([Entry(0, start)], map[start := 0], map[])
  }

  /** The state without the entry at place k. */
  function Popped(s: State, k: nat): State
    requires k < |s.open|
  {
    s.(open := s.open[..k] + s.open[k + 1..])
  }

  /** One neighbour of the current cell. */
  function Relax(goal: Cell, s: State, current: Cell, n: Cell): State
    requires current in s.cost
  {
    var tentative := s.cost[current] + 1;
    if n !in s.cost || tentative < s.cost[n] then
      State(
        if Queued(s.open, n) then s.open else s.open + [Entry(tentative + Manhattan(n, goal), n)],
        s.cost[n := tentative], s.from[n := current])
    else s
  }

  /** The first k neighbours of the current cell. */
  function RelaxFirst(g: Grid, goal: Cell, s: State, current: Cell, k: nat): (r: State)
    requires current in s.cost && k <= |g.Neighbors(current)|
    ensures s.cost.Keys <= r.cost.Keys
  {
    if k == 0 then s
    else Relax(goal, RelaxFirst(g, goal, s, current, k - 1), current, g.Neighbors(current)[k - 1])
  }

  /** Taking the least entry out and relaxing its neighbours. */
  function Expand(g: Grid, goal: Cell, s: State): State
    requires s.open != [] && s.open[Least(s.open)].cell in s.cost
  {
    var k := Least(s.open);
    var current := s.open[k].cell;
    RelaxFirst(g, goal, Popped(s, k), current, |g.Neighbors(current)|)
  }

  // ---------------------------------------------------------------------------------------------
  // What every step keeps

  /** The search tree: predecessors are moves that cost at least one step less, the start is the only
      root, and a known cell costs less than there are known cells. */
  ghost predicate Tree(g: Grid, start: Cell, s: State) {
    && s.cost.Keys <= Universe(g, start)
    && start in s.cost && s.cost[start] == 0 && start !in s.from
    && (forall c :: c in s.cost ==> (c == start || c in s.from) && s.cost[c] < |s.cost|)
    && (forall c :: c in s.from ==> (
      c in s.cost && s.from[c] in s.cost && Move(g, s.from[c], c) && s.cost[s.from[c]] + 1 <= s.cost[c]))
  }

  /** At most one heap entry per cell, all for known cells. */
  ghost predicate OnePerCell(s: State) {
    && (forall i :: 0 <= i < |s.open| ==> s.open[i].cell in s.cost)
    && (forall i, j :: 0 <= i < j < |s.open| ==> s.open[i].cell != s.open[j].cell)
  }

  /** The first k neighbours of c are known and cost at most one step more. */
  ghost predicate RelaxedTo(g: Grid, s: State, c: Cell, k: nat)
    requires c in s.cost && k <= |g.Neighbors(c)|
  {
    forall i :: 0 <= i < k ==> g.Neighbors(c)[i] in s.cost && s.cost[g.Neighbors(c)[i]] <= s.cost[c] + 1
  }

  /** Every known cell that is not queued is not the goal, and its neighbours are relaxed. */
  ghost predicate Closed(g: Grid, goal: Cell, s: State) {
    forall c :: c in s.cost && !Queued(s.open, c) ==> c != goal && RelaxedTo(g, s, c, |g.Neighbors(c)|)
  }

  ghost predicate Searching(g: Grid, start: Cell, goal: Cell, s: State) {
    Tree(g, start, s) && OnePerCell(s) && Closed(g, goal, s)
  }

  /** In the neighbour loop: the current cell is not queued, and k of its neighbours are relaxed. */
  ghost predicate Relaxing(g: Grid, start: Cell, goal: Cell, s: State, current: Cell, k: nat)
    requires k <= |g.Neighbors(current)|
  {
    && Tree(g, start, s) && OnePerCell(s)
    && current in s.cost && current != goal && !Queued(s.open, current)
    && RelaxedTo(g, s, current, k)
    && (forall c :: c in s.cost && !Queued(s.open, c) && c != current ==> (
      c != goal && RelaxedTo(g, s, c, |g.Neighbors(c)|)))
  }

  lemma BeginSearching(g: Grid, start: Cell, goal: Cell)
    ensures Searching(g, start, goal, Initial(start))
  {
    assert Initial(start).open[0].cell == start;
    assert |map[start := 0 as nat]| == 1;
  }

  lemma QueuedPopped(s: State, k: nat, c: Cell)
    requires k < |s.open| && OnePerCell(s)
    ensures Queued(Popped(s, k).open, c) <==> Queued(s.open, c) && c != s.open[k].cell
  {
    var rest := Popped(s, k).open;
    if Queued(rest, c) {
      var i :| 0 <= i < |rest| && rest[i].cell == c;
      assert rest[i] == s.open[if i < k then i else i + 1];
    }
    if Queued(s.open, c) && c != s.open[k].cell {
      var i :| 0 <= i < |s.open| && s.open[i].cell == c;
      assert rest[if i < k then i else i - 1] == s.open[i];
    }
  }

  lemma PoppedOnePerCell(s: State, k: nat)
    requires k < |s.open| && OnePerCell(s)
    ensures OnePerCell(Popped(s, k))
  {
    var rest := Popped(s, k).open;
    assert forall i :: 0 <= i < |rest| ==> rest[i] == s.open[if i < k then i else i + 1];
  }

  lemma PopKeeps(g: Grid, start: Cell, goal: Cell, s: State, k: nat)
    requires Searching(g, start, goal, s) && k < |s.open| && s.open[k].cell != goal
    ensures Relaxing(g, start, goal, Popped(s, k), s.open[k].cell, 0)
  {
    var r, current := Popped(s, k), s.open[k].cell;
    assert current in s.cost;
    PoppedOnePerCell(s, k);
    QueuedPopped(s, k, current);
    SameCostsSameTree(g, start, s, r);
    hide Tree, OnePerCell, Queued, RelaxedTo;
    forall c | c in r.cost && !Queued(r.open, c) && c != current
      ensures c != goal && RelaxedTo(g, r, c, |g.Neighbors(c)|)
    {
      QueuedPopped(s, k, c);
      SameCostsRelaxed(g, s, r, c, |g.Neighbors(c)|);
    }
    NothingRelaxed(g, r, current);
  }

  lemma SameCostsSameTree(g: Grid, start: Cell, s: State, r: State)
    requires Tree(g, start, s) && r.cost == s.cost && r.from == s.from
    ensures Tree(g, start, r)
  {
  }

  lemma SameCostsRelaxed(g: Grid, s: State, r: State, c: Cell, k: nat)
    requires r.cost == s.cost && c in s.cost && k <= |g.Neighbors(c)| && RelaxedTo(g, s, c, k)
    ensures RelaxedTo(g, r, c, k)
  {
  }

  lemma NothingRelaxed(g: Grid, s: State, c: Cell)
    requires c in s.cost
    ensures RelaxedTo(g, s, c, 0)
  {
  }

  lemma RelaxTree(g: Grid, start: Cell, goal: Cell, s: State, current: Cell, n: Cell)
    requires Tree(g, start, s) && current in s.cost && Move(g, current, n)
    ensures Tree(g, start, Relax(goal, s, current, n))
  {
    NeighborsAreMoves(g, current, n);
    assert n in Universe(g, start);
    var r := Relax(goal, s, current, n);
    if r != s {
      assert r.cost.Keys == s.cost.Keys + {n};
      assert |r.cost| == |r.cost.Keys| && |s.cost| == |s.cost.Keys|;
    }
  }

  lemma RelaxQueue(goal: Cell, s: State, current: Cell, n: Cell)
    requires OnePerCell(s) && current in s.cost && n != current
    ensures var r := Relax(goal, s, current, n);
      && OnePerCell(r) && (r != s ==> Queued(r.open, n))
      && (forall c :: Queued(s.open, c) ==> Queued(r.open, c))
      && (forall c :: Queued(r.open, c) && c != n ==> Queued(s.open, c))
  {
    var r := Relax(goal, s, current, n);
    if r != s && !Queued(s.open, n) {
      assert r.open[|s.open|].cell == n;
      forall c | Queued(s.open, c) ensures Queued(r.open, c) {
        var i :| 0 <= i < |s.open| && s.open[i].cell == c;
        assert r.open[i].cell == c;
      }
      forall c | Queued(r.open, c) && c != n ensures Queued(s.open, c) {
        var i :| 0 <= i < |r.open| && r.open[i].cell == c;
        assert i < |s.open| && s.open[i].cell == c;
      }
    }
  }

  lemma RelaxKeeps(g: Grid, start: Cell, goal: Cell, s: State, current: Cell, k: nat)
    requires k < |g.Neighbors(current)| && Relaxing(g, start, goal, s, current, k)
    ensures Relaxing(g, start, goal, Relax(goal, s, current, g.Neighbors(current)[k]), current, k + 1)
  {
    hide Tree, OnePerCell, Queued;
    var n := g.Neighbors(current)[k];
    NeighborsAreMoves(g, current, n);
    RelaxTree(g, start, goal, s, current, n);
    RelaxQueue(goal, s, current, n);
    var r := Relax(goal, s, current, n);
    forall c | c in r.cost && !Queued(r.open, c) && c != current
      ensures c != goal && RelaxedTo(g, r, c, |g.Neighbors(c)|)
    {
      assert r != s ==> c != n;
      assert RelaxedTo(g, s, c, |g.Neighbors(c)|);
    }
  }

  lemma {:induction false} RelaxFirstKeeps(g: Grid, start: Cell, goal: Cell, s: State, current: Cell, k: nat)
    requires k <= |g.Neighbors(current)| && current in s.cost && Relaxing(g, start, goal, s, current, 0)
    ensures Relaxing(g, start, goal, RelaxFirst(g, goal, s, current, k), current, k)
  {
    hide Relaxing, Relax;
    if k > 0 {
      RelaxFirstKeeps(g, start, goal, s, current, k - 1);
      RelaxKeeps(g, start, goal, RelaxFirst(g, goal, s, current, k - 1), current, k - 1);
    }
  }

  lemma ExpandKeeps(g: Grid, start: Cell, goal: Cell, s: State)
    requires Searching(g, start, goal, s) && s.open != [] && s.open[Least(s.open)].cell != goal
    ensures Searching(g, start, goal, Expand(g, goal, s))
  {
    hide Tree, OnePerCell;
    var k := Least(s.open);
    PopKeeps(g, start, goal, s, k);
    var current := s.open[k].cell;
    RelaxFirstKeeps(g, start, goal, Popped(s, k), current, |g.Neighbors(current)|);
  }

  // ---------------------------------------------------------------------------------------------
  // Termination

  /** The cells that a search can meet, as a list. */
  ghost function Listed(cells: set<Cell>): (l: seq<Cell>)
    ensures |l| == |cells| && forall c :: c in l <==> c in cells
  {
    if cells == {} then []
    else
      var c :| c in cells;
      Listed(cells - {c}) + [c]
  }

  ghost function Weight(s: State, bound: nat): Cell -> nat {
    c => if c in s.cost && s.cost[c] < bound then s.cost[c] else bound
  }

  /** Twice the sum of the costs, where an unknown cell counts as many as there are cells, plus the
      number of queued entries. */
  ghost function Measure(g: Grid, start: Cell, s: State): nat {
    var cells := Listed(Universe(g, start));
    2 * Sum(cells, Weight(s, |cells|)) + |s.open|
  }

  lemma {:induction false} SumDrops<T>(l: seq<T>, f: T -> nat, f': T -> nat, x: T)
    requires forall y :: y in l ==> f'(y) <= f(y)
    ensures Sum(l, f') <= Sum(l, f)
    ensures x in l && f'(x) < f(x) ==> Sum(l, f') < Sum(l, f)
  {
    if l != [] {
      var n := |l| - 1;
      assert l[n] in l && forall y :: y in l[..n] ==> y in l;
      SumDrops(l[..n], f, f', x);
    }
  }

  lemma WeightDrops(s: State, r: State, n: Cell, bound: nat)
    requires n in r.cost && r.cost[n] < bound && r.cost == s.cost[n := r.cost[n]]
    requires n in s.cost ==> r.cost[n] < s.cost[n]
    ensures forall c :: Weight(r, bound)(c) <= Weight(s, bound)(c)
    ensures Weight(r, bound)(n) < Weight(s, bound)(n)
  {
  }

  /** A known cell's cost is below the number of cells, so a new or lower cost weighs less. */
  lemma LighterAt(g: Grid, start: Cell, s: State, r: State, n: Cell)
    requires Tree(g, start, r) && n in r.cost && r.cost == s.cost[n := r.cost[n]]
    requires n in s.cost ==> r.cost[n] < s.cost[n]
    ensures var cells := Listed(Universe(g, start));
      Sum(cells, Weight(r, |cells|)) < Sum(cells, Weight(s, |cells|))
  {
    hide Weight, Universe;
    var cells := Listed(Universe(g, start));
    SubsetSize(r.cost.Keys, Universe(g, start));
    assert |r.cost| == |r.cost.Keys|;
    WeightDrops(s, r, n, |cells|);
    assert n in cells;
    SumDrops(cells, Weight(s, |cells|), Weight(r, |cells|), n);
  }

  lemma RelaxDrops(g: Grid, start: Cell, goal: Cell, s: State, current: Cell, n: Cell)
    requires Tree(g, start, s) && current in s.cost && Move(g, current, n)
    ensures Measure(g, start, Relax(goal, s, current, n)) <= Measure(g, start, s)
  {
    hide Tree, Weight, Universe;
    var r := Relax(goal, s, current, n);
    if r != s {
      RelaxTree(g, start, goal, s, current, n);
      LighterAt(g, start, s, r, n);
    }
  }

  lemma {:induction false} RelaxFirstDrops(g: Grid, start: Cell, goal: Cell, s: State, current: Cell, k: nat)
    requires k <= |g.Neighbors(current)| && Relaxing(g, start, goal, s, current, 0)
    ensures Measure(g, start, RelaxFirst(g, goal, s, current, k)) <= Measure(g, start, s)
  {
    hide Measure, Relax, Tree;
    if k > 0 {
      RelaxFirstDrops(g, start, goal, s, current, k - 1);
      RelaxFirstKeeps(g, start, goal, s, current, k - 1);
      assert Move(g, current, g.Neighbors(current)[k - 1]);
      RelaxDrops(g, start, goal, RelaxFirst(g, goal, s, current, k - 1), current, g.Neighbors(current)[k - 1]);
    }
  }

  lemma PopDrops(g: Grid, start: Cell, s: State, k: nat)
    requires k < |s.open|
    ensures Measure(g, start, Popped(s, k)) < Measure(g, start, s)
  {
    var cells := Listed(Universe(g, start));
    SumDrops(cells, Weight(s, |cells|), Weight(Popped(s, k), |cells|), start);
  }

  /** Every turn of the main loop decreases the measure. */
  lemma ExpandDrops(g: Grid, start: Cell, goal: Cell, s: State)
    requires Searching(g, start, goal, s) && s.open != [] && s.open[Least(s.open)].cell != goal
    ensures Measure(g, start, Expand(g, goal, s)) < Measure(g, start, s)
  {
    hide Measure;
    var k := Least(s.open);
    PopKeeps(g, start, goal, s, k);
    PopDrops(g, start, s, k);
    RelaxFirstDrops(g, start, goal, Popped(s, k), s.open[k].cell, |g.Neighbors(s.open[k].cell)|);
  }

  // ---------------------------------------------------------------------------------------------
  // The search

  /** The main loop, as a function: the final cost of the goal and the path to it. */
  ghost function Search(g: Grid, start: Cell, goal: Cell, s: State): (r: Option<(nat, seq<Cell>)>)
    requires Searching(g, start, goal, s)
    decreases Measure(g, start, s)
  {
    if s.open == [] then None
    else if s.open[Least(s.open)].cell == goal then Some((s.cost[goal], Trail(s.from, s.cost, goal)))
    else
      ExpandKeeps(g, start, goal, s);
      ExpandDrops(g, start, goal, s);
      Search(g, start, goal, Expand(g, goal, s))
  }

  lemma SearchingFacts(g: Grid, start: Cell, goal: Cell, s: State, k: nat)
    requires Searching(g, start, goal, s) && k < |s.open|
    ensures s.open[k].cell in s.cost && Ranked(s.from, s.cost)
  {
  }

  // ---------------------------------------------------------------------------------------------
  // Soundness and completeness

  /** Everything reachable from a known cell is known once nothing is queued. */
  lemma {:induction false} ReachedAreKnown(g: Grid, start: Cell, goal: Cell, s: State, p: seq<Cell>, c: Cell)
    requires Searching(g, start, goal, s) && s.open == [] && IsPath(g, p, start, c)
    ensures c in s.cost
    decreases |p|
  {
    if |p| > 1 {
      PathPrefix(g, p, start, c);
      var b := p[|p| - 2];
      ReachedAreKnown(g, start, goal, s, p[..|p| - 1], b);
      assert RelaxedTo(g, s, b, |g.Neighbors(b)|);
      var i :| 0 <= i < |g.Neighbors(b)| && g.Neighbors(b)[i] == c;
      assert g.Neighbors(b)[i] in s.cost;
    }
  }

  /** A result is a path of at most as many moves as the goal's cost; no result means no path. */
  lemma {:induction false} SearchIsSoundAndComplete(g: Grid, start: Cell, goal: Cell, s: State)
    requires Searching(g, start, goal, s)
    ensures var r := Search(g, start, goal, s);
      && (r.Some? ==> IsPath(g, r.value.1, start, goal) && |r.value.1| - 1 <= r.value.0)
      && (r.Some? <==> Reachable(g, start, goal))
    decreases Measure(g, start, s)
  {
    if s.open == [] {
      forall p | IsPath(g, p, start, goal) ensures false {
        ReachedAreKnown(g, start, goal, s, p, goal);
      }
    } else if s.open[Least(s.open)].cell == goal {
      TrailIsPath(g, s.from, s.cost, start, goal);
    } else {
      ExpandKeeps(g, start, goal, s);
      ExpandDrops(g, start, goal, s);
      SearchIsSoundAndComplete(g, start, goal, Expand(g, goal, s));
    }
  }

  /** A* returns a path exactly when there is one. */
  lemma AStarIsSoundAndComplete(g: Grid, start: Cell, goal: Cell)
    ensures Searching(g, start, goal, Initial(start))
    ensures var r := Search(g, start, goal, Initial(start));
      && (r.Some? ==> IsPath(g, r.value.1, start, goal) && |r.value.1| - 1 <= r.value.0)
      && (r.Some? <==> Reachable(g, start, goal))
  {
    BeginSearching(g, start, goal);
    SearchIsSoundAndComplete(g, start, goal, Initial(start));
  }

  // ---------------------------------------------------------------------------------------------
  // The loops

  class AStar {
    const g: Grid

    constructor (g: Grid)
      ensures this.g == g
    {
      this.g := g;
    }

    /** A returned path is a path of at most as many moves as the cost found for the goal; none is
        returned exactly when the goal cannot be reached. */
    method FindPath(start: Cell, goal: Cell) returns (path: Option<seq<Cell>>, ghost goalCost: nat)
      ensures path.Some? ==> IsPath(g, path.value, start, goal) && |path.value| - 1 <= goalCost
      ensures path.None? <==> !Reachable(g, start, goal)
      ensures Searching(g, start, goal, Initial(start))
      ensures var r := Search(g, start, goal, Initial(start));
        if r.Some? then path == Some(r.value.1) && goalCost == r.value.0 else path == None
    {
      hide Searching, Measure, Reachable, IsPath;
      AStarIsSoundAndComplete(g, start, goal);
      var s := Initial(start);
      goalCost := 0;
      while |s.open| > 0
        invariant Searching(g, start, goal, s) && Searching(g, start, goal, Initial(start))
        invariant Search(g, start, goal, Initial(start)) == Search(g, start, goal, s)
        decreases Measure(g, start, s)
      {
        ghost var before := s;
        var k := Least(s.open);
        var current := s.open[k].cell;
        SearchingFacts(g, start, goal, s, k);
        if current == goal {
          goalCost := s.cost[goal];
          var p := ReconstructPath(s.from, current, s.cost);
          return Some(p), goalCost;
        }
        ExpandKeeps(g, start, goal, s);
        ExpandDrops(g, start, goal, s);
        s := Popped(s, k);
        s := ExploreNeighbors(goal, s, current);
        assert s == Expand(g, goal, before);
      }
      path := None;
    }

    method ExploreNeighbors(goal: Cell, s: State, current: Cell) returns (r: State)
      requires current in s.cost
      ensures r == RelaxFirst(g, goal, s, current, |g.Neighbors(current)|)
    {
      var open, cost: map<Cell, nat>, from := s.open, s.cost, s.from;
      var neighbors := g.Neighbors(current);
      var i := 0;
      while i < |neighbors|
        invariant 0 <= i <= |neighbors| && current in cost
        invariant State(open, cost, from) == RelaxFirst(g, goal, s, current, i)
      {
        var n := neighbors[i];
        var tentative: nat := cost[current] + 1;
        if n !in cost || tentative < cost[n] {
          from := from[n := current];
          cost := cost[n := tentative];
          var f := tentative + Manhattan(n, goal);
          if !Queued(open, n) {
            open := open + [Entry(f, n)];
          }
        }
        i := i + 1;
      }
      r := State(open, cost, from);
    }
  }
}
