/** When A* is optimal all the same: on grids where every straight way from the start can go on towards
    the goal, and in particular on grids without obstacles between the start and the goal. */
module AStarOptimality {
  import opened Collections
  import opened Grids
  import opened AStar

  ghost predicate HasNearer(g: Grid, goal: Cell, c: Cell) {
    exists n :: Nearer(g, goal, c, n)
  }

  predicate Nearer(g: Grid, goal: Cell, c: Cell, n: Cell) {
    Move(g, c, n) && Manhattan(n, goal) + 1 == Manhattan(c, goal)
  }

  /** A path from the start to c that comes nearer to the goal with every step. */
  ghost predicate Straight(g: Grid, start: Cell, goal: Cell, p: seq<Cell>, c: Cell) {
    IsPath(g, p, start, c) && |p| - 1 + Manhattan(c, goal) == Manhattan(start, goal)
  }

  ghost predicate OnTheWay(g: Grid, start: Cell, goal: Cell, c: Cell) {
    exists p :: Straight(g, start, goal, p, c)
  }

  /** No straight way from the start ends before the goal. */
  ghost predicate Downhill(g: Grid, start: Cell, goal: Cell) {
    forall c :: OnTheWay(g, start, goal, c) && c != goal ==> HasNearer(g, goal, c)
  }

  /** A known cell on a path that the heuristic estimates exactly. */
  predicate Exact(start: Cell, goal: Cell, s: State, c: Cell) {
    c in s.cost && s.cost[c] + Manhattan(c, goal) == Manhattan(start, goal)
  }

  /** Some exact cell is nearer to the goal. */
  ghost predicate ExactNearer(start: Cell, goal: Cell, s: State, c: Cell) {
    exists p :: Exact(start, goal, s, p) && Manhattan(p, goal) < Manhattan(c, goal)
  }

  /** No known cell is estimated below the distance of the start; priorities are never too low; and a
      priority above that distance has an exact cell nearer to the goal. */
  ghost predicate Guided(start: Cell, goal: Cell, s: State) {
    && (forall c :: c in s.cost ==> s.cost[c] + Manhattan(c, goal) >= Manhattan(start, goal))
    && (forall i :: 0 <= i < |s.open| ==> GuidedEntry(start, goal, s, s.open[i]))
  }

  ghost predicate GuidedEntry(start: Cell, goal: Cell, s: State, e: Entry) {
    && e.cell in s.cost
    && (e.cell == start || e.f >= s.cost[e.cell] + Manhattan(e.cell, goal))
    && (e.f > Manhattan(start, goal) ==> ExactNearer(start, goal, s, e.cell))
  }

  /** Costs only drop, and not below the estimate: exact cells stay exact. */
  lemma ExactStays(start: Cell, goal: Cell, s: State, r: State)
    requires s.cost.Keys <= r.cost.Keys && forall c :: c in s.cost ==> r.cost[c] <= s.cost[c]
    requires forall c :: c in r.cost ==> r.cost[c] + Manhattan(c, goal) >= Manhattan(start, goal)
    ensures forall c :: Exact(start, goal, s, c) ==> Exact(start, goal, r, c)
    ensures forall c :: ExactNearer(start, goal, s, c) ==> ExactNearer(start, goal, r, c)
  {
    forall c | ExactNearer(start, goal, s, c) ensures ExactNearer(start, goal, r, c) {
      var p :| Exact(start, goal, s, p) && Manhattan(p, goal) < Manhattan(c, goal);
      assert Exact(start, goal, r, p);
    }
  }

  lemma EntryStays(start: Cell, goal: Cell, s: State, r: State, e: Entry)
    requires GuidedEntry(start, goal, s, e)
    requires s.cost.Keys <= r.cost.Keys && forall c :: c in s.cost ==> r.cost[c] <= s.cost[c]
    requires forall c :: ExactNearer(start, goal, s, c) ==> ExactNearer(start, goal, r, c)
    ensures GuidedEntry(start, goal, r, e)
  {
  }

  lemma RelaxGuided(g: Grid, start: Cell, goal: Cell, s: State, current: Cell, n: Cell)
    requires Guided(start, goal, s) && Exact(start, goal, s, current) && Move(g, current, n)
    requires start in s.cost && s.cost[start] == 0
    ensures var r := Relax(goal, s, current, n);
      Guided(start, goal, r) && Exact(start, goal, r, current)
  {
    NeighborsAreMoves(g, current, n);
    OneStepNearer(current, n, goal);
    var r := Relax(goal, s, current, n);
    if r != s {
      assert forall c :: c in r.cost ==> r.cost[c] + Manhattan(c, goal) >= Manhattan(start, goal);
      ExactStays(start, goal, s, r);
      assert r.cost[n] + Manhattan(n, goal) > Manhattan(start, goal) ==> ExactNearer(start, goal, r, n) by {
        assert Exact(start, goal, r, current);
      }
      forall i | 0 <= i < |r.open| ensures GuidedEntry(start, goal, r, r.open[i]) {
        if i < |s.open| {
          EntryStays(start, goal, s, r, s.open[i]);
        }
      }
    }
  }

  lemma OneStepNearer(a: Cell, b: Cell, goal: Cell)
    requires Manhattan(a, b) == 1
    ensures Manhattan(b, goal) == Manhattan(a, goal) + 1 || Manhattan(b, goal) + 1 == Manhattan(a, goal)
  {
  }

  lemma RelaxingFacts(g: Grid, start: Cell, goal: Cell, s: State, current: Cell, k: nat)
    requires k <= |g.Neighbors(current)| && Relaxing(g, start, goal, s, current, k)
    ensures current in s.cost && start in s.cost && s.cost[start] == 0
  {
  }

  lemma RelaxNextGuided(g: Grid, start: Cell, goal: Cell, s: State, current: Cell, k: nat)
    requires k < |g.Neighbors(current)| && Relaxing(g, start, goal, s, current, k)
    requires current in s.cost && Guided(start, goal, s) && Exact(start, goal, s, current)
    ensures var r := Relax(goal, s, current, g.Neighbors(current)[k]);
      Guided(start, goal, r) && Exact(start, goal, r, current)
  {
    RelaxingFacts(g, start, goal, s, current, k);
    hide Guided, Exact, Relax, Relaxing, Grid.Neighbors;
    assert Move(g, current, g.Neighbors(current)[k]);
    RelaxGuided(g, start, goal, s, current, g.Neighbors(current)[k]);
  }

  lemma {:induction false} RelaxFirstGuided(g: Grid, start: Cell, goal: Cell, s: State, current: Cell, k: nat)
    requires k <= |g.Neighbors(current)| && current in s.cost && Relaxing(g, start, goal, s, current, 0)
    requires Guided(start, goal, s) && Exact(start, goal, s, current)
    ensures var r := RelaxFirst(g, goal, s, current, k);
      Guided(start, goal, r) && Exact(start, goal, r, current)
  {
    hide Guided, Exact, Relax, Relaxing, Grid.Neighbors;
    if k > 0 {
      RelaxFirstGuided(g, start, goal, s, current, k - 1);
      RelaxFirstKeeps(g, start, goal, s, current, k - 1);
      RelaxNextGuided(g, start, goal, RelaxFirst(g, goal, s, current, k - 1), current, k - 1);
    }
  }

  lemma PopGuided(start: Cell, goal: Cell, s: State, k: nat)
    requires Guided(start, goal, s) && k < |s.open|
    ensures Guided(start, goal, Popped(s, k))
  {
    var r := Popped(s, k);
    ExactStays(start, goal, s, r);
    forall i | 0 <= i < |r.open| ensures GuidedEntry(start, goal, r, r.open[i]) {
      assert r.open[i] == s.open[if i < k then i else i + 1];
      EntryStays(start, goal, s, r, r.open[i]);
    }
  }

  /** From any exact cell, going downhill leads to a queued entry of exact priority. */
  lemma {:induction false} LowEntry(g: Grid, start: Cell, goal: Cell, s: State, c: Cell) returns (i: nat)
    requires Searching(g, start, goal, s) && Guided(start, goal, s) && Downhill(g, start, goal)
    requires Exact(start, goal, s, c)
    ensures i < |s.open| && s.open[i].f <= Manhattan(start, goal)
    decreases Manhattan(c, goal)
  {
    if Queued(s.open, c) {
      i :| 0 <= i < |s.open| && s.open[i].cell == c;
      assert GuidedEntry(start, goal, s, s.open[i]);
      if s.open[i].f > Manhattan(start, goal) {
        var p :| Exact(start, goal, s, p) && Manhattan(p, goal) < Manhattan(c, goal);
        i := LowEntry(g, start, goal, s, p);
      }
    } else {
      ExactIsOnTheWay(g, start, goal, s, c);
      assert HasNearer(g, goal, c);
      var n :| Nearer(g, goal, c, n);
      assert RelaxedTo(g, s, c, |g.Neighbors(c)|);
      var k :| 0 <= k < |g.Neighbors(c)| && g.Neighbors(c)[k] == n;
      assert Exact(start, goal, s, n);
      i := LowEntry(g, start, goal, s, n);
    }
  }

  /** The predecessors of an exact cell form a straight way to it. */
  lemma ExactIsOnTheWay(g: Grid, start: Cell, goal: Cell, s: State, c: Cell)
    requires Tree(g, start, s) && Exact(start, goal, s, c)
    ensures OnTheWay(g, start, goal, c)
  {
    assert Ranked(s.from, s.cost);
    var p := Trail(s.from, s.cost, c);
    TrailIsPath(g, s.from, s.cost, start, c);
    PathsAreAtLeastManhattan(g, p, start, c);
    Triangle(start, c, goal);
    assert Straight(g, start, goal, p, c);
  }

  lemma Triangle(a: Cell, b: Cell, c: Cell)
    ensures Manhattan(a, c) <= Manhattan(a, b) + Manhattan(b, c)
  {
  }

  lemma {:induction false} PathsAreAtLeastManhattan(g: Grid, p: seq<Cell>, a: Cell, b: Cell)
    requires IsPath(g, p, a, b)
    ensures |p| - 1 >= Manhattan(a, b)
    decreases |p|
  {
    if |p| > 1 {
      PathPrefix(g, p, a, b);
      PathsAreAtLeastManhattan(g, p[..|p| - 1], a, p[|p| - 2]);
      NeighborsAreMoves(g, p[|p| - 2], b);
    }
  }

  /** The least entry is an exact cell. */
  lemma LeastIsExact(g: Grid, start: Cell, goal: Cell, s: State)
    requires Searching(g, start, goal, s) && Guided(start, goal, s) && Downhill(g, start, goal)
    ensures s.open != [] && Exact(start, goal, s, s.open[Least(s.open)].cell)
  {
    var i := LowEntry(g, start, goal, s, start);
    assert GuidedEntry(start, goal, s, s.open[Least(s.open)]);
  }

  lemma {:induction false} SearchIsExact(g: Grid, start: Cell, goal: Cell, s: State)
    requires Searching(g, start, goal, s) && Guided(start, goal, s) && Downhill(g, start, goal)
    ensures var r := Search(g, start, goal, s);
      r.Some? && r.value.0 == Manhattan(start, goal)
    decreases Measure(g, start, s)
  {
    hide Guided, Measure, Downhill;
    LeastIsExact(g, start, goal, s);
    var k := Least(s.open);
    var current := s.open[k].cell;
    if current != goal {
      ExpandKeeps(g, start, goal, s);
      ExpandDrops(g, start, goal, s);
      PopGuided(start, goal, s, k);
      PopKeeps(g, start, goal, s, k);
      RelaxFirstGuided(g, start, goal, Popped(s, k), current, |g.Neighbors(current)|);
      SearchIsExact(g, start, goal, Expand(g, goal, s));
    }
  }

  /** On a downhill grid, A* finds a shortest path, of exactly the Manhattan distance. */
  lemma DownhillIsOptimal(g: Grid, start: Cell, goal: Cell)
    requires Downhill(g, start, goal)
    ensures Searching(g, start, goal, Initial(start))
    ensures var r := Search(g, start, goal, Initial(start));
      r.Some? && Shortest(g, r.value.1, start, goal) && |r.value.1| - 1 == Manhattan(start, goal)
  {
    AStarIsSoundAndComplete(g, start, goal);
    assert Guided(start, goal, Initial(start));
    SearchIsExact(g, start, goal, Initial(start));
    var p := Search(g, start, goal, Initial(start)).value.1;
    PathsAreAtLeastManhattan(g, p, start, goal);
    forall q | IsPath(g, q, start, goal) ensures |p| <= |q| {
      PathsAreAtLeastManhattan(g, q, start, goal);
    }
  }

  /** Only the rectangle between the start and the goal matters: where it has no obstacle, the grid is
      downhill. */
  lemma ClearRectanglesAreDownhill(g: Grid, start: Cell, goal: Cell)
    requires g.Valid(start) && g.Valid(goal)
    requires forall o :: o in g.obstacles ==> Manhattan(start, o) + Manhattan(o, goal) > Manhattan(start, goal)
    ensures Downhill(g, start, goal)
  {
    forall c | OnTheWay(g, start, goal, c) && c != goal ensures HasNearer(g, goal, c) {
      var p :| Straight(g, start, goal, p, c);
      PathsAreAtLeastManhattan(g, p, start, c);
      Triangle(start, c, goal);
      if |p| > 1 {
        assert Move(g, p[|p| - 2], p[|p| - 2 + 1]);
        NeighborsAreMoves(g, p[|p| - 2], c);
      }
      var n := Towards(c, goal);
      assert Manhattan(start, n) + Manhattan(n, goal) == Manhattan(start, goal);
      NeighborsAreMoves(g, c, n);
      assert Nearer(g, goal, c, n);
    }
  }

  function Towards(c: Cell, goal: Cell): (n: Cell)
    requires c != goal
    ensures Manhattan(n, goal) + 1 == Manhattan(c, goal) && Manhattan(c, n) == 1
  {
    if c.row > goal.row then Cell(c.row - 1, c.col)
    else if c.row < goal.row then Cell(c.row + 1, c.col)
    else if c.col > goal.col then Cell(c.row, c.col - 1)
    else Cell(c.row, c.col + 1)
  }

  /** A grid without obstacles is downhill from every cell of it to every other. */
  lemma OpenGridsAreDownhill(g: Grid, start: Cell, goal: Cell)
    requires g.obstacles == {} && g.Valid(start) && g.Valid(goal)
    ensures Downhill(g, start, goal)
  {
    ClearRectanglesAreDownhill(g, start, goal);
  }
}
