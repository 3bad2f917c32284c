/** Breadth-first search: it finds a shortest path, and gives up exactly when there is none. */
module BreadthFirst {
  import opened Collections
  import opened Grids

  /** The search tree: predecessors are moves and one step closer to the start. */
  ghost predicate Tree(g: Grid, start: Cell, visited: set<Cell>, from: map<Cell, Cell>, dist: map<Cell, nat>) {
    && visited == dist.Keys && visited <= Universe(g, start)
    && start in dist && dist[start] == 0 && start !in from
    && (forall c :: c in dist ==> c == start || c in from)
    && (forall c :: c in from ==> c in dist && from[c] in dist && Move(g, from[c], c) && dist[c] == dist[from[c]] + 1)
  }

  /** The queue holds visited cells once each, by distance, over at most two consecutive distances. */
  ghost predicate Frontier(queue: seq<Cell>, dist: map<Cell, nat>) {
    && (forall i :: 0 <= i < |queue| ==> queue[i] in dist)
    && (forall i, j :: 0 <= i < j < |queue| ==> (
      queue[i] != queue[j] && dist[queue[i]] <= dist[queue[j]] <= dist[queue[0]] + 1))
  }

  /** A cell whose neighbours are all visited, at most one step further. */
  ghost predicate Explored(g: Grid, dist: map<Cell, nat>, c: Cell) {
    c in dist && forall n :: Move(g, c, n) ==> n in dist && dist[n] <= dist[c] + 1
  }

  /** Every visited cell that left the queue is explored, and is not the goal. */
  ghost predicate Settled(g: Grid, goal: Cell, queue: seq<Cell>, dist: map<Cell, nat>) {
    forall c :: c in dist && c !in queue ==> c != goal && Explored(g, dist, c)
  }

  /** A path no longer than the distance of every queued cell ends at a visited cell no further than
      the path is long. */
  lemma {:induction false} ShortPathsAreVisited(
    g: Grid, start: Cell, goal: Cell, queue: seq<Cell>, dist: map<Cell, nat>, p: seq<Cell>, c: Cell)
    requires start in dist && dist[start] == 0 && Settled(g, goal, queue, dist)
    requires forall q :: q in queue ==> q in dist && |p| - 1 <= dist[q]
    requires IsPath(g, p, start, c)
    ensures c in dist && dist[c] <= |p| - 1
    decreases |p|
  {
    if |p| > 1 {
      PathPrefix(g, p, start, c);
      var b := p[|p| - 2];
      ShortPathsAreVisited(g, start, goal, queue, dist, p[..|p| - 1], b);
      assert b !in queue;
      assert Explored(g, dist, b);
    }
  }

  /** The state of the neighbour loop: `current` was dequeued, its first `i` neighbours were met. */
  ghost predicate Exploring(
    g: Grid, goal: Cell, current: Cell, i: nat, queue: seq<Cell>, dist: map<Cell, nat>)
    requires i <= |g.Neighbors(current)|
  {
    && current in dist && current != goal && current !in queue
    && Frontier(queue, dist)
    && (forall q :: q in queue ==> q in dist && dist[current] <= dist[q] <= dist[current] + 1)
    && (forall k :: 0 <= k < i ==> (
      g.Neighbors(current)[k] in dist && dist[g.Neighbors(current)[k]] <= dist[current] + 1))
    && (forall c :: c in dist && c !in queue && c != current ==> c != goal && Explored(g, dist, c))
  }

  /** The state of the search loop. */
  ghost predicate Searching(
    g: Grid, start: Cell, goal: Cell, visited: set<Cell>, queue: seq<Cell>, from: map<Cell, Cell>, dist: map<Cell, nat>)
  {
    && Tree(g, start, visited, from, dist) && Frontier(queue, dist) && Settled(g, goal, queue, dist)
    && (queue != [] ==> Capped(dist, dist[queue[0]] + 1))
  }

  lemma BeginSearching(g: Grid, start: Cell, goal: Cell)
    ensures Searching(g, start, goal, {start}, [start], map[], map[start := 0])
  {
    var queue := [start];
    assert queue[0] == start;
  }

  lemma Dequeue(
    g: Grid, start: Cell, goal: Cell, visited: set<Cell>, queue: seq<Cell>, from: map<Cell, Cell>, dist: map<Cell, nat>)
    requires queue != [] && queue[0] != goal && Searching(g, start, goal, visited, queue, from, dist)
    ensures Exploring(g, goal, queue[0], 0, queue[1..], dist)
    ensures Tree(g, start, visited, from, dist) && Capped(dist, dist[queue[0]] + 1)
  {
    hide Tree, Exploring;
    TakeFirst(g, goal, queue, dist);
  }

  lemma TakeFirst(g: Grid, goal: Cell, queue: seq<Cell>, dist: map<Cell, nat>)
    requires queue != [] && queue[0] != goal && Frontier(queue, dist) && Settled(g, goal, queue, dist)
    ensures Exploring(g, goal, queue[0], 0, queue[1..], dist)
  {
    var rest := queue[1..];
    assert queue == [queue[0]] + rest;
    forall c | c in dist && c !in rest && c != queue[0] ensures c != goal && Explored(g, dist, c) {
      assert c !in queue;
    }
    forall q | q in rest ensures q in dist && dist[queue[0]] <= dist[q] <= dist[queue[0]] + 1 {
      var i :| 0 <= i < |rest| && rest[i] == q;
      assert q == queue[i + 1];
    }
    forall i, j | 0 <= i < j < |rest|
      ensures rest[i] != rest[j] && dist[rest[i]] <= dist[rest[j]] <= dist[rest[0]] + 1
    {
      assert rest[i] == queue[i + 1] && rest[j] == queue[j + 1] && rest[0] == queue[1];
    }
  }

  lemma MeetNew(g: Grid, start: Cell, goal: Cell, current: Cell, i: nat, queue: seq<Cell>, dist: map<Cell, nat>)
    requires i < |g.Neighbors(current)| && Exploring(g, goal, current, i, queue, dist)
    requires g.Neighbors(current)[i] !in dist
    ensures var n := g.Neighbors(current)[i];
      Exploring(g, goal, current, i + 1, queue + [n], dist[n := dist[current] + 1])
  {
    var n := g.Neighbors(current)[i];
    var queue', dist' := queue + [n], dist[n := dist[current] + 1];
    forall c | c in dist' && c !in queue' && c != current ensures c != goal && Explored(g, dist', c) {
      assert queue'[|queue|] == n;
      assert c != n && c !in queue;
      assert Explored(g, dist, c);
    }
    forall a, b | 0 <= a < b < |queue'|
      ensures queue'[a] != queue'[b] && dist'[queue'[a]] <= dist'[queue'[b]] <= dist'[queue'[0]] + 1
    {
      assert queue'[a] in queue && queue'[0] in queue;
      assert b < |queue| ==> queue'[b] in queue;
    }
  }

  lemma MeetOld(g: Grid, goal: Cell, current: Cell, i: nat, queue: seq<Cell>, dist: map<Cell, nat>)
    requires i < |g.Neighbors(current)| && Exploring(g, goal, current, i, queue, dist)
    requires g.Neighbors(current)[i] in dist && dist[g.Neighbors(current)[i]] <= dist[current] + 1
    ensures Exploring(g, goal, current, i + 1, queue, dist)
  {
  }

  lemma DoneExploring(g: Grid, goal: Cell, current: Cell, queue: seq<Cell>, dist: map<Cell, nat>)
    requires Exploring(g, goal, current, |g.Neighbors(current)|, queue, dist)
    ensures Frontier(queue, dist) && Settled(g, goal, queue, dist)
  {
    forall n | Move(g, current, n) ensures n in dist && dist[n] <= dist[current] + 1 {
      var k :| 0 <= k < |g.Neighbors(current)| && g.Neighbors(current)[k] == n;
    }
  }

  /** Nothing visited is more than one step beyond the cell being explored. */
  ghost predicate Capped(dist: map<Cell, nat>, cap: nat) {
    forall c :: c in dist ==> dist[c] <= cap
  }

  class BFS {
    const g: Grid

    constructor (g: Grid)
      ensures this.g == g
    {
      this.g := g;
    }

    /** Breadth-first search finds a shortest path, and gives up exactly when there is none. */
    method FindPath(start: Cell, goal: Cell) returns (path: Option<seq<Cell>>)
      ensures path.Some? ==> Shortest(g, path.value, start, goal)
      ensures path.None? <==> !Reachable(g, start, goal)
    {
      hide Searching, Universe, Reachable, Shortest, Tree, Exploring, Capped;
      var queue := [start];
      var visited := {start};
      var from: map<Cell, Cell> := map[];
      ghost var dist: map<Cell, nat> := map[start := 0];
      BeginSearching(g, start, goal);
      while |queue| > 0
        invariant Searching(g, start, goal, visited, queue, from, dist)
        decreases |Universe(g, start) - visited|, |queue|
      {
        var current := queue[0];
        if current == goal {
          GoalIsShortest(g, start, goal, visited, queue, from, dist);
          var p := ReconstructPath(from, current, dist);
          return Some(p);
        }
        Dequeue(g, start, goal, visited, queue, from, dist);
        ghost var before := visited;
        queue := queue[1..];
        visited, queue, from, dist := ExploreNeighbors(start, goal, current, visited, queue, from, dist);
        if visited != before {
          SmallerRest(Universe(g, start), before, visited);
        }
      }
      NoPathLeft(g, start, goal, visited, from, dist);
      path := None;
    }

    /** The neighbour loop. */
    method ExploreNeighbors(
      start: Cell, goal: Cell, current: Cell, visited0: set<Cell>, queue0: seq<Cell>, from0: map<Cell, Cell>,
      ghost dist0: map<Cell, nat>)
      returns (visited: set<Cell>, queue: seq<Cell>, from: map<Cell, Cell>, ghost dist: map<Cell, nat>)
      requires Tree(g, start, visited0, from0, dist0) && Exploring(g, goal, current, 0, queue0, dist0)
      requires Capped(dist0, dist0[current] + 1)
      ensures Searching(g, start, goal, visited, queue, from, dist)
      ensures visited0 <= visited <= Universe(g, start) && (visited == visited0 ==> queue == queue0)
    {
      visited, queue, from, dist := visited0, queue0, from0, dist0;
      var neighbors := g.Neighbors(current);
      var i := 0;
      while i < |neighbors|
        invariant 0 <= i <= |neighbors|
        invariant Tree(g, start, visited, from, dist) && Exploring(g, goal, current, i, queue, dist)
        invariant Capped(dist, dist[current] + 1)
        invariant visited0 <= visited && (visited == visited0 ==> queue == queue0)
      {
        var n := neighbors[i];
        NeighborsAreMoves(g, current, n);
        if n !in visited {
          MeetNew(g, start, goal, current, i, queue, dist);
          GrowTree(g, start, visited, from, dist, current, n);
          visited := visited + {n};
          from := from[n := current];
          queue := queue + [n];
          dist := dist[n := dist[current] + 1];
        } else {
          MeetOld(g, goal, current, i, queue, dist);
        }
        i := i + 1;
      }
      DoneExploring(g, goal, current, queue, dist);
      assert queue != [] ==> queue[0] in queue;
    }
  }

  lemma NeighborInUniverse(g: Grid, start: Cell, current: Cell, n: Cell)
    requires Move(g, current, n)
    ensures n in Universe(g, start)
  {
    NeighborsAreMoves(g, current, n);
  }

  lemma GrowTree(
    g: Grid, start: Cell, visited: set<Cell>, from: map<Cell, Cell>, dist: map<Cell, nat>, current: Cell, n: Cell)
    requires Tree(g, start, visited, from, dist) && current in dist && n !in dist && Move(g, current, n)
    ensures Tree(g, start, visited + {n}, from[n := current], dist[n := dist[current] + 1])
  {
    NeighborInUniverse(g, start, current, n);
    hide Universe, Grid.Neighbors;
    var from', dist' := from[n := current], dist[n := dist[current] + 1];
    assert dist'.Keys == dist.Keys + {n};
    forall c | c in from'
      ensures c in dist' && from'[c] in dist' && Move(g, from'[c], c) && dist'[c] == dist'[from'[c]] + 1
    {
      if c != n {
        assert c in from && from[c] in dist && from[c] != n;
      }
    }
  }

  /** A dequeued goal: its trail is a shortest path. */
  lemma GoalIsShortest(
    g: Grid, start: Cell, goal: Cell, visited: set<Cell>, queue: seq<Cell>, from: map<Cell, Cell>, dist: map<Cell, nat>)
    requires Searching(g, start, goal, visited, queue, from, dist) && queue != [] && queue[0] == goal
    ensures Ranked(from, dist) && goal in dist && Shortest(g, Trail(from, dist, goal), start, goal)
    ensures Reachable(g, start, goal)
  {
    var p := Trail(from, dist, goal);
    TrailIsPath(g, from, dist, start, goal);
    forall q | IsPath(g, q, start, goal) ensures |p| <= |q| {
      if |q| - 1 < dist[goal] {
        ShortPathsAreVisited(g, start, goal, queue, dist, q, goal);
      }
    }
  }

  /** An empty queue: the goal cannot be reached. */
  lemma NoPathLeft(g: Grid, start: Cell, goal: Cell, visited: set<Cell>, from: map<Cell, Cell>, dist: map<Cell, nat>)
    requires Searching(g, start, goal, visited, [], from, dist)
    ensures !Reachable(g, start, goal)
  {
    forall p | IsPath(g, p, start, goal) ensures false {
      ShortPathsAreVisited(g, start, goal, [], dist, p, goal);
    }
  }
}
