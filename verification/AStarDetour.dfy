/** A* is not optimal: on a grid of three rows and five columns it returns a path of seven moves where
    five are enough, because a queued cell keeps its priority when a cheaper way to it is found. */
module AStarDetour {
  import opened Grids
  import opened AStar

  const START := Cell(2, 4)
  const GOAL := Cell(1, 0)
  const GRID := Grid(3, 5, {Cell(0, 3), Cell(0, 4), Cell(1, 1)})

  // The states after 0, 1, ..., 8 turns of the main loop.

  function S0(): State {
    Initial(START)
  }

  function S1(): State {
    State([Entry(5, Cell(1, 4)), Entry(5, Cell(2, 3))],
          S0().cost[Cell(1, 4) := 1][Cell(2, 3) := 1],
          S0().from[Cell(1, 4) := Cell(2, 4)][Cell(2, 3) := Cell(2, 4)])
  }

  function S2(): State {
    State([Entry(5, Cell(2, 3)), Entry(5, Cell(1, 3))],
          S1().cost[Cell(1, 3) := 2],
          S1().from[Cell(1, 3) := Cell(1, 4)])
  }

  function S3(): State {
    State([Entry(5, Cell(2, 3)), Entry(5, Cell(1, 2))],
          S2().cost[Cell(1, 2) := 3],
          S2().from[Cell(1, 2) := Cell(1, 3)])
  }

  function S4(): State {
    State([Entry(5, Cell(2, 3)), Entry(7, Cell(0, 2)), Entry(7, Cell(2, 2))],
          S3().cost[Cell(0, 2) := 4][Cell(2, 2) := 4],
          S3().from[Cell(0, 2) := Cell(1, 2)][Cell(2, 2) := Cell(1, 2)])
  }

  function S5(): State {
    State([Entry(7, Cell(0, 2)), Entry(7, Cell(2, 2))],
          S4().cost[Cell(2, 2) := 2],
          S4().from[Cell(2, 2) := Cell(2, 3)])
  }

  function S6(): State {
    State([Entry(7, Cell(2, 2)), Entry(7, Cell(0, 1))],
          S5().cost[Cell(0, 1) := 5],
          S5().from[Cell(0, 1) := Cell(0, 2)])
  }

  function S7(): State {
    State([Entry(7, Cell(2, 2)), Entry(7, Cell(0, 0))],
          S6().cost[Cell(0, 0) := 6],
          S6().from[Cell(0, 0) := Cell(0, 1)])
  }

  function S8(): State {
    State([Entry(7, Cell(2, 2)), Entry(7, Cell(1, 0))],
          S7().cost[Cell(1, 0) := 7],
          S7().from[Cell(1, 0) := Cell(0, 0)])
  }

  /** A neighbour whose known cost is no higher is left alone. */
  lemma Skips(s: State, current: Cell, n: Cell)
    requires current in s.cost && n in s.cost && s.cost[n] <= s.cost[current] + 1
    ensures Relax(GOAL, s, current, n) == s
  {
  }

  /** An unknown neighbour is pushed. */
  lemma Pushes(s: State, current: Cell, n: Cell, f: nat)
    requires current in s.cost && n !in s.cost && f == s.cost[current] + 1 + Manhattan(n, GOAL)
    requires forall i :: 0 <= i < |s.open| ==> s.open[i].cell != n
    ensures Relax(GOAL, s, current, n)
      == State(s.open + [Entry(f, n)], s.cost[n := s.cost[current] + 1], s.from[n := current])
  {
  }

  /** A queued neighbour that gets cheaper keeps its entry. */
  lemma KeepsEntry(s: State, current: Cell, n: Cell, i: nat)
    requires current in s.cost && n in s.cost && s.cost[current] + 1 < s.cost[n]
    requires i < |s.open| && s.open[i].cell == n
    ensures Relax(GOAL, s, current, n) == State(s.open, s.cost[n := s.cost[current] + 1], s.from[n := current])
  {
  }

  lemma TwoNeighbors(s: State, current: Cell, a: Cell, b: Cell)
    requires current in s.cost && GRID.Neighbors(current) == [a, b]
    ensures current in Relax(GOAL, s, current, a).cost
    ensures RelaxFirst(GRID, GOAL, s, current, 2) == Relax(GOAL, Relax(GOAL, s, current, a), current, b)
  {
    assert RelaxFirst(GRID, GOAL, s, current, 1) == Relax(GOAL, s, current, a);
  }

  lemma ThreeNeighbors(s: State, current: Cell, a: Cell, b: Cell, c: Cell)
    requires current in s.cost && GRID.Neighbors(current) == [a, b, c]
    ensures current in Relax(GOAL, s, current, a).cost
    ensures current in Relax(GOAL, Relax(GOAL, s, current, a), current, b).cost
    ensures RelaxFirst(GRID, GOAL, s, current, 3)
      == Relax(GOAL, Relax(GOAL, Relax(GOAL, s, current, a), current, b), current, c)
  {
    assert RelaxFirst(GRID, GOAL, s, current, 1) == Relax(GOAL, s, current, a);
    assert RelaxFirst(GRID, GOAL, s, current, 2) == Relax(GOAL, Relax(GOAL, s, current, a), current, b);
  }

  /** A turn at which every neighbour but number j is known and no cheaper to reach. */
  ghost predicate OneNew(s: State, current: Cell, ns: seq<Cell>, j: nat) {
    && current in s.cost && j < |ns|
    && (forall i :: 0 <= i < |ns| && i != j ==> (
      ns[i] != ns[j] && ns[i] in s.cost && s.cost[ns[i]] <= s.cost[current] + 1))
  }

  /** The first neighbours of such a turn, up to number k. */
  lemma {:induction false} RelaxesOne(s: State, current: Cell, ns: seq<Cell>, j: nat, k: nat)
    requires GRID.Neighbors(current) == ns && k <= |ns| && OneNew(s, current, ns, j) && ns[j] != current
    requires ns[j] !in s.cost || s.cost[current] + 1 < s.cost[ns[j]]
    ensures RelaxFirst(GRID, GOAL, s, current, k) == if k <= j then s else Relax(GOAL, s, current, ns[j])
  {
    hide Grid.Neighbors, Queued;
    if k > 0 {
      RelaxesOne(s, current, ns, j, k - 1);
    }
  }

  /** A turn that takes entry k and pushes one new cell. */
  lemma PushesOne(s: State, k: nat, current: Cell, ns: seq<Cell>, j: nat, f: nat)
    requires s.open != [] && k == Least(s.open) && current == s.open[k].cell && GRID.Neighbors(current) == ns
    requires OneNew(s, current, ns, j) && ns[j] !in s.cost && f == s.cost[current] + 1 + Manhattan(ns[j], GOAL)
    requires forall i :: 0 <= i < |s.open| ==> s.open[i].cell != ns[j]
    ensures Expand(GRID, GOAL, s)
      == State(Popped(s, k).open + [Entry(f, ns[j])], s.cost[ns[j] := s.cost[current] + 1], s.from[ns[j] := current])
  {
    hide Relax, RelaxFirst, Least, Grid.Neighbors, Manhattan;
    var popped := Popped(s, k);
    assert forall i :: 0 <= i < |popped.open| ==> popped.open[i] == s.open[if i < k then i else i + 1];
    RelaxesOne(popped, current, ns, j, |ns|);
    Pushes(popped, current, ns[j], f);
  }

  lemma Facts1()
    ensures Least(S0().open) == 0
    ensures GRID.Neighbors(Cell(2, 4)) == [Cell(1, 4), Cell(2, 3)]
  {
  }

  lemma Turn1()
    ensures Least(S0().open) == 0 && Expand(GRID, GOAL, S0()) == S1()
  {
    hide Relax, RelaxFirst, Least, Grid.Neighbors;
    Facts1();
    var s0 := Popped(S0(), 0);
    assert s0.open == [];
    TwoNeighbors(s0, Cell(2, 4), Cell(1, 4), Cell(2, 3));
    Pushes(s0, Cell(2, 4), Cell(1, 4), 5);
    var s1 := Relax(GOAL, s0, Cell(2, 4), Cell(1, 4));
    assert s1.open == [Entry(5, Cell(1, 4))];
    Pushes(s1, Cell(2, 4), Cell(2, 3), 5);
    var s2 := Relax(GOAL, s1, Cell(2, 4), Cell(2, 3));
    assert s2.open == [Entry(5, Cell(1, 4)), Entry(5, Cell(2, 3))];
  }

  lemma Turn2()
    ensures Least(S1().open) == 0 && Expand(GRID, GOAL, S1()) == S2()
  {
    var ns := [Cell(2, 4), Cell(1, 3)];
    assert Least(S1().open) == 0 && GRID.Neighbors(Cell(1, 4)) == ns;
    hide Expand, Grid.Neighbors, Least, Relax, Grid.Valid, Grid.Toward;
    PushesOne(S1(), 0, Cell(1, 4), ns, 1, 5);
    assert Popped(S1(), 0).open + [Entry(5, ns[1])] == S2().open;
  }

  lemma Turn3()
    ensures Least(S2().open) == 1 && Expand(GRID, GOAL, S2()) == S3()
  {
    var ns := [Cell(2, 3), Cell(1, 2), Cell(1, 4)];
    assert Least(S2().open) == 1 && GRID.Neighbors(Cell(1, 3)) == ns;
    hide Expand, Grid.Neighbors, Least, Relax, Grid.Valid, Grid.Toward;
    PushesOne(S2(), 1, Cell(1, 3), ns, 1, 5);
    assert Popped(S2(), 1).open + [Entry(5, ns[1])] == S3().open;
  }

  lemma Facts4()
    ensures Least(S3().open) == 1
    ensures GRID.Neighbors(Cell(1, 2)) == [Cell(0, 2), Cell(2, 2), Cell(1, 3)]
  {
  }

  lemma Turn4()
    ensures Least(S3().open) == 1 && Expand(GRID, GOAL, S3()) == S4()
  {
    hide Relax, RelaxFirst, Least, Grid.Neighbors;
    Facts4();
    var s0 := Popped(S3(), 1);
    assert s0.open == [Entry(5, Cell(2, 3))];
    ThreeNeighbors(s0, Cell(1, 2), Cell(0, 2), Cell(2, 2), Cell(1, 3));
    Pushes(s0, Cell(1, 2), Cell(0, 2), 7);
    var s1 := Relax(GOAL, s0, Cell(1, 2), Cell(0, 2));
    assert s1.open == [Entry(5, Cell(2, 3)), Entry(7, Cell(0, 2))];
    Pushes(s1, Cell(1, 2), Cell(2, 2), 7);
    var s2 := Relax(GOAL, s1, Cell(1, 2), Cell(2, 2));
    assert s2.open == [Entry(5, Cell(2, 3)), Entry(7, Cell(0, 2)), Entry(7, Cell(2, 2))];
    Skips(s2, Cell(1, 2), Cell(1, 3));
  }

  /** The queued cell (2, 2) becomes cheaper and keeps its priority. */
  lemma Turn5()
    ensures Least(S4().open) == 0 && Expand(GRID, GOAL, S4()) == S5()
  {
    var ns := [Cell(1, 3), Cell(2, 2), Cell(2, 4)];
    assert Least(S4().open) == 0 && GRID.Neighbors(Cell(2, 3)) == ns;
    hide Grid.Neighbors, Least, Relax, RelaxFirst, Grid.Valid, Grid.Toward;
    var popped := Popped(S4(), 0);
    RelaxesOne(popped, Cell(2, 3), ns, 1, 3);
    KeepsEntry(popped, Cell(2, 3), Cell(2, 2), 1);
  }

  lemma Facts6()
    ensures Least(S5().open) == 0 && GRID.Neighbors(Cell(0, 2)) == [Cell(1, 2), Cell(0, 1)]
    ensures OneNew(S5(), Cell(0, 2), [Cell(1, 2), Cell(0, 1)], 1) && S5().cost[Cell(0, 2)] == 4
    ensures Cell(0, 1) !in S5().cost && Manhattan(Cell(0, 1), GOAL) == 2
  {
  }

  lemma Turn6()
    ensures Least(S5().open) == 0 && Expand(GRID, GOAL, S5()) == S6()
  {
    hide Expand, Grid.Neighbors, S4, Least, Manhattan, Relax, Grid.Valid, Grid.Toward, OneNew;
    Facts6();
    PushesOne(S5(), 0, Cell(0, 2), [Cell(1, 2), Cell(0, 1)], 1, 7);
    assert Popped(S5(), 0).open + [Entry(7, Cell(0, 1))] == S6().open;
  }

  lemma Facts7()
    ensures Least(S6().open) == 1 && GRID.Neighbors(Cell(0, 1)) == [Cell(0, 0), Cell(0, 2)]
    ensures OneNew(S6(), Cell(0, 1), [Cell(0, 0), Cell(0, 2)], 0) && S6().cost[Cell(0, 1)] == 5
    ensures Cell(0, 0) !in S6().cost && Manhattan(Cell(0, 0), GOAL) == 1
  {
  }

  lemma Turn7()
    ensures Least(S6().open) == 1 && Expand(GRID, GOAL, S6()) == S7()
  {
    hide Expand, Grid.Neighbors, S5, Least, Manhattan, Relax, Grid.Valid, Grid.Toward, OneNew;
    Facts7();
    PushesOne(S6(), 1, Cell(0, 1), [Cell(0, 0), Cell(0, 2)], 0, 7);
    assert Popped(S6(), 1).open + [Entry(7, Cell(0, 0))] == S7().open;
  }

  lemma Facts8()
    ensures Least(S7().open) == 1 && GRID.Neighbors(Cell(0, 0)) == [Cell(1, 0), Cell(0, 1)]
    ensures OneNew(S7(), Cell(0, 0), [Cell(1, 0), Cell(0, 1)], 0) && S7().cost[Cell(0, 0)] == 6
    ensures Cell(1, 0) !in S7().cost && Manhattan(Cell(1, 0), GOAL) == 0
  {
  }

  lemma Turn8()
    ensures Least(S7().open) == 1 && Expand(GRID, GOAL, S7()) == S8()
  {
    hide Expand, Grid.Neighbors, S6, Least, Manhattan, Relax, Grid.Valid, Grid.Toward, OneNew;
    Facts8();
    PushesOne(S7(), 1, Cell(0, 0), [Cell(1, 0), Cell(0, 1)], 0, 7);
    assert Popped(S7(), 1).open + [Entry(7, Cell(1, 0))] == S8().open;
  }

  /** Every state of the run is a state of the search. */
  lemma FirstTurns()
    ensures Searching(GRID, START, GOAL, S0()) && Searching(GRID, START, GOAL, S8())
    ensures Search(GRID, START, GOAL, S0()) == Search(GRID, START, GOAL, S8())
  {
    hide Expand, Measure, Searching, Tree;
    BeginSearching(GRID, START, GOAL);
    Turn1(); TurnKeepsSearch(S0());
    Turn2(); TurnKeepsSearch(S1());
    Turn3(); TurnKeepsSearch(S2());
    Turn4(); TurnKeepsSearch(S3());
    Turn5(); TurnKeepsSearch(S4());
    Turn6(); TurnKeepsSearch(S5());
    Turn7(); TurnKeepsSearch(S6());
    Turn8(); TurnKeepsSearch(S7());
  }

  lemma TurnKeepsSearch(s: State)
    requires Searching(GRID, START, GOAL, s) && s.open != [] && s.open[Least(s.open)].cell != GOAL
    ensures Searching(GRID, START, GOAL, Expand(GRID, GOAL, s))
    ensures Search(GRID, START, GOAL, s) == Search(GRID, START, GOAL, Expand(GRID, GOAL, s))
  {
    ExpandKeeps(GRID, START, GOAL, s);
    ExpandDrops(GRID, START, GOAL, s);
  }

  /** The predecessors that lead from the goal back to the start. */
  ghost predicate LeadsBack(from: map<Cell, Cell>) {
    && START !in from
    && Cell(1, 4) in from && from[Cell(1, 4)] == START
    && Cell(1, 3) in from && from[Cell(1, 3)] == Cell(1, 4)
    && Cell(1, 2) in from && from[Cell(1, 2)] == Cell(1, 3)
    && Cell(0, 2) in from && from[Cell(0, 2)] == Cell(1, 2)
    && Cell(0, 1) in from && from[Cell(0, 1)] == Cell(0, 2)
    && Cell(0, 0) in from && from[Cell(0, 0)] == Cell(0, 1)
    && GOAL in from && from[GOAL] == Cell(0, 0)
  }

  lemma TrailOfSeven(from: map<Cell, Cell>, cost: map<Cell, nat>)
    requires Ranked(from, cost) && LeadsBack(from)
    ensures GOAL in cost && |Trail(from, cost, GOAL)| == 8
  {
    assert |Trail(from, cost, START)| == 1;
    assert |Trail(from, cost, Cell(1, 4))| == 2;
    assert |Trail(from, cost, Cell(1, 3))| == 3;
    assert |Trail(from, cost, Cell(1, 2))| == 4;
    assert |Trail(from, cost, Cell(0, 2))| == 5;
    assert |Trail(from, cost, Cell(0, 1))| == 6;
    assert |Trail(from, cost, Cell(0, 0))| == 7;
  }

  lemma DetourIsTaken(s: State)
    requires Searching(GRID, START, GOAL, s) && s.open != [] && s.open[Least(s.open)].cell == GOAL
    requires LeadsBack(s.from)
    ensures var r := Search(GRID, START, GOAL, s); r.Some? && |r.value.1| == 8
  {
    hide LeadsBack, Least, Measure;
    SearchingFacts(GRID, START, GOAL, s, Least(s.open));
    TrailOfSeven(s.from, s.cost);
  }

  lemma LastTurn()
    ensures S8().open != [] && S8().open[Least(S8().open)].cell == GOAL && LeadsBack(S8().from)
  {
  }

  const SHORTER := [Cell(2, 4), Cell(2, 3), Cell(2, 2), Cell(2, 1), Cell(2, 0), Cell(1, 0)]

  lemma ShorterIsPath()
    ensures IsPath(GRID, SHORTER, START, GOAL)
  {
    forall i | 0 <= i < |SHORTER| - 1 ensures Move(GRID, SHORTER[i], SHORTER[i + 1]) {
      NeighborsAreMoves(GRID, SHORTER[i], SHORTER[i + 1]);
    }
  }

  /** A* returns a path of seven moves, and there is one of five. */
  lemma AStarTakesADetour()
    ensures Searching(GRID, START, GOAL, Initial(START))
    ensures var r := Search(GRID, START, GOAL, Initial(START));
      && r.Some? && IsPath(GRID, r.value.1, START, GOAL) && |r.value.1| == 8
      && IsPath(GRID, SHORTER, START, GOAL) && |SHORTER| == 6
      && !Shortest(GRID, r.value.1, START, GOAL)
  {
    hide Searching, S8, Least, LeadsBack, IsPath, Search;
    FirstTurns();
    AStarIsSoundAndComplete(GRID, START, GOAL);
    LastTurn();
    DetourIsTaken(S8());
    ShorterIsPath();
  }
}
