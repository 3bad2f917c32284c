/** Runs of numbered steps over a state: what a run gives back, and when the order of the steps cannot
    be told from it. */
module Walks {

  /** One step: an answer and the state after it, or the end of everything. */
  datatype Move<+A, +S> = To(answer: A, state: S) | Halt

  /** A whole run: the answer of every step taken, and the state after the last. */
  datatype Walk<A, S> = Arrived(answers: map<nat, A>, state: S) | Halted

  /** Takes the steps of `order`, one after the other. */
  function Taken<A, S>(step: (nat, S) -> Move<A, S>, s: S, order: seq<nat>): Walk<A, S> {
    if order == [] then Arrived(map[], s)
    else
      var m := step(order[0], s);
      if m.Halt? then Halted
      else First(order[0], m.answer, Taken(step, m.state, order[1..]))
  }

  function First<A, S>(i: nat, answer: A, rest: Walk<A, S>): Walk<A, S> {
    if rest.Halted? then Halted else Arrived(rest.answers[i := answer], rest.state)
  }

  /** The steps i and j, next to each other, can be exchanged in every state. */
  ghost predicate Exchange<A(!new), S(!new)>(step: (nat, S) -> Move<A, S>, i: nat, j: nat) {
    forall s :: Taken(step, s, [i, j]) == Taken(step, s, [j, i])
  }

  ghost predicate Distinct(order: seq<nat>) {
    forall i, j :: 0 <= i < j < |order| ==> order[i] != order[j]
  }

  lemma TakenCons<A, S>(step: (nat, S) -> Move<A, S>, s: S, i: nat, rest: seq<nat>)
    ensures Taken(step, s, [i] + rest)
      == (var m := step(i, s); if m.Halt? then Halted else First(i, m.answer, Taken(step, m.state, rest)))
  {
    assert ([i] + rest)[1..] == rest;
  }

  lemma TakenPair<A, S>(step: (nat, S) -> Move<A, S>, s: S, i: nat, j: nat)
    ensures Taken(step, s, [i, j]) ==
      (var m := step(i, s);
       if m.Halt? then Halted
       else
         var n := step(j, m.state);
         if n.Halt? then Halted else Arrived(map[j := n.answer][i := m.answer], n.state))
  {
    assert [i, j] == [i] + [j] && [j] == [j] + [];
    TakenCons(step, s, i, [j]);
    var m := step(i, s);
    if m.To? {
      TakenCons(step, m.state, j, []);
    }
  }

  lemma {:induction false} TakenKeys<A, S>(step: (nat, S) -> Move<A, S>, s: S, order: seq<nat>)
    ensures var w := Taken(step, s, order); w.Arrived? ==> forall i :: i in w.answers <==> i in order
    decreases |order|
  {
    if order != [] {
      var m := step(order[0], s);
      if m.To? {
        TakenKeys(step, m.state, order[1..]);
      }
    }
  }

  /** Two adjacent steps in front of the rest. */
  lemma TakenTwo<A, S>(step: (nat, S) -> Move<A, S>, s: S, i: nat, j: nat, rest: seq<nat>)
    requires i != j && i !in rest && j !in rest
    ensures Taken(step, s, [i, j] + rest) ==
      (var p := Taken(step, s, [i, j]);
       if p.Halted? then Halted
       else
         var w := Taken(step, p.state, rest);
         if w.Halted? then Halted else Arrived(w.answers + p.answers, w.state))
  {
    TakenPair(step, s, i, j);
    assert [i, j] + rest == [i] + ([j] + rest);
    TakenCons(step, s, i, [j] + rest);
    var m := step(i, s);
    if m.To? {
      TakenCons(step, m.state, j, rest);
      var n := step(j, m.state);
      if n.To? {
        var w := Taken(step, n.state, rest);
        if w.Arrived? {
          assert w.answers[j := n.answer][i := m.answer] == w.answers + map[j := n.answer][i := m.answer];
        }
      }
    }
  }

  /** A step that can be exchanged with every step of a list can be taken before all of them. */
  lemma {:induction false} MoveToFront<A(!new), S(!new)>(
    step: (nat, S) -> Move<A, S>, s: S, before: seq<nat>, x: nat, after: seq<nat>)
    requires Distinct(before + [x] + after) && forall y :: y in before ==> Exchange(step, y, x)
    ensures Taken(step, s, before + [x] + after) == Taken(step, s, [x] + before + after)
    decreases |before|
  {
    hide Taken, Exchange, Distinct;
    if before == [] {
      assert before + [x] + after == [x] + before + after;
    } else {
      var y, rest := before[0], before[1..];
      assert y in before;
      FrontStaysDistinct(before, x, after);
      assert before + [x] + after == [y] + (rest + [x] + after);
      assert [y] + ([x] + rest + after) == [y, x] + (rest + after);
      assert [x, y] + (rest + after) == [x] + before + after;
      TakenCons(step, s, y, rest + [x] + after);
      TakenCons(step, s, y, [x] + rest + after);
      var m := step(y, s);
      if m.To? {
        MoveToFront(step, m.state, rest, x, after);
      }
      ExchangedAnswers(step, s, x, y, rest + after);
    }
  }

  lemma FrontStaysDistinct(before: seq<nat>, x: nat, after: seq<nat>)
    requires before != [] && Distinct(before + [x] + after)
    ensures Distinct(before[1..] + [x] + after)
    ensures before[0] != x && before[0] !in before[1..] + after && x !in before[1..] + after
  {
    var all, rest := before + [x] + after, before[1..] + [x] + after;
    assert all[1..] == rest && all[0] == before[0];
    assert forall i :: 0 <= i < |rest| ==> rest[i] == all[i + 1];
    assert all[|before|] == x;
    forall z | z in before[1..] + after ensures z != x && z != before[0] {
      if z in before[1..] {
        var i :| 0 <= i < |before[1..]| && before[1..][i] == z;
        assert all[i + 1] == z;
      } else {
        var i :| 0 <= i < |after| && after[i] == z;
        assert all[|before| + 1 + i] == z;
      }
    }
  }

  lemma ExchangedAnswers<A(!new), S(!new)>(step: (nat, S) -> Move<A, S>, s: S, x: nat, y: nat, rest: seq<nat>)
    requires x != y && x !in rest && y !in rest && Exchange(step, y, x)
    ensures Taken(step, s, [y, x] + rest) == Taken(step, s, [x, y] + rest)
  {
    TakenTwo(step, s, y, x, rest);
    TakenTwo(step, s, x, y, rest);
    assert Taken(step, s, [y, x]) == Taken(step, s, [x, y]);
  }

  /** What is left of a list without some of its numbers. */
  function Except(a: seq<nat>, gone: set<nat>): seq<nat> {
    if a == [] then []
    else Except(a[..|a| - 1], gone) + if a[|a| - 1] in gone then [] else [a[|a| - 1]]
  }

  lemma {:induction false} ExceptAppend(a: seq<nat>, b: seq<nat>, gone: set<nat>)
    ensures Except(a + b, gone) == Except(a, gone) + Except(b, gone)
  {
    if b == [] {
      assert a + b == a;
    } else {
      var n := |b| - 1;
      assert (a + b)[..|a + b| - 1] == a + b[..n];
      ExceptAppend(a, b[..n], gone);
    }
  }

  lemma {:induction false} ExceptAgrees(a: seq<nat>, gone: set<nat>, gone': set<nat>)
    requires forall i :: i in a ==> (i in gone <==> i in gone')
    ensures Except(a, gone) == Except(a, gone')
  {
    if a != [] {
      ExceptAgrees(a[..|a| - 1], gone, gone');
    }
  }

  lemma {:induction false} ExceptNothing(a: seq<nat>)
    ensures Except(a, {}) == a
  {
    if a != [] {
      ExceptNothing(a[..|a| - 1]);
    }
  }

  ghost function Numbers(order: seq<nat>): set<nat> {
    set i | i in order
  }

  ghost predicate Increasing(order: seq<nat>) {
    forall i, j :: 0 <= i < j < |order| ==> order[i] < order[j]
  }

  /** A step that can be exchanged with all earlier ones can be taken first. */
  lemma BringOne<A(!new), S(!new)>(step: (nat, S) -> Move<A, S>, s: S, a: seq<nat>, x: nat) returns (rest: seq<nat>)
    requires Increasing(a) && x in a && forall y :: y in a && y < x ==> Exchange(step, y, x)
    ensures Increasing(rest) && forall i :: i in rest <==> i in a && i != x
    ensures forall gone :: x !in gone ==> Except(a, gone + {x}) == Except(rest, gone)
    ensures Taken(step, s, a) == Taken(step, s, [x] + rest)
  {
    hide Taken, Except, Increasing, Exchange, Distinct;
    var before, after := SplitAt(a, x);
    rest := before + after;
    MoveToFront(step, s, before, x, after);
    ExceptFront(before, x, after);
    assert [x] + before + after == [x] + rest;
  }

  /** Steps that can be exchanged with all smaller ones can be taken first, in any order; the others keep
      their order. */
  lemma {:induction false} BringForward<A(!new), S(!new)>(
    step: (nat, S) -> Move<A, S>, s: S, a: seq<nat>, order: seq<nat>)
    requires Increasing(a) && Distinct(order) && forall x :: x in order ==> x in a
    requires forall x, y :: x in order && y in a && y < x ==> Exchange(step, y, x)
    ensures Taken(step, s, a) == Taken(step, s, order + Except(a, Numbers(order)))
    decreases |order|
  {
    hide Taken, Except, Exchange, Distinct, Increasing;
    if order == [] {
      assert Numbers(order) == {};
      ExceptNothing(a);
      assert order + a == a;
    } else {
      var x, tail := order[0], order[1..];
      assert x in order;
      var rest := BringOne(step, s, a, x);
      TailOfDistinct(order);
      assert Numbers(order) == Numbers(tail) + {x};
      var left := Except(rest, Numbers(tail));
      assert order + Except(a, Numbers(order)) == [x] + (tail + left);
      TakenCons(step, s, x, rest);
      TakenCons(step, s, x, tail + left);
      var m := step(x, s);
      if m.To? {
        BringForward(step, m.state, rest, tail);
      }
    }
  }

  lemma {:induction false} ExceptAll(a: seq<nat>, gone: set<nat>)
    requires forall i :: i in a ==> i in gone
    ensures Except(a, gone) == []
  {
    if a != [] {
      ExceptAll(a[..|a| - 1], gone);
      assert a[|a| - 1] in a;
    }
  }

  /** When its steps can be exchanged, a run of all numbers below n gives the same in every order. */
  lemma OrderIsUnseen<A(!new), S(!new)>(step: (nat, S) -> Move<A, S>, s: S, order: seq<nat>, n: nat)
    requires Permutes(order, n) && forall i: nat, j: nat :: i < j < n ==> Exchange(step, i, j)
    ensures Taken(step, s, order) == Taken(step, s, From(0, n))
  {
    FromPermutes(n);
    BringForward(step, s, From(0, n), order);
    ExceptAll(From(0, n), Numbers(order));
    assert order + [] == order;
  }

  lemma TailOfDistinct(order: seq<nat>)
    requires order != [] && Distinct(order)
    ensures Distinct(order[1..]) && forall i :: i in order[1..] <==> i in order && i != order[0]
  {
    var tail := order[1..];
    assert forall i :: 0 <= i < |tail| ==> tail[i] == order[i + 1];
    forall x | x in order && x != order[0] ensures x in tail {
      var i :| 0 <= i < |order| && order[i] == x;
      assert tail[i - 1] == x;
    }
  }

  lemma SplitAt(a: seq<nat>, x: nat) returns (before: seq<nat>, after: seq<nat>)
    requires Increasing(a) && x in a
    ensures a == before + [x] + after && Distinct(before + [x] + after) && Increasing(before + after)
    ensures forall i :: i in before + after <==> i in a && i != x
    ensures forall y :: y in before ==> y in a && y < x
  {
    var k :| 0 <= k < |a| && a[k] == x;
    before, after := a[..k], a[k + 1..];
    TakenOut(a, k);
    hide Increasing;
    assert a == before + [x] + after;
  }

  lemma TakenOut(a: seq<nat>, k: nat)
    requires Increasing(a) && k < |a|
    ensures Distinct(a) && Increasing(a[..k] + a[k + 1..])
    ensures forall i :: i in a[..k] + a[k + 1..] <==> i in a && i != a[k]
    ensures forall y :: y in a[..k] ==> y in a && y < a[k]
  {
    var rest := a[..k] + a[k + 1..];
    assert forall i :: 0 <= i < |rest| ==> rest[i] == a[if i < k then i else i + 1];
    forall x | x in a && x != a[k] ensures x in rest {
      var i :| 0 <= i < |a| && a[i] == x;
      assert rest[if i < k then i else i - 1] == x;
    }
  }

  lemma ExceptFront(before: seq<nat>, x: nat, after: seq<nat>)
    requires x !in before + after
    ensures forall gone :: x !in gone ==> Except(before + [x] + after, gone + {x}) == Except(before + after, gone)
  {
    forall gone | x !in gone ensures Except(before + [x] + after, gone + {x}) == Except(before + after, gone) {
      ExceptAppend(before + [x], after, gone + {x});
      ExceptAppend(before, [x], gone + {x});
      ExceptAppend(before, after, gone + {x});
      assert [x][..0] == [] && Except([x], gone + {x}) == [];
      ExceptAgrees(before + after, gone + {x}, gone);
    }
  }

  /** A run in two parts. */
  lemma {:induction false} TakenAppend<A, S>(step: (nat, S) -> Move<A, S>, s: S, a: seq<nat>, b: seq<nat>)
    requires Distinct(a + b)
    ensures Taken(step, s, a + b) ==
      (var p := Taken(step, s, a);
       if p.Halted? then Halted
       else
         var q := Taken(step, p.state, b);
         if q.Halted? then Halted else Arrived(q.answers + p.answers, q.state))
    decreases |a|
  {
    if a == [] {
      assert a + b == b;
      var q := Taken(step, s, b);
      assert q.Arrived? ==> q.answers + map[] == q.answers;
    } else {
      var x, rest := a[0], a[1..];
      assert a == [x] + rest && a + b == [x] + (rest + b);
      assert forall i :: 0 <= i < |rest + b| ==> (rest + b)[i] == (a + b)[i + 1];
      TakenCons(step, s, x, rest);
      TakenCons(step, s, x, rest + b);
      var m := step(x, s);
      if m.To? {
        TakenAppend(step, m.state, rest, b);
        var p := Taken(step, m.state, rest);
        if p.Arrived? {
          var q := Taken(step, p.state, b);
          if q.Arrived? {
            assert (q.answers + p.answers)[x := m.answer] == q.answers + p.answers[x := m.answer];
          }
        }
      }
    }
  }

  /** The run after one more step. */
  lemma OneMore<A, S>(step: (nat, S) -> Move<A, S>, s: S, order: seq<nat>, k: nat)
    requires k < |order| && Distinct(order)
    ensures order[..k + 1] == order[..k] + [order[k]]
    ensures var p := Taken(step, s, order[..k]);
      Taken(step, s, order[..k + 1]) ==
        if p.Halted? then Halted
        else
          var m := step(order[k], p.state);
          if m.Halt? then Halted else Arrived(p.answers[order[k] := m.answer], m.state)
  {
    assert order[..k + 1] == order[..k] + [order[k]];
    var last := [order[k]];
    assert forall i :: 0 <= i < |order[..k] + last| ==> (order[..k] + last)[i] == order[i];
    TakenAppend(step, s, order[..k], last);
    TakenKeys(step, s, order[..k]);
    var p := Taken(step, s, order[..k]);
    if p.Arrived? {
      assert last == last + [];
      TakenCons(step, p.state, order[k], []);
      var m := step(order[k], p.state);
      if m.To? {
        assert order[k] !in order[..k];
        assert map[order[k] := m.answer] + p.answers == p.answers[order[k] := m.answer];
      }
    }
  }

  /** The numbers from i up to n, in order. */
  function From(i: nat, n: nat): (order: seq<nat>)
    requires i <= n
    ensures |order| == n - i && forall k :: 0 <= k < n - i ==> order[k] == i + k
  {
    seq(n - i, k requires 0 <= k => i + k)
  }

  /** A permutation of the numbers below n. */
  ghost predicate Permutes(order: seq<nat>, n: nat) {
    Distinct(order) && forall i: nat :: i in order <==> i < n
  }

  lemma FromPermutes(n: nat)
    ensures Permutes(From(0, n), n)
  {
    forall i: nat | i < n ensures i in From(0, n) {
      assert From(0, n)[i] == i;
    }
  }

  /** A finishing order for every batch: its number and its size give a permutation. */
  type Schedule = f: (nat, nat) -> seq<nat> | forall k, n :: Permutes(f(k, n), n) witness InTurn()

  function InTurn(): (f: (nat, nat) -> seq<nat>)
    ensures forall k, n :: Permutes(f(k, n), n)
  {
    (k: nat, n: nat) => TurnOrder(n)
  }

  function TurnOrder(n: nat): (order: seq<nat>)
    ensures Permutes(order, n)
  {
    FromPermutes(n);
    From(0, n)
  }

  /** The value under each number, or the zero value. */
  function Slots<T>(answers: map<nat, T>, n: nat, zero: T): (slots: seq<T>)
    ensures |slots| == n && forall i :: 0 <= i < n ==> slots[i] == if i in answers then answers[i] else zero
  {
    seq(n, i requires 0 <= i => if i in answers then answers[i] else zero)
  }
}
