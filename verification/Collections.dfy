/** Sequence folds shared by the other modules: sums and multiset collections over a sequence of
    threads, concatenation of message batches, and what a point update does to each. */
module Collections {

  datatype Option<+T> = None | Some(value: T)

  function Max(a: int, b: int): int {
    if a < b then b else a
  }

  function Abs(x: int): nat {
    if x < 0 then -x else x
  }

  function Below(n: nat): (s: set<nat>)
    ensures forall i :: i in s <==> 0 <= i < n
  {
    if n == 0 then {} else Below(n - 1) + {n - 1}
  }

  /** The sum of `f` over the elements of `s`. */
  ghost function Sum<T>(s: seq<T>, f: T -> nat): nat {
    if s == [] then 0 else Sum(s[..|s| - 1], f) + f(s[|s| - 1])
  }

  /** The multiset union of `f` over the elements of `s`. */
  ghost function Collect<T, C>(s: seq<T>, f: T -> multiset<C>): multiset<C> {
    if s == [] then multiset{} else Collect(s[..|s| - 1], f) + f(s[|s| - 1])
  }

  /** Concatenates a sequence of sequences. */
  function Flatten<T>(s: seq<seq<T>>): seq<T> {
    if s == [] then [] else s[0] + Flatten(s[1..])
  }

  lemma {:induction false} SumAppend<T>(a: seq<T>, b: seq<T>, f: T -> nat)
    ensures Sum(a + b, f) == Sum(a, f) + Sum(b, f)
  {
    if b == [] {
      assert a + b == a;
    } else {
      var c := b[..|b| - 1];
      assert (a + b)[..|a + b| - 1] == a + c;
      SumAppend(a, c, f);
    }
  }

  lemma {:induction false} SumUpdate<T>(s: seq<T>, i: nat, x: T, f: T -> nat)
    requires i < |s|
    ensures Sum(s[i := x], f) + f(s[i]) == Sum(s, f) + f(x)
  {
    var n := |s| - 1;
    if i == n {
      assert s[i := x][..n] == s[..n];
    } else {
      assert s[i := x][..n] == s[..n][i := x];
      SumUpdate(s[..n], i, x, f);
    }
  }

  lemma {:induction false} SumMember<T>(s: seq<T>, i: nat, f: T -> nat)
    requires i < |s|
    ensures f(s[i]) <= Sum(s, f)
  {
    if i < |s| - 1 {
      SumMember(s[..|s| - 1], i, f);
    }
  }

  lemma {:induction false} SumZero<T>(s: seq<T>, f: T -> nat)
    requires forall i :: 0 <= i < |s| ==> f(s[i]) == 0
    ensures Sum(s, f) == 0
  {
    if s != [] {
      SumZero(s[..|s| - 1], f);
    }
  }

  lemma {:induction false} CollectAppend<T, C>(a: seq<T>, b: seq<T>, f: T -> multiset<C>)
    ensures Collect(a + b, f) == Collect(a, f) + Collect(b, f)
  {
    if b == [] {
      assert a + b == a;
    } else {
      var c := b[..|b| - 1];
      assert (a + b)[..|a + b| - 1] == a + c;
      CollectAppend(a, c, f);
    }
  }

  lemma {:induction false} CollectUpdate<T, C>(s: seq<T>, i: nat, x: T, f: T -> multiset<C>)
    requires i < |s|
    ensures Collect(s[i := x], f) + f(s[i]) == Collect(s, f) + f(x)
  {
    var n := |s| - 1;
    if i == n {
      assert s[i := x][..n] == s[..n];
    } else {
      assert s[i := x][..n] == s[..n][i := x];
      CollectUpdate(s[..n], i, x, f);
      calc {
        Collect(s[i := x], f) + f(s[i]);
        (Collect(s[..n][i := x], f) + f(s[i])) + f(s[n]);
        (Collect(s[..n], f) + f(x)) + f(s[n]);
        Collect(s, f) + f(x);
      }
    }
  }

  lemma {:induction false} CollectMember<T, C>(s: seq<T>, i: nat, f: T -> multiset<C>)
    requires i < |s|
    ensures f(s[i]) <= Collect(s, f)
  {
    if i < |s| - 1 {
      CollectMember(s[..|s| - 1], i, f);
    }
  }

  /** Two collections agree when their functions agree on every element. */
  lemma {:induction false} CollectAgree<T, C>(s: seq<T>, f: T -> multiset<C>, g: T -> multiset<C>)
    requires forall i :: 0 <= i < |s| ==> f(s[i]) == g(s[i])
    ensures Collect(s, f) == Collect(s, g)
  {
    if s != [] {
      CollectAgree(s[..|s| - 1], f, g);
    }
  }

  lemma {:induction false} FlattenAppend<T>(a: seq<seq<T>>, b: seq<seq<T>>)
    ensures Flatten(a + b) == Flatten(a) + Flatten(b)
  {
    if a == [] {
      assert a + b == b;
    } else {
      assert (a + b)[1..] == a[1..] + b;
      FlattenAppend(a[1..], b);
    }
  }

  lemma SubsetSize<T>(a: set<T>, b: set<T>)
    requires a <= b
    ensures |a| <= |b|
  {
    assert b == a + (b - a);
  }
}
