// Small vocabulary shared by every component of the bridge model.
module Prelude {

  datatype Option<+T> = None | Some(value: T)

  datatype Result<+T, +E> = Success(value: T) | Failure(error: E)

  /** A Go `error` value: nil, or an error carrying its text. */
  datatype Status = Nil | Err(text: string)

  ghost predicate NoDup<T(!new)>(s: seq<T>) {
    forall i, j :: 0 <= i < j < |s| ==> s[i] != s[j]
  }

  ghost function Sum<T>(cost: T -> nat, s: seq<T>): nat {
    if s == [] then 0 else Sum(cost, s[..|s| - 1]) + cost(s[|s| - 1])
  }

  lemma {:induction false} SumAppend<T>(cost: T -> nat, s: seq<T>, x: T)
    ensures Sum(cost, s + [x]) == Sum(cost, s) + cost(x)
  {
    assert (s + [x])[..|s|] == s;
  }

  lemma {:induction false} SumUpdate<T>(cost: T -> nat, s: seq<T>, i: nat, x: T)
    requires i < |s|
    ensures Sum(cost, s[i := x]) + cost(s[i]) == Sum(cost, s) + cost(x)
  {
    var n := |s| - 1;
    if i == n {
      assert s[i := x][..n] == s[..n];
    } else {
      SumUpdate(cost, s[..n], i, x);
      assert s[i := x][..n] == s[..n][i := x];
    }
  }

  /** Raising every summand by the same amount raises the sum by that amount per summand. */
  lemma {:induction false} SumRaised<T>(cost: T -> nat, s: seq<T>, t: seq<T>, d: nat)
    requires |s| == |t|
    requires forall i :: 0 <= i < |s| ==> cost(t[i]) == cost(s[i]) + d
    ensures Sum(cost, t) == Sum(cost, s) + |s| * d
  {
    if s != [] {
      var n := |s| - 1;
      SumRaised(cost, s[..n], t[..n], d);
      assert |s| * d == n * d + d;
    }
  }

  lemma {:induction false} SumBounded<T>(cost: T -> nat, s: seq<T>, d: nat)
    requires forall i :: 0 <= i < |s| ==> cost(s[i]) <= d
    ensures Sum(cost, s) <= |s| * d
  {
    if s != [] {
      var n := |s| - 1;
      SumBounded(cost, s[..n], d);
      assert |s| * d == n * d + d;
    }
  }

  /** A sequence without repetitions is no longer than a set holding its elements. */
  lemma {:induction false} NoDupFits<T(!new)>(s: seq<T>, bound: set<T>)
    requires NoDup(s)
    requires forall i :: 0 <= i < |s| ==> s[i] in bound
    ensures |s| <= |bound|
  {
    if s != [] {
      var last := s[|s| - 1];
      NoDupFits(s[..|s| - 1], bound - {last});
      assert |bound - {last}| == |bound| - 1;
    }
  }

  ghost function Below(n: nat): (s: set<nat>)
    ensures forall i: nat :: i in s <==> i < n
    ensures |s| == n
  {
    if n == 0 then {} else Below(n - 1) + {n - 1}
  }

  /** An injection from a set into {0, .., n-1} bounds its size. */
  lemma {:induction false} InjectionFits<T(!new)>(s: set<T>, index: T -> nat, slots: set<nat>)
    requires forall x :: x in s ==> index(x) in slots
    requires forall x, y :: x in s && y in s && index(x) == index(y) ==> x == y
    ensures |s| <= |slots|
  {
    if s != {} {
      var x :| x in s;
      InjectionFits(s - {x}, index, slots - {index(x)});
      assert |slots - {index(x)}| == |slots| - 1;
      assert |s - {x}| == |s| - 1;
    }
  }
}
