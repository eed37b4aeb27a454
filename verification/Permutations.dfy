/** Sequences that hold the same elements in different orders. */
module Permutations {
  function Without<T>(xs: seq<T>, k: nat): seq<T>
    requires k < |xs|
  {
    xs[..k] + xs[k + 1..]
  }

  lemma SplitAt<T>(xs: seq<T>, k: nat)
    requires k < |xs|
    ensures multiset(xs) == multiset(Without(xs, k)) + multiset{xs[k]}
  {
    assert xs == xs[..k] + [xs[k]] + xs[k + 1..];
  }

  lemma DropLast<T>(xs: seq<T>)
    requires xs != []
    ensures multiset(xs[..|xs| - 1]) == multiset(xs) - multiset{xs[|xs| - 1]}
  {
    assert xs == xs[..|xs| - 1] + [xs[|xs| - 1]];
  }

  /** A middle part can be taken out and counted separately. */
  lemma MiddleOut<T>(l: seq<T>, m: seq<T>, r: seq<T>)
    ensures multiset(l + m + r) == multiset(l + r) + multiset(m)
  {
  }

  /** The last element of a sequence has a counterpart in any permutation of it. */
  lemma Counterpart<T>(front: seq<T>, last: T, b: seq<T>) returns (l: seq<T>, r: seq<T>)
    requires multiset(front + [last]) == multiset(b)
    ensures b == l + [last] + r && multiset(front) == multiset(l + r)
  {
    assert multiset(front + [last]) == multiset(front) + multiset{last};
    assert last in multiset(b);
    var k :| 0 <= k < |b| && b[k] == last;
    l, r := b[..k], b[k + 1..];
    assert b == l + [last] + r;
    MiddleOut(l, [last], r);
    assert multiset(front) == multiset(b) - multiset{last};
    assert multiset(l + r) == multiset(b) - multiset{last};
  }

  /** Relabelling two permutations element by element, alike elements alike, yields permutations. */
  lemma {:induction false} Relabel<A, B>(a: seq<A>, b: seq<A>, x: seq<B>, y: seq<B>)
    requires multiset(a) == multiset(b) && |a| == |x| && |b| == |y|
    requires forall i, j :: 0 <= i < |a| && 0 <= j < |b| && a[i] == b[j] ==> x[i] == y[j]
    ensures multiset(x) == multiset(y)
  {
    if a == [] {
      assert |multiset(b)| == 0;
    } else {
      var n := |a| - 1;
      assert a == a[..n] + [a[n]] && x == x[..n] + [x[n]];
      var l, r := Counterpart(a[..n], a[n], b);
      var yl, yr := y[..|l|], y[|l| + 1..];
      assert y == yl + [y[|l|]] + yr;
      assert a[n] == b[|l|];
      forall i, j | 0 <= i < n && 0 <= j < |l + r| && a[i] == (l + r)[j]
        ensures x[i] == (yl + yr)[j]
      {
        assert (l + r)[j] == b[if j < |l| then j else j + 1];
      }
      Relabel(a[..n], l + r, x[..n], yl + yr);
      MiddleOut(yl, [y[|l|]], yr);
    }
  }

  // ---------------------------------------------------------------- mapping and concatenating

  /** The sequences that `f` yields for the elements of `xs`, one after the other. */
  ghost function Collect<A, B>(xs: seq<A>, f: A -> seq<B>): seq<B> {
    if xs == [] then [] else Collect(xs[..|xs| - 1], f) + f(xs[|xs| - 1])
  }

  lemma {:induction false} CollectAppend<A, B>(a: seq<A>, b: seq<A>, f: A -> seq<B>)
    ensures Collect(a + b, f) == Collect(a, f) + Collect(b, f)
  {
    if b == [] {
      assert a + b == a;
    } else {
      CollectAppend(a, b[..|b| - 1], f);
      assert (a + b)[..|a + b| - 1] == a + b[..|b| - 1];
    }
  }

  lemma CollectAround<A, B>(l: seq<A>, x: A, r: seq<A>, f: A -> seq<B>)
    ensures Collect(l + [x] + r, f) == Collect(l, f) + f(x) + Collect(r, f)
    ensures Collect(l + r, f) == Collect(l, f) + Collect(r, f)
  {
    CollectAppend(l + [x], r, f);
    CollectAppend(l, r, f);
    assert (l + [x])[..|l|] == l;
  }

  lemma CountsAround<A, B>(l: seq<A>, x: A, r: seq<A>, f: A -> seq<B>)
    ensures multiset(Collect(l + [x] + r, f)) == multiset(Collect(l + r, f)) + multiset(f(x))
  {
    CollectAround(l, x, r, f);
    MiddleOut(Collect(l, f), f(x), Collect(r, f));
  }

  /** What is collected does not depend on the order, up to its own order. */
  lemma {:induction false} CollectPermutation<A, B>(a: seq<A>, b: seq<A>, f: A -> seq<B>)
    requires multiset(a) == multiset(b)
    ensures multiset(Collect(a, f)) == multiset(Collect(b, f))
  {
    if a == [] {
      assert |multiset(b)| == 0;
    } else {
      var front, last := a[..|a| - 1], a[|a| - 1];
      assert a == front + [last];
      var l, r := Counterpart(front, last, b);
      CollectPermutation(front, l + r, f);
      CountsAround(l, last, r, f);
    }
  }

  /** Two parts that occur equally often add up to equal counts. */
  lemma PartsAddUp<T>(a: seq<T>, front: seq<T>, b: seq<T>, rest: seq<T>, last: seq<T>)
    requires a == front + last && multiset(front) == multiset(rest)
    requires multiset(b) == multiset(rest) + multiset(last)
    ensures multiset(a) == multiset(b)
  {
  }

  // ---------------------------------------------------------------- distinct keys

  ghost predicate DistinctBy<T, K>(xs: seq<T>, key: T -> K) {
    forall i, j :: 0 <= i < j < |xs| ==> key(xs[i]) != key(xs[j])
  }

  lemma SameMembers<T>(a: seq<T>, b: seq<T>)
    requires multiset(a) == multiset(b)
    ensures forall x :: x in a <==> x in b
  {
    assert forall x :: x in a <==> x in multiset(a);
    assert forall x :: x in b <==> x in multiset(b);
  }

  /** An element with a new key can be put anywhere. */
  lemma InsertDistinct<T, K>(l: seq<T>, x: T, r: seq<T>, key: T -> K)
    requires DistinctBy(l + r, key) && forall y :: y in l + r ==> key(y) != key(x)
    ensures DistinctBy(l + [x] + r, key)
  {
    var all := l + [x] + r;
    assert forall i :: 0 <= i < |all| && i != |l| ==> all[i] == (l + r)[if i < |l| then i else i - 1];
    forall i, j | 0 <= i < j < |all|
      ensures key(all[i]) != key(all[j])
    {
      if i == |l| {
        assert all[j] in l + r;
      } else if j == |l| {
        assert all[i] in l + r;
      } else {
        assert all[i] == (l + r)[if i < |l| then i else i - 1];
      }
    }
  }

  /** Distinctness of keys does not depend on the order. */
  lemma {:induction false} DistinctByPermutation<T, K>(a: seq<T>, b: seq<T>, key: T -> K)
    requires DistinctBy(a, key) && multiset(a) == multiset(b)
    ensures DistinctBy(b, key)
  {
    if a == [] {
      assert |multiset(b)| == 0;
    } else {
      var front, last := a[..|a| - 1], a[|a| - 1];
      assert a == front + [last];
      var l, r := Counterpart(front, last, b);
      DistinctByPermutation(front, l + r, key);
      SameMembers(front, l + r);
      InsertDistinct(l, last, r, key);
    }
  }
}
