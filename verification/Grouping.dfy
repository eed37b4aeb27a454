/** Grouping keyed values: groups in order of first occurrence, values in order within a group. */
module Grouping {
  import opened Permutations

  /** The distinct keys of `ps`, in order of first occurrence. */
  function FirstKeys<K(==), T>(ps: seq<(K, T)>): seq<K> {
    if ps == [] then []
    else
      var front, k := FirstKeys(ps[..|ps| - 1]), ps[|ps| - 1].0;
      if k in front then front else front + [k]
  }

  /** The values of `ps` with key `k`, in order. */
  function WithKey<K(==), T>(ps: seq<(K, T)>, k: K): seq<T> {
    if ps == [] then []
    else WithKey(ps[..|ps| - 1], k) + if ps[|ps| - 1].0 == k then [ps[|ps| - 1].1] else []
  }

  ghost function Values<K, T>(ps: seq<(K, T)>): seq<T> {
    seq(|ps|, i requires 0 <= i < |ps| => ps[i].1)
  }

  /** One group for each distinct key. */
  ghost function Groups<K, T>(ps: seq<(K, T)>): seq<seq<T>> {
    seq(|FirstKeys(ps)|, i requires 0 <= i < |FirstKeys(ps)| => WithKey(ps, FirstKeys(ps)[i]))
  }

  ghost function Concat<T>(xss: seq<seq<T>>): seq<T> {
    if xss == [] then [] else Concat(xss[..|xss| - 1]) + xss[|xss| - 1]
  }

  /** The keys are distinct, and they are the keys of the values: those with a non-empty group. */
  lemma {:induction false} FirstKeysAreTheKeys<K, T>(ps: seq<(K, T)>)
    ensures forall i, j :: 0 <= i < j < |FirstKeys(ps)| ==> FirstKeys(ps)[i] != FirstKeys(ps)[j]
    ensures forall k :: k in FirstKeys(ps) <==> WithKey(ps, k) != []
    ensures forall p :: p in ps ==> p.0 in FirstKeys(ps)
  {
    if ps != [] {
      FirstKeysAreTheKeys(ps[..|ps| - 1]);
      assert ps == ps[..|ps| - 1] + [ps[|ps| - 1]];
    }
  }

  lemma {:induction false} GrowOneGroup<T>(xss: seq<seq<T>>, i: nat, x: T)
    requires i < |xss|
    ensures multiset(Concat(xss[i := xss[i] + [x]])) == multiset(Concat(xss)) + multiset{x}
  {
    var n := |xss| - 1;
    var yss := xss[i := xss[i] + [x]];
    if i < n {
      GrowOneGroup(xss[..n], i, x);
      assert yss[..n] == xss[..n][i := xss[..n][i] + [x]];
    } else {
      assert yss[..n] == xss[..n];
    }
  }

  lemma AddKeyed<K, T>(ps: seq<(K, T)>, k: K, x: T)
    ensures FirstKeys(ps + [(k, x)]) == if k in FirstKeys(ps) then FirstKeys(ps) else FirstKeys(ps) + [k]
    ensures forall k' :: WithKey(ps + [(k, x)], k') == WithKey(ps, k') + if k' == k then [x] else []
  {
    assert (ps + [(k, x)])[..|ps + [(k, x)]| - 1] == ps;
  }

  lemma AddToGroups<K, T>(ps: seq<(K, T)>, k: K, x: T)
    ensures k in FirstKeys(ps) ==> exists i ::
      0 <= i < |Groups(ps)| && Groups(ps + [(k, x)]) == Groups(ps)[i := Groups(ps)[i] + [x]]
    ensures k !in FirstKeys(ps) ==> Groups(ps + [(k, x)]) == Groups(ps) + [[x]]
  {
    FirstKeysAreTheKeys(ps);
    AddKeyed(ps, k, x);
    var now, was, keys := Groups(ps + [(k, x)]), Groups(ps), FirstKeys(ps);
    assert forall j :: 0 <= j < |keys| ==> keys[j] in keys && was[j] == WithKey(ps, keys[j]);
    if k in keys {
      var i :| 0 <= i < |keys| && keys[i] == k;
      forall j | 0 <= j < |was|
        ensures now[j] == was[i := was[i] + [x]][j]
      {
        assert now[j] == WithKey(ps + [(k, x)], keys[j]);
      }
      assert now == was[i := was[i] + [x]];
    } else {
      forall j | 0 <= j < |was|
        ensures now[j] == was[j]
      {
        assert now[j] == WithKey(ps + [(k, x)], keys[j]);
      }
      assert now[|was|] == WithKey(ps, k) + [x] == [x];
      assert now == was + [[x]];
    }
  }

  /** Grouping loses nothing and duplicates nothing. */
  lemma {:induction false} GroupsPartition<K, T>(ps: seq<(K, T)>)
    ensures multiset(Concat(Groups(ps))) == multiset(Values(ps))
  {
    if ps != [] {
      var front, k, x := ps[..|ps| - 1], ps[|ps| - 1].0, ps[|ps| - 1].1;
      assert ps == front + [(k, x)];
      GroupsPartition(front);
      AddToGroups(front, k, x);
      assert Values(ps) == Values(front) + [x];
      var gs := Groups(front);
      if k in FirstKeys(front) {
        var i :| 0 <= i < |gs| && Groups(ps) == gs[i := gs[i] + [x]];
        GrowOneGroup(gs, i, x);
      } else {
        assert (gs + [[x]])[..|gs|] == gs;
      }
    }
  }
}
