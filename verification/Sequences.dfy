/** Sequence idioms shared by the state machines: removal at an index and sums of costs. */
module Sequences {

  function RemoveAt<T>(s: seq<T>, k: nat): (r: seq<T>)
    requires k < |s|
    ensures |r| == |s| - 1
    ensures forall x | x in r :: x in s
  {
    s[..k] + s[k + 1..]
  }

  lemma RemoveAtMultiset<T>(s: seq<T>, k: nat)
    requires k < |s|
    ensures multiset(s) == multiset(RemoveAt(s, k)) + multiset{s[k]}
  {
    assert s == s[..k] + ([s[k]] + s[k + 1..]);
  }

  function Sum(s: seq<nat>): nat {
    if s == [] then 0 else s[0] + Sum(s[1..])
  }

  lemma {:induction false} SumAppend(a: seq<nat>, b: seq<nat>)
    ensures Sum(a + b) == Sum(a) + Sum(b)
  {
    if a == [] {
      assert a + b == b;
    } else {
      assert (a + b)[1..] == a[1..] + b;
      SumAppend(a[1..], b);
    }
  }

  lemma {:induction false} SumRemoveAt(s: seq<nat>, k: nat)
    requires k < |s|
    ensures Sum(s) == Sum(RemoveAt(s, k)) + s[k]
  {
    assert s == s[..k] + s[k..];
    SumAppend(s[..k], s[k..]);
    assert s[k..][1..] == s[k + 1..];
    SumAppend(s[..k], s[k + 1..]);
  }

  lemma SumUpdate(s: seq<nat>, k: nat, x: nat)
    requires k < |s|
    ensures Sum(s[k := x]) + s[k] == Sum(s) + x
  {
    SumRemoveAt(s, k);
    SumRemoveAt(s[k := x], k);
    assert RemoveAt(s[k := x], k) == RemoveAt(s, k);
  }

  predicate Distinct<T(==)>(s: seq<T>) {
    forall i, j | 0 <= i < j < |s| :: s[i] != s[j]
  }

  lemma {:induction false} DistinctIfCounts<T>(s: seq<T>)
    requires forall x | x in s :: multiset(s)[x] <= 1
    ensures Distinct(s)
  {
    forall i, j | 0 <= i < j < |s| ensures s[i] != s[j] {
      RemoveAtMultiset(s, i);
      assert RemoveAt(s, i)[j - 1] == s[j];
      assert s[j] in multiset(RemoveAt(s, i));
      assert s[i] in s;
    }
  }

  /** The elements satisfying `keep`, in order. */
  function Filter<T>(s: seq<T>, keep: T -> bool): (r: seq<T>)
    ensures forall x | x in r :: x in s && keep(x)
  {
    if s == [] then []
    else (if keep(s[0]) then [s[0]] else []) + Filter(s[1..], keep)
  }

  lemma {:induction false} FilterAppend<T>(a: seq<T>, b: seq<T>, keep: T -> bool)
    ensures Filter(a + b, keep) == Filter(a, keep) + Filter(b, keep)
  {
    if a == [] {
      assert a + b == b;
    } else {
      assert (a + b)[1..] == a[1..] + b;
      FilterAppend(a[1..], b, keep);
    }
  }

  lemma {:induction false} FilterSame<T>(s: seq<T>, p: T -> bool, q: T -> bool)
    requires forall x | x in s :: p(x) == q(x)
    ensures Filter(s, p) == Filter(s, q)
  {
    if s != [] {
      assert s[0] in s && forall x | x in s[1..] :: x in s;
      FilterSame(s[1..], p, q);
    }
  }

  lemma {:induction false} FilterNone<T>(s: seq<T>, keep: T -> bool)
    requires forall x | x in s :: !keep(x)
    ensures Filter(s, keep) == []
  {
    if s != [] {
      assert s[0] in s && forall x | x in s[1..] :: x in s;
      FilterNone(s[1..], keep);
    }
  }

  lemma {:induction false} FilterCount<T>(s: seq<T>, keep: T -> bool, x: T)
    ensures multiset(Filter(s, keep))[x] == if keep(x) then multiset(s)[x] else 0
  {
    if s != [] {
      FilterCount(s[1..], keep, x);
      assert s == [s[0]] + s[1..];
    }
  }

  function Flatten<T>(ss: seq<seq<T>>): seq<T> {
    if ss == [] then [] else ss[0] + Flatten(ss[1..])
  }

  lemma {:induction false} FlattenAppend<T>(a: seq<seq<T>>, b: seq<seq<T>>)
    ensures Flatten(a + b) == Flatten(a) + Flatten(b)
  {
    if a == [] {
      assert a + b == b;
    } else {
      assert (a + b)[1..] == a[1..] + b;
      FlattenAppend(a[1..], b);
    }
  }

  lemma FlattenSnoc<T>(ss: seq<seq<T>>, s: seq<T>)
    ensures Flatten(ss + [s]) == Flatten(ss) + s
  {
    FlattenAppend(ss, [s]);
    assert Flatten([s]) == s + Flatten([]);
  }

  /** The sum of the costs of the elements. */
  function Total<T>(s: seq<T>, cost: T -> nat): nat {
    Sum(Costs(s, cost))
  }

  function Costs<T>(s: seq<T>, cost: T -> nat): (costs: seq<nat>)
    ensures |costs| == |s| && forall i | 0 <= i < |s| :: costs[i] == cost(s[i])
  {
    seq(|s|, i requires 0 <= i < |s| => cost(s[i]))
  }

  lemma TotalAppend<T>(s: seq<T>, x: T, cost: T -> nat)
    ensures Total(s + [x], cost) == Total(s, cost) + cost(x)
  {
    assert Costs(s + [x], cost) == Costs(s, cost) + [cost(x)];
    SumAppend(Costs(s, cost), [cost(x)]);
    assert Sum([cost(x)]) == cost(x) + Sum([]);
  }

  lemma TotalHead<T>(s: seq<T>, cost: T -> nat)
    requires s != []
    ensures Total(s, cost) == cost(s[0]) + Total(s[1..], cost)
  {
    assert Costs(s, cost)[1..] == Costs(s[1..], cost);
  }

  lemma TotalRemove<T>(s: seq<T>, k: nat, cost: T -> nat)
    requires k < |s|
    ensures Total(RemoveAt(s, k), cost) + cost(s[k]) == Total(s, cost)
  {
    SumRemoveAt(Costs(s, cost), k);
    assert RemoveAt(Costs(s, cost), k) == Costs(RemoveAt(s, k), cost);
  }

  lemma TotalUpdate<T>(s: seq<T>, k: nat, x: T, cost: T -> nat)
    requires k < |s|
    ensures Total(s[k := x], cost) + cost(s[k]) == Total(s, cost) + cost(x)
  {
    SumUpdate(Costs(s, cost), k, cost(x));
    assert Costs(s, cost)[k := cost(x)] == Costs(s[k := x], cost);
  }
}
