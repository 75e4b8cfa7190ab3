/**
 * The fan-out shared by get_data_p2p, get_data and get_market_data:
 * one task per element of itertools.product(xs, ys), and a loop that
 * stores each task's result in a dict as the tasks complete.
 * Completion order is a parameter: any permutation of the task indices.
 */
module Fanout {
  import opened Types

  /** itertools.product(xs, ys): xs is the outer loop. */
  function Product<X(==,!new), Y(==,!new)>(xs: seq<X>, ys: seq<Y>): (r: seq<(X, Y)>)
    ensures forall p :: p in r <==> p.0 in xs && p.1 in ys
  {
    if xs == [] then [] else Pairs(xs[0], ys) + Product(xs[1..], ys)
  }

  /** The row of the product that starts with x. */
  function Pairs<X, Y>(x: X, ys: seq<Y>): (r: seq<(X, Y)>)
    ensures |r| == |ys|
    ensures forall j :: 0 <= j < |ys| ==> r[j] == (x, ys[j])
  {
    if ys == [] then [] else [(x, ys[0])] + Pairs(x, ys[1..])
  }

  /** The product has |xs| * |ys| entries. */
  lemma {:induction false} ProductLength<X(!new), Y(!new)>(xs: seq<X>, ys: seq<Y>)
    ensures |Product(xs, ys)| == |xs| * |ys|
  {
    if xs != [] {
      ProductLength(xs[1..], ys);
      MulStep(|xs|, |ys|);
    }
  }

  /**
   * Where each pair sits: xs is the outer loop, so (xs[i], ys[j]) is entry
   * i * |ys| + j of the product.
   */
  lemma {:induction false} ProductIndex<X(!new), Y(!new)>(xs: seq<X>, ys: seq<Y>, i: nat, j: nat, p: nat)
    requires i < |xs| && j < |ys| && p == i * |ys| + j
    ensures p < |Product(xs, ys)| && Product(xs, ys)[p] == (xs[i], ys[j])
  {
    var row, rest := Pairs(xs[0], ys), Product(xs[1..], ys);
    assert Product(xs, ys) == row + rest;
    if i == 0 {
      assert p == j;
    } else {
      var q := OffsetStep(i, |ys|, j, p);
      ProductIndex(xs[1..], ys, i - 1, j, q);
      assert (row + rest)[p] == rest[q];
    }
  }

  /** Position i * n + j is n entries past position (i - 1) * n + j. */
  lemma OffsetStep(i: nat, n: nat, j: nat, p: nat) returns (q: nat)
    requires i > 0 && p == i * n + j
    ensures p == q + n && q == (i - 1) * n + j
  {
    MulStep(i, n);
    q := p - n;
  }

  lemma MulStep(i: nat, n: nat)
    requires i > 0
    ensures i * n == (i - 1) * n + n
  {
  }

  predicate Distinct<T(==)>(s: seq<T>)
  {
    forall i, j :: 0 <= i < j < |s| ==> s[i] != s[j]
  }

  function Elements<T(==)>(s: seq<T>): set<T>
  {
    set x | x in s
  }

  /** A sequence without repeats has as many elements as its length. */
  lemma {:induction false} DistinctCard<T>(s: seq<T>)
    requires Distinct(s)
    ensures |Elements(s)| == |s|
  {
    if s != [] {
      DistinctCard(s[1..]);
      assert Elements(s) == {s[0]} + Elements(s[1..]);
      assert s[0] !in Elements(s[1..]);
    }
  }

  /** The product of two repeat-free sequences is repeat-free. */
  lemma {:induction false} ProductDistinct<X(!new), Y(!new)>(xs: seq<X>, ys: seq<Y>)
    requires Distinct(xs) && Distinct(ys)
    ensures Distinct(Product(xs, ys))
  {
    if xs != [] {
      ProductDistinct(xs[1..], ys);
      var row, rest := Pairs(xs[0], ys), Product(xs[1..], ys);
      assert Product(xs, ys) == row + rest;
      forall i, j | 0 <= i < j < |row + rest|
        ensures (row + rest)[i] != (row + rest)[j]
      {
        if j < |row| {
        } else if i < |row| {
          var q: (X, Y) := (row + rest)[j];
          assert q in rest;
          assert q.0 in xs[1..];
        }
      }
    }
  }

  /** For repeat-free inputs, the product has exactly |xs| * |ys| distinct pairs. */
  lemma ProductCard<X(!new), Y(!new)>(xs: seq<X>, ys: seq<Y>)
    requires Distinct(xs) && Distinct(ys)
    ensures |Elements(Product(xs, ys))| == |xs| * |ys|
  {
    ProductDistinct(xs, ys);
    DistinctCard(Product(xs, ys));
    ProductLength(xs, ys);
  }

  /** 0, 1, ..., n - 1: the task indices. */
  function Indices(n: nat): (r: seq<nat>)
    ensures |r| == n
    ensures forall i :: 0 <= i < n ==> r[i] == i
  {
    if n == 0 then [] else Indices(n - 1) + [n - 1]
  }

  /** `order` lists every task index exactly once: an as_completed order. */
  predicate IsPermutation(order: seq<nat>, n: nat)
  {
    multiset(order) == multiset(Indices(n))
  }

  lemma PermutationFacts(order: seq<nat>, n: nat)
    requires IsPermutation(order, n)
    ensures |order| == n
    ensures forall j :: 0 <= j < |order| ==> order[j] < n
    ensures forall k :: 0 <= k < n ==> k in order
  {
    assert |order| == |multiset(order)| == |multiset(Indices(n))| == n;
    forall j | 0 <= j < |order| ensures order[j] < n {
      assert order[j] in multiset(order);
      assert order[j] in Indices(n);
    }
    forall k | 0 <= k < n ensures k in order {
      assert Indices(n)[k] == k;
      assert k in multiset(Indices(n));
      assert k in multiset(order);
    }
  }

  /** Every key's task succeeds. */
  predicate AllSucceed<K(==,!new), V>(keys: seq<K>, fetch: K -> Result<V>)
  {
    forall k :: k in keys ==> fetch(k).Ok?
  }

  /** The dict the completion loop builds when no task fails: each key to its task's value. */
  function Assembled<K(==,!new), V>(keys: seq<K>, fetch: K -> Result<V>): (m: map<K, V>)
    requires AllSucceed(keys, fetch)
    ensures forall k :: k in m <==> k in keys
    ensures forall k :: k in m ==> fetch(k) == Ok(m[k])
  {
    map k | k in keys :: fetch(k).value
  }

  /**
   * Error e is raised by the task that completes at position j of
   * `completion`, and every task completing before it succeeded.
   */
  predicate FirstFailure<K, V>(keys: seq<K>, fetch: K -> Result<V>, completion: seq<nat>, e: Error)
  {
    exists j :: 0 <= j < |completion| && (forall j' :: 0 <= j' <= j ==> completion[j'] < |keys|)
      && fetch(keys[completion[j]]) == Err(e)
      && (forall j' :: 0 <= j' < j ==> fetch(keys[completion[j']]).Ok?)
  }

  /** The first failure names a submitted key whose task raised the error. */
  lemma FirstFailureKey<K, V>(keys: seq<K>, fetch: K -> Result<V>, completion: seq<nat>, e: Error)
    requires FirstFailure(keys, fetch, completion, e)
    ensures exists k :: k in keys && fetch(k) == Err(e)
  {
    var j :| 0 <= j < |completion| && (forall j' :: 0 <= j' <= j ==> completion[j'] < |keys|)
      && fetch(keys[completion[j]]) == Err(e);
    assert keys[completion[j]] in keys;
  }

  /** Two task functions that agree on every key have the same first failure. */
  lemma FirstFailureSame<K, V>(keys: seq<K>, f: K -> Result<V>, g: K -> Result<V>, completion: seq<nat>, e: Error)
    requires forall k :: k in keys ==> f(k) == g(k)
    requires FirstFailure(keys, f, completion, e)
    ensures FirstFailure(keys, g, completion, e)
  {
    var j :| 0 <= j < |completion| && (forall j' :: 0 <= j' <= j ==> completion[j'] < |keys|)
      && f(keys[completion[j]]) == Err(e) && (forall j' :: 0 <= j' < j ==> f(keys[completion[j']]).Ok?);
    assert keys[completion[j]] in keys;
    forall j' | 0 <= j' < j ensures g(keys[completion[j']]).Ok? {
      assert keys[completion[j']] in keys;
    }
  }

  /**
   * The loop over completed futures, each result stored under its task's
   * key. The results are visited in the order `completion` gives; the
   * first failure met is raised and the partial dict is dropped.
   */
  method CollectCompleted<K(==,!new), V>(keys: seq<K>, fetch: K -> Result<V>, completion: seq<nat>)
    returns (r: Result<map<K, V>>)
    requires IsPermutation(completion, |keys|)
    ensures r.Ok? <==> AllSucceed(keys, fetch)
    ensures r.Ok? ==> r.value == Assembled(keys, fetch)
    ensures r.Err? ==> FirstFailure(keys, fetch, completion, r.error)
  {
    PermutationFacts(completion, |keys|);
    var results: map<K, V> := map[];
    var i := 0;
    while i < |completion|
      invariant 0 <= i <= |completion|
      invariant forall j :: 0 <= j < i ==> fetch(keys[completion[j]]).Ok?
      invariant forall j :: 0 <= j < i ==> keys[completion[j]] in results
      invariant forall k :: k in results ==> k in keys && fetch(k) == Ok(results[k])
    {
      var key := keys[completion[i]];
      var outcome := fetch(key);
      if outcome.Err? {
        r := Err(outcome.error);
        assert !AllSucceed(keys, fetch) by {
          assert key in keys;
        }
        return;
      }
      results := results[key := outcome.value];
      i := i + 1;
    }
    forall k | k in keys ensures k in results && fetch(k).Ok? {
      var idx :| 0 <= idx < |keys| && keys[idx] == k;
      assert idx in completion;
      var j :| 0 <= j < |completion| && completion[j] == idx;
    }
    assert results == Assembled(keys, fetch);
    r := Ok(results);
  }
}
