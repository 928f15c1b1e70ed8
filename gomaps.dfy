/**
 * Go maps as the program sees them. A map decoded from a JSON object is a
 * sequence of key/value entries with distinct keys, listed in the order in
 * which `range` visits them; Go leaves that order unspecified, so every
 * property stated over such a sequence holds for whichever order Go picks.
 */
module GoMaps {

  datatype Keyed<V> = Keyed(key: string, value: V)

  predicate DistinctKeys<V>(es: seq<Keyed<V>>)
  {
    forall i, j :: 0 <= i < j < |es| ==> es[i].key != es[j].key
  }

  /** A Go map, in its iteration order. */
  type GoMap<V> = es: seq<Keyed<V>> | DistinctKeys(es) witness []

  function KeysOf<V>(es: seq<Keyed<V>>): (ks: seq<string>)
    ensures |ks| == |es|
    ensures forall i :: 0 <= i < |es| ==> ks[i] == es[i].key
  {
    if es == [] then [] else KeysOf(es[..|es| - 1]) + [es[|es| - 1].key]
  }

  predicate Distinct<T(==)>(s: seq<T>)
  {
    forall i, j :: 0 <= i < j < |s| ==> s[i] != s[j]
  }

  /** `order` lists every key of the map exactly once. */
  predicate IsIterationOrder(order: seq<string>, keys: set<string>)
  {
    && Distinct(order)
    && (forall k :: k in order ==> k in keys)
    && (forall k :: k in keys ==> k in order)
  }

  /**
   * The order in which `for k, v := range m` visits a map the program built
   * itself: any order that lists each key once.
   */
  method IterationOrder<V>(m: map<string, V>) returns (order: seq<string>)
    ensures IsIterationOrder(order, m.Keys)
  {
    var rest := m.Keys;
    order := [];
    while rest != {}
      invariant rest <= m.Keys
      invariant Distinct(order)
      invariant forall k :: k in order <==> k in m.Keys && k !in rest
      decreases rest
    {
      var k :| k in rest;
      order := order + [k];
      rest := rest - {k};
    }
  }

  lemma {:induction false} DistinctCount<T>(s: seq<T>)
    requires Distinct(s)
    ensures forall x :: multiset(s)[x] == if x in s then 1 else 0
  {
    if s != [] {
      var n := |s| - 1;
      assert s == s[..n] + [s[n]];
      DistinctCount(s[..n]);
      assert s[n] !in s[..n];
    }
  }

  /** Two repetition-free sequences of the same elements are permutations of each other. */
  lemma SameKeysPermutation<T>(s: seq<T>, t: seq<T>)
    requires Distinct(s) && Distinct(t)
    requires forall x :: x in s <==> x in t
    ensures multiset(s) == multiset(t)
  {
    DistinctCount(s);
    DistinctCount(t);
    assert forall x :: multiset(s)[x] == multiset(t)[x];
  }

  lemma {:induction false} DistinctCardinality(s: seq<string>)
    requires Distinct(s)
    ensures |set x | x in s| == |s|
  {
    if s != [] {
      var n := |s| - 1;
      assert s == s[..n] + [s[n]];
      DistinctCardinality(s[..n]);
      assert (set x | x in s) == (set x | x in s[..n]) + {s[n]};
      assert s[n] !in (set x | x in s[..n]);
    }
  }

  /** An iteration order visits as many keys as the map has. */
  lemma IterationOrderLength(order: seq<string>, keys: set<string>)
    requires IsIterationOrder(order, keys)
    ensures |order| == |keys|
  {
    DistinctCardinality(order);
    assert (set x | x in order) == keys;
  }

  /** A Go map lists each of its keys once. */
  lemma KeysOfDistinct<V>(es: seq<Keyed<V>>)
    requires DistinctKeys(es)
    ensures Distinct(KeysOf(es))
  {
  }
}
