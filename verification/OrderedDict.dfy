/** Python's insertion-ordered dictionary, as far as the bot uses it: assigning to a present
    key keeps its place, a new key goes last, and iteration follows that order. */
module OrderedDict {

  predicate Distinct<T(==)>(s: seq<T>) {
    forall i, j :: 0 <= i < j < |s| ==> s[i] != s[j]
  }

  /** The elements of `s` outside `dead`, in order. */
  function Without<T(==,!new)>(s: seq<T>, dead: set<T>): (r: seq<T>)
    ensures forall x :: x in r <==> x in s && x !in dead
    ensures Distinct(s) ==> Distinct(r)
    ensures |r| <= |s|
  {
    if s == [] then []
    else if s[0] in dead then Without(s[1..], dead)
    else [s[0]] + Without(s[1..], dead)
  }

  lemma {:induction false} WithoutNothing<T(!new)>(s: seq<T>, dead: set<T>)
    requires forall x :: x in s ==> x !in dead
    ensures Without(s, dead) == s
  {
    if s != [] {
      WithoutNothing(s[1..], dead);
    }
  }

  lemma {:induction false} WithoutTwice<T(!new)>(s: seq<T>, a: set<T>, b: set<T>)
    ensures Without(Without(s, a), b) == Without(s, a + b)
  {
    if s != [] {
      WithoutTwice(s[1..], a, b);
      if s[0] !in a {
        assert Without(s, a)[1..] == Without(s[1..], a);
      }
    }
  }

  lemma {:induction false} WithoutSize<T(!new)>(s: seq<T>, dead: set<T>)
    requires Distinct(s)
    requires forall x :: x in dead ==> x in s
    ensures |Without(s, dead)| == |s| - |dead|
  {
    if s == [] {
      assert dead == {};
    } else if s[0] in dead {
      assert forall x :: x in dead - {s[0]} ==> x in s[1..];
      WithoutSize(s[1..], dead - {s[0]});
      WithoutIrrelevant(s[1..], dead, s[0]);
    } else {
      WithoutSize(s[1..], dead);
    }
  }

  lemma {:induction false} WithoutIrrelevant<T(!new)>(s: seq<T>, dead: set<T>, x: T)
    requires x !in s
    ensures Without(s, dead - {x}) == Without(s, dead)
  {
    if s != [] {
      WithoutIrrelevant(s[1..], dead, x);
    }
  }

  datatype Dict<K(==,!new), V> = Dict(keys: seq<K>, vals: map<K, V>) {

    ghost predicate Valid() {
      Distinct(keys) && forall k :: k in keys <==> k in vals
    }

    function Put(k: K, v: V): (d: Dict<K, V>)
      ensures Valid() ==> d.Valid()
      ensures d.vals == vals[k := v]
    {
      Dict(if k in vals then keys else keys + [k], vals[k := v])
    }

    function Minus(dead: set<K>): (d: Dict<K, V>)
      ensures Valid() ==> d.Valid()
      ensures forall k :: k in d.keys <==> k in keys && k !in dead
    {
      Dict(Without(keys, dead), vals - dead)
    }

    function Pop(k: K): Dict<K, V> {
      Minus({k})
    }

    lemma MinusNothing()
      requires Valid()
      ensures Minus({}) == this
    {
      WithoutNothing(keys, {});
      assert vals - {} == vals;
    }

    lemma MinusTwice(a: set<K>, b: set<K>)
      ensures Minus(a).Minus(b) == Minus(a + b)
    {
      WithoutTwice(keys, a, b);
      assert vals - a - b == vals - (a + b);
    }

    lemma PopSize(k: K)
      requires Valid()
      ensures |Pop(k).keys| == |keys| - (if k in vals then 1 else 0)
      ensures k !in vals ==> Pop(k) == this
    {
      if k in vals {
        WithoutSize(keys, {k});
      } else {
        WithoutNothing(keys, {k});
      }
    }
  }

  function Empty<K(==,!new), V>(): (d: Dict<K, V>)
    ensures d.Valid()
  {
    Dict([], map[])
  }
}
