/** Lists of records identified by a key, up to reordering. The source keeps runs, publications, runners
    and measurements in lists whose order carries no meaning and looks them up by a key, so equality of
    two such lists is: the same record under every key, and no key twice. */
module Lists {

  function Map<T, U>(f: T -> U, s: seq<T>): (r: seq<U>)
    ensures |r| == |s| && forall i :: 0 <= i < |s| ==> r[i] == f(s[i])
  {
    seq(|s|, i requires 0 <= i < |s| => f(s[i]))
  }

  function Filter<T>(p: T -> bool, s: seq<T>): seq<T> {
    if s == [] then [] else (if p(s[0]) then [s[0]] else []) + Filter(p, s[1..])
  }

  /** No two positions hold records with the same key. */
  ghost predicate DistinctBy<T, K>(key: T -> K, s: seq<T>) {
    forall i, j :: 0 <= i < j < |s| ==> key(s[i]) != key(s[j])
  }

  ghost predicate OnceEach<T>(s: seq<T>) {
    forall x :: x in s ==> multiset(s)[x] == 1
  }

  ghost predicate KeyedApart<T, K>(key: T -> K, s: seq<T>) {
    forall x, y :: x in s && y in s && key(x) == key(y) ==> x == y
  }

  lemma {:induction false} DistinctHolds<T, K>(key: T -> K, s: seq<T>)
    requires DistinctBy(key, s)
    ensures OnceEach(s) && KeyedApart(key, s)
  {
    if s != [] {
      var x, rest := s[0], s[1..];
      DistinctHolds(key, rest);
      assert s == [x] + rest;
      assert multiset(s) == multiset{x} + multiset(rest);
      assert forall y :: y in rest ==> key(y) != key(x);
      assert x !in multiset(rest);
      forall y | y in s
        ensures multiset(s)[y] == 1
      {
        assert y == x || y in rest;
      }
    }
  }

  lemma {:induction false} DistinctFollows<T, K>(key: T -> K, s: seq<T>)
    requires OnceEach(s) && KeyedApart(key, s)
    ensures DistinctBy(key, s)
  {
    if s != [] {
      var x, rest := s[0], s[1..];
      assert s == [x] + rest;
      assert multiset(s) == multiset{x} + multiset(rest);
      assert x in s && x !in multiset(rest);
      forall y | y in rest
        ensures multiset(rest)[y] == 1
      {
        assert y in s && y != x;
      }
      assert forall y :: y in rest ==> y in s;
      DistinctFollows(key, rest);
      forall j | 0 <= j < |rest|
        ensures key(rest[j]) != key(x)
      {
        assert rest[j] in rest && rest[j] in multiset(rest);
      }
    }
  }

  /** Distinctness of keys says nothing about the order of the list. */
  lemma DistinctByMeans<T, K>(key: T -> K, s: seq<T>)
    ensures DistinctBy(key, s) <==> OnceEach(s) && KeyedApart(key, s)
  {
    if DistinctBy(key, s) {
      DistinctHolds(key, s);
    }
    if OnceEach(s) && KeyedApart(key, s) {
      DistinctFollows(key, s);
    }
  }

  lemma SameElements<T>(s: seq<T>, t: seq<T>)
    requires multiset(s) == multiset(t)
    ensures |s| == |t| && forall x :: x in s <==> x in t
  {
    assert |multiset(s)| == |s| && |multiset(t)| == |t|;
    assert forall x :: x in s <==> x in multiset(s);
    assert forall x :: x in t <==> x in multiset(t);
  }

  function MovedToFront<T>(s: seq<T>, i: nat): (t: seq<T>)
    requires i < |s|
    ensures t != [] && t[0] == s[i] && multiset(t) == multiset(s)
  {
    assert s == s[..i] + [s[i]] + s[i + 1..];
    [s[i]] + (s[..i] + s[i + 1..])
  }

  lemma DistinctByPermuted<T, K>(key: T -> K, s: seq<T>, t: seq<T>)
    requires DistinctBy(key, s) && multiset(s) == multiset(t)
    ensures DistinctBy(key, t)
  {
    SameElements(s, t);
    DistinctByMeans(key, s);
    DistinctByMeans(key, t);
  }

  /** Lists with distinct keys and the same elements are permutations of each other. */
  lemma SameSetPermuted<T, K>(key: T -> K, s: seq<T>, t: seq<T>)
    requires DistinctBy(key, s) && DistinctBy(key, t)
    requires forall x :: x in s <==> x in t
    ensures multiset(s) == multiset(t)
  {
    DistinctByMeans(key, s);
    DistinctByMeans(key, t);
    forall x
      ensures multiset(s)[x] == multiset(t)[x]
    {
      assert x in s <==> x in multiset(s);
      assert x in t <==> x in multiset(t);
    }
  }

  lemma FilterIn<T>(p: T -> bool, s: seq<T>, x: T)
    ensures x in Filter(p, s) <==> x in s && p(x)
  {
  }

  lemma {:induction false} FilterAppend<T>(p: T -> bool, s: seq<T>, x: T)
    ensures Filter(p, s + [x]) == Filter(p, s) + if p(x) then [x] else []
  {
    if s == [] {
      assert s + [x] == [x];
      assert Filter(p, [x][1..]) == [];
    } else {
      FilterAppend(p, s[1..], x);
      assert (s + [x])[1..] == s[1..] + [x];
    }
  }

  lemma {:induction false} FilterMultiset<T>(p: T -> bool, s: seq<T>, x: T)
    ensures multiset(Filter(p, s))[x] == if p(x) then multiset(s)[x] else 0
  {
    if s != [] {
      FilterMultiset(p, s[1..], x);
      assert s == [s[0]] + s[1..];
      assert multiset(s) == multiset{s[0]} + multiset(s[1..]);
      assert multiset(Filter(p, s)) == (if p(s[0]) then multiset{s[0]} else multiset{}) + multiset(Filter(p, s[1..]));
    }
  }

  // ---------------------------------------------------------------- lists gathered from records

  function FlatMap<T, U>(f: T -> seq<U>, s: seq<T>): seq<U> {
    if s == [] then [] else FlatMap(f, s[..|s| - 1]) + f(s[|s| - 1])
  }

  lemma FlatMapStep<T, U>(f: T -> seq<U>, s: seq<T>, i: nat)
    requires i < |s|
    ensures FlatMap(f, s[..i + 1]) == FlatMap(f, s[..i]) + f(s[i])
  {
    assert s[..i + 1][..i] == s[..i];
  }

  lemma {:induction false} FlatMapIn<T, U>(f: T -> seq<U>, s: seq<T>, x: U)
    ensures x in FlatMap(f, s) <==> exists i :: 0 <= i < |s| && x in f(s[i])
  {
    if s != [] {
      var front, last := s[..|s| - 1], s[|s| - 1];
      FlatMapIn(f, front, x);
      if x in FlatMap(f, front) {
        var i :| 0 <= i < |front| && x in f(front[i]);
        assert x in f(s[i]);
      }
      if i :| 0 <= i < |s| && x in f(s[i]) {
        assert i < |front| ==> x in f(front[i]);
      }
    }
  }

  lemma {:induction false} FlatMapWithout<T, U>(f: T -> seq<U>, s: seq<T>, i: nat)
    requires i < |s|
    ensures multiset(FlatMap(f, s)) == multiset(FlatMap(f, s[..i] + s[i + 1..])) + multiset(f(s[i]))
  {
    var front, last := s[..|s| - 1], s[|s| - 1];
    var rest := s[..i] + s[i + 1..];
    if i == |s| - 1 {
      assert rest == front;
    } else {
      FlatMapWithout(f, front, i);
      assert s[..i] == front[..i] && s[i + 1..] == front[i + 1..] + [last];
      assert rest == (front[..i] + front[i + 1..]) + [last];
      assert rest[..|rest| - 1] == front[..i] + front[i + 1..];
    }
  }

  lemma Removed<T>(s: seq<T>, i: nat)
    requires i < |s|
    ensures multiset(s[..i] + s[i + 1..]) == multiset(s) - multiset{s[i]}
  {
    assert s == s[..i] + [s[i]] + s[i + 1..];
    assert multiset(s) == multiset(s[..i] + s[i + 1..]) + multiset{s[i]};
  }

  /** Reordering the records reorders what is gathered from them. */
  lemma {:induction false} FlatMapPermuted<T, U>(f: T -> seq<U>, s: seq<T>, t: seq<T>)
    requires multiset(s) == multiset(t)
    ensures multiset(FlatMap(f, s)) == multiset(FlatMap(f, t))
  {
    SameElements(s, t);
    if s != [] {
      var front, last := s[..|s| - 1], s[|s| - 1];
      assert last in t;
      var i :| 0 <= i < |t| && t[i] == last;
      var rest := t[..i] + t[i + 1..];
      Removed(s, |s| - 1);
      Removed(t, i);
      assert s[..|s| - 1] + s[|s|..] == front;
      FlatMapPermuted(f, front, rest);
      FlatMapWithout(f, t, i);
    }
  }

  lemma {:induction false} FlatMapDistinct<T, U, K>(f: T -> seq<U>, key: U -> K, s: seq<T>, i: nat)
    requires i < |s| && DistinctBy(key, FlatMap(f, s))
    ensures DistinctBy(key, f(s[i]))
  {
    var front, last := FlatMap(f, s[..|s| - 1]), f(s[|s| - 1]);
    var all := FlatMap(f, s);
    assert forall k :: 0 <= k < |front| ==> all[k] == front[k];
    assert forall k :: 0 <= k < |last| ==> all[|front| + k] == last[k];
    if i < |s| - 1 {
      FlatMapDistinct(f, key, s[..|s| - 1], i);
    } else {
      forall j, k | 0 <= j < k < |last|
        ensures key(last[j]) != key(last[k])
      {
        assert key(all[|front| + j]) != key(all[|front| + k]);
      }
    }
  }

  /** Lists with distinct keys, gathered from records that share no key. */
  lemma {:induction false} FlatMapKeyed<T, U, K>(f: T -> seq<U>, key: U -> K, s: seq<T>)
    requires forall i :: 0 <= i < |s| ==> DistinctBy(key, f(s[i]))
    requires forall i, j, x, y :: 0 <= i < j < |s| && x in f(s[i]) && y in f(s[j]) ==> key(x) != key(y)
    ensures DistinctBy(key, FlatMap(f, s))
  {
    if s != [] {
      var front, last := s[..|s| - 1], s[|s| - 1];
      FlatMapKeyed(f, key, front);
      var before := FlatMap(f, front);
      forall j, k | 0 <= j < |before| && 0 <= k < |f(last)|
        ensures key(before[j]) != key(f(last)[k])
      {
        FlatMapIn(f, front, before[j]);
        var i :| 0 <= i < |front| && before[j] in f(front[i]);
        assert before[j] in f(s[i]) && f(last)[k] in f(s[|s| - 1]);
      }
      DistinctJoin(key, before, f(last));
    }
  }

  lemma DistinctJoin<T, K>(key: T -> K, a: seq<T>, b: seq<T>)
    requires DistinctBy(key, a) && DistinctBy(key, b)
    requires forall j, k :: 0 <= j < |a| && 0 <= k < |b| ==> key(a[j]) != key(b[k])
    ensures DistinctBy(key, a + b)
  {
  }

  // ---------------------------------------------------------------- maps filled from lists

  function KeyedMap<T, K, V>(key: T -> K, value: T -> V, s: seq<T>): map<K, V> {
    if s == [] then map[]
    else KeyedMap(key, value, s[..|s| - 1])[key(s[|s| - 1]) := value(s[|s| - 1])]
  }

  lemma {:induction false} KeyedMapHas<T, K, V>(key: T -> K, value: T -> V, s: seq<T>, k: K)
    ensures k in KeyedMap(key, value, s) <==> exists i :: 0 <= i < |s| && key(s[i]) == k
  {
    if s != [] {
      var front, last := s[..|s| - 1], s[|s| - 1];
      KeyedMapHas(key, value, front, k);
      assert forall i :: 0 <= i < |front| ==> front[i] == s[i];
    }
  }

  /** With distinct keys nothing is overwritten. */
  lemma {:induction false} KeyedMapValues<T, K, V>(key: T -> K, value: T -> V, s: seq<T>)
    requires DistinctBy(key, s)
    ensures forall i :: 0 <= i < |s| ==>
      key(s[i]) in KeyedMap(key, value, s) && KeyedMap(key, value, s)[key(s[i])] == value(s[i])
  {
    if s != [] {
      var front, last := s[..|s| - 1], s[|s| - 1];
      KeyedMapValues(key, value, front);
      assert forall i :: 0 <= i < |front| ==> front[i] == s[i];
    }
  }

  lemma KeyedMapStep<T, K, V>(key: T -> K, value: T -> V, s: seq<T>, i: nat)
    requires i < |s|
    ensures KeyedMap(key, value, s[..i + 1]) == KeyedMap(key, value, s[..i])[key(s[i]) := value(s[i])]
  {
    assert s[..i + 1][..i] == s[..i];
  }

  lemma DistinctPrefix<T, K>(key: T -> K, s: seq<T>, i: nat)
    requires i <= |s|
    ensures DistinctBy(key, s) ==> DistinctBy(key, s[..i])
  {
  }

  /** Whether a key is new is whether the map holds it. */
  lemma NewKey<T, K, V>(key: T -> K, value: T -> V, s: seq<T>, i: nat)
    requires i < |s| && DistinctBy(key, s[..i])
    ensures DistinctBy(key, s[..i + 1]) <==> key(s[i]) !in KeyedMap(key, value, s[..i])
  {
    var front, longer := s[..i], s[..i + 1];
    KeyedMapHas(key, value, front, key(s[i]));
    if j :| 0 <= j < |front| && key(front[j]) == key(s[i]) {
      assert longer[j] == front[j] && longer[i] == s[i];
      assert !DistinctBy(key, longer);
    } else {
      forall a, b | 0 <= a < b < |longer|
        ensures key(longer[a]) != key(longer[b])
      {
        assert longer[a] == front[a];
        assert b < i ==> longer[b] == front[b];
      }
    }
  }
}
