/** The stable sort behind every `sort` call of the source, and the fact all uses of it rest on: a
    sorted list is determined by its elements when the comparison separates them. */
module Sorting {
  import Lists

  type Comparison<!T> = (T, T) -> bool

  /** A comparison "no later than" that can sort any list. */
  ghost predicate Sorts<T(!new)>(le: Comparison<T>) {
    && (forall a, b :: le(a, b) || le(b, a))
    && (forall a, b, c :: le(a, b) && le(b, c) ==> le(a, c))
  }

  /** The comparison ties no two different elements of the list. */
  ghost predicate Separates<T(!new)>(le: Comparison<T>, s: seq<T>) {
    forall a, b :: a in s && b in s && le(a, b) && le(b, a) ==> a == b
  }

  ghost predicate Sorted<T>(le: Comparison<T>, s: seq<T>) {
    forall i, j :: 0 <= i < j < |s| ==> le(s[i], s[j])
  }

  function Insert<T>(le: Comparison<T>, x: T, s: seq<T>): seq<T> {
    if s == [] then [x]
    else if le(x, s[0]) then [x] + s
    else [s[0]] + Insert(le, x, s[1..])
  }

  /** Equal elements keep their order, as in the source's sort. */
  function Sort<T>(le: Comparison<T>, s: seq<T>): seq<T> {
    if s == [] then [] else Insert(le, s[0], Sort(le, s[1..]))
  }

  lemma {:induction false} InsertElements<T>(le: Comparison<T>, x: T, s: seq<T>)
    ensures multiset(Insert(le, x, s)) == multiset(s) + multiset{x}
  {
    if s != [] && !le(x, s[0]) {
      InsertElements(le, x, s[1..]);
      assert s == [s[0]] + s[1..];
    }
  }

  lemma {:induction false} SortElements<T>(le: Comparison<T>, s: seq<T>)
    ensures multiset(Sort(le, s)) == multiset(s)
    ensures |Sort(le, s)| == |s|
    ensures forall x :: x in Sort(le, s) <==> x in s
  {
    if s != [] {
      SortElements(le, s[1..]);
      InsertElements(le, s[0], Sort(le, s[1..]));
      assert s == [s[0]] + s[1..];
    }
    assert |multiset(Sort(le, s))| == |multiset(s)|;
    Lists.SameElements(Sort(le, s), s);
  }

  lemma SortLength<T>(le: Comparison<T>, s: seq<T>)
    ensures |Sort(le, s)| == |s|
  {
    SortElements(le, s);
  }

  lemma {:induction false} InsertSorted<T(!new)>(le: Comparison<T>, x: T, s: seq<T>)
    requires Sorts(le) && Sorted(le, s)
    ensures Sorted(le, Insert(le, x, s))
  {
    if s != [] && !le(x, s[0]) {
      InsertSorted(le, x, s[1..]);
      InsertElements(le, x, s[1..]);
      var r := Insert(le, x, s[1..]);
      forall j | 0 <= j < |r|
        ensures le(s[0], r[j])
      {
        assert r[j] in multiset(r);
        assert r[j] in multiset(s[1..]) || r[j] == x;
        assert r[j] == x || r[j] in s[1..];
      }
    }
  }

  lemma {:induction false} SortSorted<T(!new)>(le: Comparison<T>, s: seq<T>)
    requires Sorts(le)
    ensures Sorted(le, Sort(le, s))
  {
    if s != [] {
      SortSorted(le, s[1..]);
      InsertSorted(le, s[0], Sort(le, s[1..]));
    }
  }

  lemma WithoutFirst<T>(s: seq<T>)
    requires s != []
    ensures multiset(s[1..]) == multiset(s) - multiset{s[0]}
    ensures forall x :: x in s[1..] ==> x in s
  {
    assert s == [s[0]] + s[1..];
  }

  lemma SameFirst<T(!new)>(le: Comparison<T>, s: seq<T>, t: seq<T>)
    requires Sorted(le, s) && Sorted(le, t) && multiset(s) == multiset(t) && s != []
    requires Separates(le, s) && Sorts(le)
    ensures t != [] && s[0] == t[0]
    ensures multiset(s[1..]) == multiset(t[1..]) && Separates(le, s[1..])
  {
    Lists.SameElements(s, t);
    assert t[0] in t && s[0] in s;
    var i :| 0 <= i < |s| && s[i] == t[0];
    var j :| 0 <= j < |t| && t[j] == s[0];
    assert le(s[0], s[i]) && le(t[0], t[j]);
    WithoutFirst(s);
    WithoutFirst(t);
  }

  lemma {:induction false} SortedUnique<T(!new)>(le: Comparison<T>, s: seq<T>, t: seq<T>)
    requires Sorted(le, s) && Sorted(le, t) && multiset(s) == multiset(t)
    requires Separates(le, s) && Sorts(le)
    ensures s == t
  {
    if s == [] {
      Lists.SameElements(s, t);
    } else {
      SameFirst(le, s, t);
      SortedUnique(le, s[1..], t[1..]);
      assert s == [s[0]] + s[1..] && t == [t[0]] + t[1..];
    }
  }

  /** Two lists sort to the same list exactly when they hold the same elements. */
  lemma {:induction false} SortIffSameElements<T(!new)>(le: Comparison<T>, s: seq<T>, t: seq<T>)
    requires Sorts(le) && Separates(le, s)
    ensures Sort(le, s) == Sort(le, t) <==> multiset(s) == multiset(t)
  {
    SortElements(le, s);
    SortElements(le, t);
    SortSorted(le, s);
    SortSorted(le, t);
    if multiset(s) == multiset(t) {
      SortedUnique(le, Sort(le, s), Sort(le, t));
    }
  }

  lemma {:induction false} SortOfSorted<T(!new)>(le: Comparison<T>, s: seq<T>)
    requires Sorts(le) && Separates(le, s) && Sorted(le, s)
    ensures Sort(le, s) == s
  {
    SortElements(le, s);
    SortSorted(le, s);
    SortedUnique(le, s, Sort(le, s));
  }

  /** Sorting does not look at what a comparison does not look at. */
  lemma {:induction false} InsertMap<T(!new), U>(le: Comparison<T>, other: Comparison<U>, f: T -> U, x: T, s: seq<T>)
    requires forall a, b :: other(f(a), f(b)) == le(a, b)
    ensures Insert(other, f(x), Lists.Map(f, s)) == Lists.Map(f, Insert(le, x, s))
  {
    if s != [] && !le(x, s[0]) {
      InsertMap(le, other, f, x, s[1..]);
      assert Lists.Map(f, s)[1..] == Lists.Map(f, s[1..]);
    }
  }

  lemma {:induction false} SortMap<T(!new), U>(le: Comparison<T>, other: Comparison<U>, f: T -> U, s: seq<T>)
    requires forall a, b :: other(f(a), f(b)) == le(a, b)
    ensures Sort(other, Lists.Map(f, s)) == Lists.Map(f, Sort(le, s))
  {
    if s != [] {
      SortMap(le, other, f, s[1..]);
      assert Lists.Map(f, s)[1..] == Lists.Map(f, s[1..]);
      InsertMap(le, other, f, s[0], Sort(le, s[1..]));
    }
  }
}
