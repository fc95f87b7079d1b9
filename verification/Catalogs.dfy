/** Catalog unions. The source collects entries in a `Map` by identifier: a later entry replaces an
    earlier one in its place, and a new identifier goes to the end. */
module Catalogs {
  import opened Texts
  import opened Bundles

  function Put<D>(m: seq<Entry<D>>, e: Entry<D>): seq<Entry<D>> {
    if m == [] then [e]
    else if m[0].id == e.id then [e] + m[1..]
    else [m[0]] + Put(m[1..], e)
  }

  /** The map after setting every entry of a list. */
  function Absorb<D>(m: seq<Entry<D>>, entries: seq<Entry<D>>): seq<Entry<D>> {
    if entries == [] then m
    else Put(Absorb(m, entries[..|entries| - 1]), entries[|entries| - 1])
  }

  function Get<D>(m: seq<Entry<D>>, id: Text): Option<Entry<D>> {
    if m == [] then None
    else if m[0].id == id then Some(m[0])
    else Get(m[1..], id)
  }

  lemma {:induction false} GetFinds<D>(m: seq<Entry<D>>, id: Text)
    ensures
      match Get(m, id)
      case Some(e) => e in m && e.id == id && HasId(m, id)
      case None => !HasId(m, id)
  {
    if m != [] {
      GetFinds(m[1..], id);
      HasIdSplit(m, id);
    }
  }

  lemma HasIdSplit<D>(m: seq<Entry<D>>, id: Text)
    requires m != []
    ensures HasId(m, id) <==> m[0].id == id || HasId(m[1..], id)
  {
  }

  lemma HasIdMeans<D>(m: seq<Entry<D>>, e: Entry<D>)
    requires e in m
    ensures HasId(m, e.id)
  {
  }

  lemma HasIdLast<D>(m: seq<Entry<D>>, e: Entry<D>, id: Text)
    ensures HasId(m + [e], id) <==> HasId(m, id) || e.id == id
  {
    if HasId(m, id) {
      var i :| 0 <= i < |m| && m[i].id == id;
      assert (m + [e])[i].id == id;
    }
    if e.id == id {
      assert (m + [e])[|m|].id == id;
    }
    if HasId(m + [e], id) && e.id != id {
      var i :| 0 <= i < |m + [e]| && (m + [e])[i].id == id;
      assert m[i].id == id;
    }
  }

  /** Entries with one identifier agree on what a check looks at in their definitions. */
  ghost predicate Consistent<D(!new), V>(view: D -> V, entries: seq<Entry<D>>) {
    forall e, f :: e in entries && f in entries && e.id == f.id ==> view(e.definition) == view(f.definition)
  }

  function Whole<D>(): D -> D {
    (d: D) => d
  }

  lemma {:induction false} PutMeans<D>(m: seq<Entry<D>>, e: Entry<D>)
    ensures forall f :: f in Put(m, e) ==> f == e || f in m
    ensures e in Put(m, e)
  {
    if m != [] {
      assert m == [m[0]] + m[1..];
      PutMeans(m[1..], e);
    }
  }

  lemma {:induction false} PutIds<D>(m: seq<Entry<D>>, e: Entry<D>, id: Text)
    ensures HasId(Put(m, e), id) <==> HasId(m, id) || e.id == id
  {
    HasIdSplit(Put(m, e), id);
    if m != [] {
      HasIdSplit(m, id);
      PutIds(m[1..], e, id);
    }
  }

  lemma {:induction false} PutDistinct<D>(m: seq<Entry<D>>, e: Entry<D>)
    requires DistinctIds(m)
    ensures DistinctIds(Put(m, e))
  {
    if m != [] && m[0].id != e.id {
      var rest := Put(m[1..], e);
      PutDistinct(m[1..], e);
      PutMeans(m[1..], e);
      forall i | 0 <= i < |rest|
        ensures rest[i].id != m[0].id
      {
        assert rest[i] in rest;
        if rest[i] != e {
          var j :| 0 <= j < |m[1..]| && m[1..][j] == rest[i];
          assert m[j + 1] == rest[i];
        }
      }
    }
  }

  /** A union has each identifier of its sources once, with one of the entries given for it. */
  lemma {:induction false} AbsorbMeans<D>(m: seq<Entry<D>>, entries: seq<Entry<D>>)
    requires DistinctIds(m)
    ensures DistinctIds(Absorb(m, entries))
    ensures forall f :: f in Absorb(m, entries) ==> f in m || f in entries
  {
    if entries != [] {
      var front, e := entries[..|entries| - 1], entries[|entries| - 1];
      assert entries == front + [e];
      AbsorbMeans(m, front);
      PutDistinct(Absorb(m, front), e);
      PutMeans(Absorb(m, front), e);
    }
  }

  lemma {:induction false} AbsorbIds<D>(m: seq<Entry<D>>, entries: seq<Entry<D>>, id: Text)
    ensures HasId(Absorb(m, entries), id) <==> HasId(m, id) || HasId(entries, id)
  {
    if entries != [] {
      var front, e := entries[..|entries| - 1], entries[|entries| - 1];
      assert entries == front + [e];
      AbsorbIds(m, front, id);
      PutIds(Absorb(m, front), e, id);
      HasIdLast(front, e, id);
    }
  }

  lemma {:induction false} AbsorbAppend<D>(m: seq<Entry<D>>, a: seq<Entry<D>>, b: seq<Entry<D>>)
    ensures Absorb(m, a + b) == Absorb(Absorb(m, a), b)
  {
    if b == [] {
      assert a + b == a;
    } else {
      var c := a + b;
      assert c[..|c| - 1] == a + b[..|b| - 1] && c[|c| - 1] == b[|b| - 1];
      AbsorbAppend(m, a, b[..|b| - 1]);
    }
  }

  lemma {:induction false} PutBeyond<D>(m: seq<Entry<D>>, e: Entry<D>)
    requires forall f :: f in m ==> f.id != e.id
    ensures Put(m, e) == m + [e]
  {
    if m != [] {
      PutBeyond(m[1..], e);
    }
  }

  /** A list with distinct identifiers is its own union. */
  lemma {:induction false} AbsorbDistinct<D>(entries: seq<Entry<D>>)
    requires DistinctIds(entries)
    ensures Absorb([], entries) == entries
  {
    if entries != [] {
      var front, e := entries[..|entries| - 1], entries[|entries| - 1];
      AbsorbDistinct(front);
      PutBeyond(front, e);
    }
  }

  lemma {:induction false} PutPresent<D>(m: seq<Entry<D>>, i: nat)
    requires DistinctIds(m) && i < |m|
    ensures Put(m, m[i]) == m
  {
    if i > 0 {
      assert DistinctIds(m[1..]);
      PutPresent(m[1..], i - 1);
    }
  }

  /** Setting entries that are already there changes nothing. */
  lemma {:induction false} AbsorbPresent<D>(m: seq<Entry<D>>, entries: seq<Entry<D>>)
    requires DistinctIds(m) && forall e :: e in entries ==> e in m
    ensures Absorb(m, entries) == m
  {
    if entries != [] {
      var e := entries[|entries| - 1];
      AbsorbPresent(m, entries[..|entries| - 1]);
      assert e in m;
      var i :| 0 <= i < |m| && m[i] == e;
      PutPresent(m, i);
    }
  }

  /** The loops over a bundle's catalog: every entry is compared with the previous entry of its
      identifier before it replaces it. The ghost list is what the map already holds the union of. */
  method AbsorbChecked<D(!new), V(==)>(view: D -> V, m: seq<Entry<D>>, entries: seq<Entry<D>>,
                                       ghost before: seq<Entry<D>>)
    returns (r: Result<seq<Entry<D>>>)
    requires m == Absorb([], before) && Consistent(view, before)
    ensures r.Ok? <==> Consistent(view, before + entries)
    ensures r.Ok? ==> r.value == Absorb([], before + entries)
  {
    var current := m;
    assert before + entries[..0] == before;
    for i := 0 to |entries|
      invariant current == Absorb([], before + entries[..i]) && Consistent(view, before + entries[..i])
    {
      var e := entries[i];
      ghost var seen := before + entries[..i];
      SeenNext(before, entries, i);
      var previous := Get(current, e.id);
      ConsistentStep(view, seen, e);
      if previous.Some? && view(previous.value.definition) != view(e.definition) {
        InconsistentPart(view, seen + [e], before + entries);
        return Err(DefinitionChanged);
      }
      AbsorbLast([], seen, e);
      current := Put(current, e);
    }
    assert entries[..|entries|] == entries;
    return Ok(current);
  }

  lemma SeenNext<D>(before: seq<Entry<D>>, entries: seq<Entry<D>>, i: nat)
    requires i < |entries|
    ensures before + entries[..i + 1] == before + entries[..i] + [entries[i]]
    ensures before + entries[..i + 1] <= before + entries
  {
  }

  lemma InconsistentPart<D(!new), V>(view: D -> V, part: seq<Entry<D>>, entries: seq<Entry<D>>)
    requires !Consistent(view, part) && part <= entries
    ensures !Consistent(view, entries)
  {
    assert forall e :: e in part ==> e in entries;
  }

  lemma AbsorbLast<D>(m: seq<Entry<D>>, seen: seq<Entry<D>>, e: Entry<D>)
    ensures Absorb(m, seen + [e]) == Put(Absorb(m, seen), e)
  {
  }

  /** Comparing with the previous entry of the union is comparing with all earlier entries. */
  lemma ConsistentStep<D(!new), V>(view: D -> V, seen: seq<Entry<D>>, e: Entry<D>)
    requires Consistent(view, seen)
    ensures
      var previous := Get(Absorb([], seen), e.id);
      Consistent(view, seen + [e]) <==> (previous.Some? ==> view(previous.value.definition) == view(e.definition))
  {
    var union := Absorb([], seen);
    var previous := Get(union, e.id);
    AbsorbMeans([], seen);
    AbsorbIds([], seen, e.id);
    GetFinds(union, e.id);
    if previous.Some? && view(previous.value.definition) == view(e.definition) {
      forall f | f in seen && f.id == e.id
        ensures view(f.definition) == view(e.definition)
      {
        assert previous.value in seen;
      }
    } else if previous.None? {
      forall f | f in seen
        ensures f.id != e.id
      {
        HasIdMeans(seen, f);
      }
    } else {
      assert previous.value in seen + [e] && e in seen + [e];
    }
  }

  lemma {:induction false} GetPut<D>(m: seq<Entry<D>>, e: Entry<D>, id: Text)
    ensures Get(Put(m, e), id) == if e.id == id then Some(e) else Get(m, id)
  {
    if m != [] {
      GetPut(m[1..], e, id);
    }
  }

  /** Later entries go first. */
  lemma {:induction false} GetAbsorb<D>(m: seq<Entry<D>>, entries: seq<Entry<D>>, id: Text)
    ensures
      var own := Get(Absorb([], entries), id);
      Get(Absorb(m, entries), id) == if own.Some? then own else Get(m, id)
  {
    if entries != [] {
      var front, e := entries[..|entries| - 1], entries[|entries| - 1];
      GetAbsorb(m, front, id);
      GetPut(Absorb(m, front), e, id);
      GetPut(Absorb([], front), e, id);
    }
  }
}
