/** What the site serves: every bundle with the union of the catalogs of its history. The dashboard sees
    the same histories, the same catalogs and the same measurements as in the store. */
module Serving {
  import opened Texts
  import opened Bundles
  import opened Catalogs
  import opened Histories
  import opened Grouping
  import Lists
  import Sorting

  /** The lists of a validated history. Everything else in a catalog is dropped. */
  function CatalogOf(g: seq<Bundle>): Catalog {
    Catalog(Union(RuntimesOf, g), Union(PlatformsOf, g), Union(MetricsOf, g), EMPTY)
  }

  function GroupIn(leq: Order, bundles: seq<Bundle>, b: Bundle): seq<Bundle> {
    GroupOf(Sorting.Sort(RunOrder(leq), bundles), DefinitionOf(b))
  }

  function Rewriting(leq: Order, bundles: seq<Bundle>): Bundle -> Bundle {
    (b: Bundle) => b.(catalog := CatalogOf(GroupIn(leq, bundles, b)))
  }

  function Served(leq: Order, bundles: seq<Bundle>): seq<Bundle> {
    Lists.Map(Rewriting(leq, bundles), bundles)
  }

  // ---------------------------------------------------------------- changing catalogs keeps the groups

  ghost predicate ChangesCatalogs(f: Bundle -> Bundle) {
    forall b :: f(b) == b.(catalog := f(b).catalog)
  }

  function OnGroups(f: Bundle -> Bundle): seq<Bundle> -> seq<Bundle> {
    (g: seq<Bundle>) => Lists.Map(f, g)
  }

  lemma {:induction false} DefinitionsMap(f: Bundle -> Bundle, bundles: seq<Bundle>)
    requires ChangesCatalogs(f)
    ensures Definitions(Lists.Map(f, bundles)) == Definitions(bundles)
  {
    if bundles != [] {
      DefinitionsMap(f, bundles[..|bundles| - 1]);
      assert Lists.Map(f, bundles)[..|bundles| - 1] == Lists.Map(f, bundles[..|bundles| - 1]);
    }
  }

  lemma {:induction false} GroupOfMap(f: Bundle -> Bundle, bundles: seq<Bundle>, d: Definition)
    requires ChangesCatalogs(f)
    ensures GroupOf(Lists.Map(f, bundles), d) == Lists.Map(f, GroupOf(bundles, d))
  {
    if bundles != [] {
      GroupOfMap(f, bundles[1..], d);
      assert Lists.Map(f, bundles)[1..] == Lists.Map(f, bundles[1..]);
      var rest := GroupOf(bundles[1..], d);
      assert Lists.Map(f, [bundles[0]] + rest) == [f(bundles[0])] + Lists.Map(f, rest);
      assert [bundles[0]] + rest == if DefinitionOf(bundles[0]) == d then GroupOf(bundles, d) else [bundles[0]] + rest;
    }
  }

  lemma GroupsMap(f: Bundle -> Bundle, bundles: seq<Bundle>)
    requires ChangesCatalogs(f)
    ensures Groups(Lists.Map(f, bundles)) == Lists.Map(OnGroups(f), Groups(bundles))
  {
    DefinitionsMap(f, bundles);
    forall i | 0 <= i < |Definitions(bundles)|
      ensures Groups(Lists.Map(f, bundles))[i] == Lists.Map(OnGroups(f), Groups(bundles))[i]
    {
      GroupOfMap(f, bundles, Definitions(bundles)[i]);
    }
  }

  lemma SortRunsMap(leq: Order, f: Bundle -> Bundle, bundles: seq<Bundle>)
    requires ChangesCatalogs(f)
    ensures Sorting.Sort(RunOrder(leq), Lists.Map(f, bundles)) == Lists.Map(f, Sorting.Sort(RunOrder(leq), bundles))
  {
    Sorting.SortMap(RunOrder(leq), RunOrder(leq), f, bundles);
  }

  lemma LastNoEarlierMap(leq: Order, f: Bundle -> Bundle, g: seq<Bundle>, h: seq<Bundle>)
    requires ChangesCatalogs(f)
    ensures LastNoEarlier(leq, Lists.Map(f, g), Lists.Map(f, h)) == LastNoEarlier(leq, g, h)
  {
  }

  lemma NewestFirstMap(leq: Order, f: Bundle -> Bundle)
    requires ChangesCatalogs(f)
    ensures forall g, h :: NewestFirst(leq)(OnGroups(f)(g), OnGroups(f)(h)) == NewestFirst(leq)(g, h)
  {
    forall g, h
      ensures NewestFirst(leq)(OnGroups(f)(g), OnGroups(f)(h)) == NewestFirst(leq)(g, h)
    {
      LastNoEarlierMap(leq, f, g, h);
    }
  }

  lemma SortGroupsMap(leq: Order, f: Bundle -> Bundle, groups: seq<seq<Bundle>>)
    requires ChangesCatalogs(f)
    ensures Sorting.Sort(NewestFirst(leq), Lists.Map(OnGroups(f), groups)) ==
      Lists.Map(OnGroups(f), Sorting.Sort(NewestFirst(leq), groups))
  {
    NewestFirstMap(leq, f);
    Sorting.SortMap(NewestFirst(leq), NewestFirst(leq), OnGroups(f), groups);
  }

  lemma HistoriesMap(leq: Order, f: Bundle -> Bundle, bundles: seq<Bundle>)
    requires ChangesCatalogs(f)
    ensures HistoriesOf(leq, Lists.Map(f, bundles)) == Lists.Map(OnGroups(f), HistoriesOf(leq, bundles))
  {
    var ordered := Sorting.Sort(RunOrder(leq), bundles);
    SortRunsMap(leq, f, bundles);
    GroupsMap(f, ordered);
    SortGroupsMap(leq, f, Groups(ordered));
  }

  // ---------------------------------------------------------------- unions

  /** The union of equal lists is that list. */
  lemma {:induction false} ConstantUnion<D>(get: Bundle -> seq<Entry<D>>, bundles: seq<Bundle>, union: seq<Entry<D>>)
    requires DistinctIds(union) && bundles != []
    requires forall b :: b in bundles ==> get(b) == union
    ensures Union(get, bundles) == union
  {
    var front, last := bundles[..|bundles| - 1], bundles[|bundles| - 1];
    assert last in bundles;
    AbsorbDistinct(union);
    assert Gather(get, bundles) == Gather(get, front) + union;
    if front == [] {
      assert Gather(get, front) + union == union;
    } else {
      assert forall b :: b in front ==> b in bundles;
      ConstantUnion(get, front, union);
      AbsorbAppend([], Gather(get, front), union);
      AbsorbPresent(union, union);
    }
  }

  lemma UnionDistinct<D>(get: Bundle -> seq<Entry<D>>, bundles: seq<Bundle>)
    ensures DistinctIds(Union(get, bundles))
  {
    AbsorbMeans([], Gather(get, bundles));
  }

  /** A bundle's identifiers are in the union, and all entries of the union come from some bundle. */
  lemma UnionMeans<D(!new)>(get: Bundle -> seq<Entry<D>>, bundles: seq<Bundle>, b: Bundle)
    requires b in bundles
    ensures forall id :: HasId(get(b), id) ==> HasId(Union(get, bundles), id)
    ensures forall e :: e in Union(get, bundles) ==> exists c :: c in bundles && e in get(c)
  {
    AbsorbMeans([], Gather(get, bundles));
    forall id | HasId(get(b), id)
      ensures HasId(Union(get, bundles), id)
    {
      var i :| 0 <= i < |get(b)| && get(b)[i].id == id;
      GatherIn(get, bundles, get(b)[i]);
      HasIdMeans(Gather(get, bundles), get(b)[i]);
      AbsorbIds([], Gather(get, bundles), id);
    }
    forall e | e in Union(get, bundles)
      ensures exists c :: c in bundles && e in get(c)
    {
      GatherIn(get, bundles, e);
    }
  }

  // ---------------------------------------------------------------- the rewriting

  lemma MemberGroup(leq: Order, bundles: seq<Bundle>, g: seq<Bundle>, b: Bundle)
    requires TotalOrder(leq) && g in HistoriesOf(leq, bundles) && b in g
    ensures GroupIn(leq, bundles, b) == g
  {
    HistoriesMembers(leq, bundles);
    var ordered := Sorting.Sort(RunOrder(leq), bundles);
    var c :| c in bundles && g == GroupOf(ordered, DefinitionOf(c));
    Lists.FilterIn(HasDefinition(DefinitionOf(c)), ordered, b);
  }

  lemma OwnGroup(leq: Order, bundles: seq<Bundle>, b: Bundle)
    requires TotalOrder(leq) && b in bundles
    ensures b in GroupIn(leq, bundles, b) && GroupIn(leq, bundles, b) in HistoriesOf(leq, bundles)
    ensures forall c :: c in GroupIn(leq, bundles, b) ==> c in bundles
  {
    HistoriesMembers(leq, bundles);
    Lists.FilterIn(HasDefinition(DefinitionOf(b)), Sorting.Sort(RunOrder(leq), bundles), b);
  }

  /** All members of a rewritten history carry its catalog. */
  lemma RewrittenGroup(leq: Order, bundles: seq<Bundle>, g: seq<Bundle>)
    requires TotalOrder(leq) && g in HistoriesOf(leq, bundles)
    ensures Lists.Map(Rewriting(leq, bundles), g) != []
    ensures forall b :: b in Lists.Map(Rewriting(leq, bundles), g) ==> b.catalog == CatalogOf(g)
    ensures CatalogOf(Lists.Map(Rewriting(leq, bundles), g)) == CatalogOf(g)
  {
    var rewritten := Lists.Map(Rewriting(leq, bundles), g);
    HistoriesMembers(leq, bundles);
    forall b | b in rewritten
      ensures b.catalog == CatalogOf(g)
    {
      var i :| 0 <= i < |rewritten| && rewritten[i] == b;
      assert g[i] in g;
      MemberGroup(leq, bundles, g, g[i]);
    }
    UnionDistinct(RuntimesOf, g);
    UnionDistinct(PlatformsOf, g);
    UnionDistinct(MetricsOf, g);
    ConstantUnion(RuntimesOf, rewritten, Union(RuntimesOf, g));
    ConstantUnion(PlatformsOf, rewritten, Union(PlatformsOf, g));
    ConstantUnion(MetricsOf, rewritten, Union(MetricsOf, g));
  }

  /** The histories are the same, run by run, and each keeps its catalog. */
  lemma ServedHistories(leq: Order, bundles: seq<Bundle>)
    requires TotalOrder(leq)
    ensures HistoriesOf(leq, Served(leq, bundles)) ==
      Lists.Map(OnGroups(Rewriting(leq, bundles)), HistoriesOf(leq, bundles))
    ensures forall g :: g in HistoriesOf(leq, bundles) ==>
      CatalogOf(Lists.Map(Rewriting(leq, bundles), g)) == CatalogOf(g)
  {
    HistoriesMap(leq, Rewriting(leq, bundles), bundles);
    forall g | g in HistoriesOf(leq, bundles)
      ensures CatalogOf(Lists.Map(Rewriting(leq, bundles), g)) == CatalogOf(g)
    {
      RewrittenGroup(leq, bundles, g);
    }
  }

  /** Rewriting twice is rewriting once. */
  lemma ServedOnce(leq: Order, bundles: seq<Bundle>)
    requires TotalOrder(leq)
    ensures Served(leq, Served(leq, bundles)) == Served(leq, bundles)
  {
    var f, served := Rewriting(leq, bundles), Served(leq, bundles);
    SortRunsMap(leq, f, bundles);
    forall i | 0 <= i < |bundles|
      ensures Rewriting(leq, served)(served[i]) == served[i]
    {
      var b := bundles[i];
      assert b in bundles;
      OwnGroup(leq, bundles, b);
      GroupOfMap(f, Sorting.Sort(RunOrder(leq), bundles), DefinitionOf(b));
      RewrittenGroup(leq, bundles, GroupIn(leq, bundles, b));
    }
  }

  lemma RewrittenCompatible(leq: Order, bundles: seq<Bundle>, a: Bundle, b: Bundle)
    requires Compatible(a, b)
    ensures Compatible(Rewriting(leq, bundles)(a), Rewriting(leq, bundles)(b))
  {
    var g := GroupIn(leq, bundles, a);
    if a.benchmark.version == b.benchmark.version {
      UnionDistinct(RuntimesOf, g);
      UnionDistinct(MetricsOf, g);
    }
  }

  lemma ServedAcceptable(leq: Order, bundles: seq<Bundle>)
    requires Acceptable(bundles)
    ensures Acceptable(Served(leq, bundles))
  {
    var served := Served(leq, bundles);
    forall i, j | 0 <= i < |served| && 0 <= j < |served|
      ensures served[i].source == served[j].source && Compatible(served[i], served[j])
    {
      assert bundles[i] in bundles && bundles[j] in bundles;
      RewrittenCompatible(leq, bundles, bundles[i], bundles[j]);
    }
    assert DistinctRuns(served) by {
      assert forall i :: 0 <= i < |served| ==> RunOf(served[i]) == RunOf(bundles[i]);
    }
  }

  // ---------------------------------------------------------------- bundles stay valid

  lemma UnionWellTyped<D(!new)>(get: Bundle -> seq<Entry<D>>, g: seq<Bundle>, b: Bundle)
    requires b in g && forall c :: c in g ==> IdentifiedEntries(get(c))
    ensures IdentifiedEntries(Union(get, g))
  {
    UnionMeans(get, g, b);
    forall e | e in Union(get, g)
      ensures Identifier(e.id)
    {
      var c :| c in g && e in get(c);
      assert IdentifiedEntries(get(c));
    }
    assert IdentifiedEntries(get(b));
    assert HasId(get(b), get(b)[0].id);
  }

  lemma RewrittenWellTyped(g: seq<Bundle>, b: Bundle)
    requires b in g && forall c :: c in g ==> WellTyped(c)
    ensures WellTyped(b.(catalog := CatalogOf(g)))
  {
    UnionWellTyped(RuntimesOf, g, b);
    UnionWellTyped(PlatformsOf, g, b);
    UnionWellTyped(MetricsOf, g, b);
    assert WellTyped(b);
  }

  /** A larger catalog with distinct identifiers keeps a bundle valid. */
  ghost predicate Extends(small: Catalog, large: Catalog) {
    && DistinctIds(large.runtimes) && DistinctIds(large.platforms) && DistinctIds(large.metrics)
    && (forall id :: HasId(small.runtimes, id) ==> HasId(large.runtimes, id))
    && (forall id :: HasId(small.platforms, id) ==> HasId(large.platforms, id))
    && (forall id :: HasId(small.metrics, id) ==> HasId(large.metrics, id))
  }

  lemma UnionExtends(g: seq<Bundle>, b: Bundle)
    requires b in g
    ensures Extends(b.catalog, CatalogOf(g))
  {
    UnionDistinct(RuntimesOf, g);
    UnionDistinct(PlatformsOf, g);
    UnionDistinct(MetricsOf, g);
    UnionMeans(RuntimesOf, g, b);
    UnionMeans(PlatformsOf, g, b);
    UnionMeans(MetricsOf, g, b);
  }

  lemma RewrittenComplete(g: seq<Bundle>, b: Bundle)
    requires b in g && forall c :: c in g ==> Complete(c)
    ensures Complete(b.(catalog := CatalogOf(g)))
  {
    var after := b.(catalog := CatalogOf(g));
    RewrittenWellTyped(g, b);
    UnionExtends(g, b);
    forall c | c in after.benchmark.expectedConfigurations
      ensures Succeeded(after, CellOf(c))
    {
      assert Succeeded(b, CellOf(c));
    }
  }

  /** Every served bundle is complete. */
  lemma ServedComplete(leq: Order, bundles: seq<Bundle>)
    requires TotalOrder(leq) && forall b :: b in bundles ==> Complete(b)
    ensures forall i :: 0 <= i < |bundles| ==> Complete(Served(leq, bundles)[i])
  {
    forall i | 0 <= i < |bundles|
      ensures Complete(Served(leq, bundles)[i])
    {
      assert bundles[i] in bundles;
      OwnGroup(leq, bundles, bundles[i]);
      RewrittenComplete(GroupIn(leq, bundles, bundles[i]), bundles[i]);
    }
  }
}
