/** `groupHistories`: sort all runs, split them by definition, order the groups by their newest run and
    validate each group. */
module Grouping {
  import opened Texts
  import opened Bundles
  import opened Histories
  import Lists
  import Sorting

  // ---------------------------------------------------------------- orders

  predicate NoLater(leq: Order, a: Bundle, b: Bundle) {
    if a.run.createdAt == b.run.createdAt then leq(KeyOfRun(a), KeyOfRun(b))
    else leq(a.run.createdAt, b.run.createdAt)
  }

  /** By creation text, then by run key. */
  function RunOrder(leq: Order): Sorting.Comparison<Bundle> {
    (a: Bundle, b: Bundle) => NoLater(leq, a, b)
  }

  predicate LastNoEarlier(leq: Order, g: seq<Bundle>, h: seq<Bundle>) {
    h == [] || (g != [] && NoLater(leq, h[|h| - 1], g[|g| - 1]))
  }

  /** Groups with the newest last run come first. */
  function NewestFirst(leq: Order): Sorting.Comparison<seq<Bundle>> {
    (g: seq<Bundle>, h: seq<Bundle>) => LastNoEarlier(leq, g, h)
  }

  lemma NoLaterTotal(leq: Order, a: Bundle, b: Bundle)
    requires TotalOrder(leq)
    ensures NoLater(leq, a, b) || NoLater(leq, b, a)
    ensures NoLater(leq, a, b) && NoLater(leq, b, a) ==> RunIdOf(a) == RunIdOf(b)
  {
    var s, t, k, l := a.run.createdAt, b.run.createdAt, KeyOfRun(a), KeyOfRun(b);
    assert leq(s, t) || leq(t, s);
    assert leq(k, l) || leq(l, k);
    RunKeyInjective(RunIdOf(a), RunIdOf(b));
  }

  lemma OrdersSort(leq: Order)
    requires TotalOrder(leq)
    ensures Sorting.Sorts(RunOrder(leq)) && Sorting.Sorts(NewestFirst(leq))
  {
  }

  lemma RunsSeparated(leq: Order, bundles: seq<Bundle>)
    requires TotalOrder(leq) && DistinctRuns(bundles)
    ensures Sorting.Separates(RunOrder(leq), bundles)
  {
    Lists.DistinctByMeans(RunOf, bundles);
    forall a, b | a in bundles && b in bundles && NoLater(leq, a, b) && NoLater(leq, b, a)
      ensures a == b
    {
      NoLaterTotal(leq, a, b);
      assert RunOf(a) == RunOf(b);
    }
  }

  // ---------------------------------------------------------------- the split by definition

  function HasDefinition(d: Definition): Bundle -> bool {
    (b: Bundle) => DefinitionOf(b) == d
  }

  /** The definitions in the order in which they first appear. */
  function Definitions(bundles: seq<Bundle>): seq<Definition> {
    if bundles == [] then []
    else
      var front, d := Definitions(bundles[..|bundles| - 1]), DefinitionOf(bundles[|bundles| - 1]);
      if d in front then front else front + [d]
  }

  function GroupOf(bundles: seq<Bundle>, d: Definition): seq<Bundle> {
    Lists.Filter(HasDefinition(d), bundles)
  }

  function Groups(bundles: seq<Bundle>): seq<seq<Bundle>> {
    Lists.Map((d: Definition) => GroupOf(bundles, d), Definitions(bundles))
  }

  function HistoriesOf(leq: Order, bundles: seq<Bundle>): seq<seq<Bundle>> {
    Sorting.Sort(NewestFirst(leq), Groups(Sorting.Sort(RunOrder(leq), bundles)))
  }

  lemma {:induction false} DefinitionsMeans(bundles: seq<Bundle>)
    ensures forall d :: d in Definitions(bundles) <==> exists b :: b in bundles && DefinitionOf(b) == d
    ensures forall i, j :: 0 <= i < j < |Definitions(bundles)| ==> Definitions(bundles)[i] != Definitions(bundles)[j]
  {
    if bundles != [] {
      var front, last := bundles[..|bundles| - 1], bundles[|bundles| - 1];
      assert bundles == front + [last];
      DefinitionsMeans(front);
      forall d
        ensures d in Definitions(bundles) <==> exists b :: b in bundles && DefinitionOf(b) == d
      {
        if d == DefinitionOf(last) {
          assert last in bundles;
        } else if d in Definitions(front) {
          var b :| b in front && DefinitionOf(b) == d;
          assert b in bundles;
        }
      }
    }
  }

  /** The groups hold each bundle once: every bundle is in the group of its definition only. */
  lemma GroupsMeans(bundles: seq<Bundle>)
    ensures forall g :: g in Groups(bundles) <==> exists b :: b in bundles && g == GroupOf(bundles, DefinitionOf(b))
    ensures forall g :: g in Groups(bundles) ==>
      g != [] && forall b :: b in g <==> b in bundles && DefinitionOf(b) == DefinitionOf(g[0])
  {
    DefinitionsMeans(bundles);
    var definitions, groups := Definitions(bundles), Groups(bundles);
    forall g | g in groups
      ensures exists b :: b in bundles && g == GroupOf(bundles, DefinitionOf(b))
      ensures g != [] && forall b :: b in g <==> b in bundles && DefinitionOf(b) == DefinitionOf(g[0])
    {
      var i :| 0 <= i < |groups| && groups[i] == g;
      var d := definitions[i];
      assert d in definitions;
      var b :| b in bundles && DefinitionOf(b) == d;
      forall c
        ensures c in g <==> c in bundles && DefinitionOf(c) == d
      {
        Lists.FilterIn(HasDefinition(d), bundles, c);
      }
      assert b in g;
      assert g[0] in g;
    }
    forall b | b in bundles
      ensures GroupOf(bundles, DefinitionOf(b)) in groups
    {
      assert DefinitionOf(b) in definitions;
      var i :| 0 <= i < |definitions| && definitions[i] == DefinitionOf(b);
      assert groups[i] == GroupOf(bundles, DefinitionOf(b));
    }
  }

  lemma DefinitionsStep(bundles: seq<Bundle>, i: nat)
    requires i < |bundles|
    ensures
      var front, d := Definitions(bundles[..i]), DefinitionOf(bundles[i]);
      Definitions(bundles[..i + 1]) == if d in front then front else front + [d]
  {
    assert bundles[..i + 1][..i] == bundles[..i];
  }

  lemma GroupOfStep(bundles: seq<Bundle>, i: nat, d: Definition)
    requires i < |bundles|
    ensures GroupOf(bundles[..i + 1], d) ==
      GroupOf(bundles[..i], d) + if DefinitionOf(bundles[i]) == d then [bundles[i]] else []
  {
    assert bundles[..i + 1] == bundles[..i] + [bundles[i]];
    Lists.FilterAppend(HasDefinition(d), bundles[..i], bundles[i]);
  }

  lemma GroupOfAbsent(bundles: seq<Bundle>, d: Definition)
    requires d !in Definitions(bundles)
    ensures GroupOf(bundles, d) == []
  {
    DefinitionsMeans(bundles);
    var g := GroupOf(bundles, d);
    if g != [] {
      Lists.FilterIn(HasDefinition(d), bundles, g[0]);
      assert false;
    }
  }

  // ---------------------------------------------------------------- acceptance

  ghost predicate SameSource(bundles: seq<Bundle>) {
    forall a, b :: a in bundles && b in bundles ==> a.source == b.source
  }

  ghost predicate Compatible(a: Bundle, b: Bundle) {
    a.benchmark.version == b.benchmark.version ==>
      && a.benchmark.id == b.benchmark.id && a.benchmark.settings == b.benchmark.settings
      && Agree(a, b)
  }

  /** What `groupHistories` accepts, pair by pair. */
  ghost predicate Acceptable(bundles: seq<Bundle>) {
    && DistinctRuns(bundles)
    && SameSource(bundles)
    && forall a, b :: a in bundles && b in bundles ==> Compatible(a, b)
  }

  /** The checks on the groups, as they are made. */
  ghost predicate GroupsAccepted(groups: seq<seq<Bundle>>) {
    && (forall g :: g in groups ==> ValidHistory(g))
    && (forall i, j :: 0 <= i < j < |groups| ==> VersionOf(groups[i]) != VersionOf(groups[j]))
  }

  function VersionOf(g: seq<Bundle>): Option<nat> {
    if g == [] then None else Some(g[0].benchmark.version)
  }

  function DefinitionOfGroup(g: seq<Bundle>): Option<Definition> {
    if g == [] then None else Some(DefinitionOf(g[0]))
  }

  const GroupDefinition: seq<Bundle> -> Option<Definition> := (g: seq<Bundle>) => DefinitionOfGroup(g)

  lemma GroupsApart(leq: Order, bundles: seq<Bundle>)
    ensures
      var groups := Groups(bundles);
      Lists.DistinctBy(GroupDefinition, Sorting.Sort(NewestFirst(leq), groups))
  {
    var groups := Groups(bundles);
    DefinitionsMeans(bundles);
    forall i | 0 <= i < |groups|
      ensures DefinitionOfGroup(groups[i]) == Some(Definitions(bundles)[i])
    {
      var d := Definitions(bundles)[i];
      assert groups[i] == GroupOf(bundles, d);
      assert d in Definitions(bundles);
      var b :| b in bundles && DefinitionOf(b) == d;
      Lists.FilterIn(HasDefinition(d), bundles, b);
      Lists.FilterIn(HasDefinition(d), bundles, groups[i][0]);
    }
    Sorting.SortElements(NewestFirst(leq), groups);
    Lists.DistinctByPermuted(GroupDefinition, groups, Sorting.Sort(NewestFirst(leq), groups));
  }

  /** Checking the groups one by one is checking all pairs. */
  lemma GroupsAcceptedMeans(leq: Order, bundles: seq<Bundle>)
    requires TotalOrder(leq) && DistinctRuns(bundles) && SameSource(bundles)
    ensures GroupsAccepted(HistoriesOf(leq, bundles)) <==> Acceptable(bundles)
  {
    if Acceptable(bundles) {
      AcceptableGroups(leq, bundles);
    }
    if GroupsAccepted(HistoriesOf(leq, bundles)) {
      AcceptedPairs(leq, bundles);
    }
  }

  lemma HistoriesMembers(leq: Order, bundles: seq<Bundle>)
    requires TotalOrder(leq)
    ensures
      var ordered := Sorting.Sort(RunOrder(leq), bundles);
      && multiset(ordered) == multiset(bundles)
      && (forall b :: b in ordered <==> b in bundles)
      && (forall g :: g in HistoriesOf(leq, bundles) <==>
        exists b :: b in bundles && g == GroupOf(ordered, DefinitionOf(b)))
      && (forall g :: g in HistoriesOf(leq, bundles) ==>
        g != [] && forall b :: b in g <==> b in bundles && DefinitionOf(b) == DefinitionOf(g[0]))
  {
    Sorting.SortElements(RunOrder(leq), bundles);
    var ordered := Sorting.Sort(RunOrder(leq), bundles);
    GroupsMeans(ordered);
    Sorting.SortElements(NewestFirst(leq), Groups(ordered));
  }

  lemma AcceptableGroups(leq: Order, bundles: seq<Bundle>)
    requires TotalOrder(leq) && Acceptable(bundles)
    ensures GroupsAccepted(HistoriesOf(leq, bundles))
  {
    var histories: seq<seq<Bundle>> := HistoriesOf(leq, bundles);
    var ordered := Sorting.Sort(RunOrder(leq), bundles);
    HistoriesMembers(leq, bundles);
    Lists.DistinctByPermuted(RunOf, bundles, ordered);
    forall g | g in histories
      ensures ValidHistory(g)
    {
      var b :| b in bundles && g == GroupOf(ordered, DefinitionOf(b));
      FilteredDistinct(ordered, DefinitionOf(b));
      GroupValid(bundles, g);
    }
    GroupsApart(leq, ordered);
    VersionsApart(bundles, histories);
  }

  lemma VersionsApart(bundles: seq<Bundle>, histories: seq<seq<Bundle>>)
    requires Acceptable(bundles) && Lists.DistinctBy(GroupDefinition, histories)
    requires forall g :: g in histories ==> g != [] && g[0] in bundles
    ensures forall i, j :: 0 <= i < j < |histories| ==> VersionOf(histories[i]) != VersionOf(histories[j])
  {
  }

  lemma GroupValid(bundles: seq<Bundle>, g: seq<Bundle>)
    requires Acceptable(bundles) && g != [] && DistinctRuns(g)
    requires forall b :: b in g ==> b in bundles && DefinitionOf(b) == DefinitionOf(g[0])
    ensures ValidHistory(g)
  {
  }

  lemma {:induction false} FilteredDistinct(bundles: seq<Bundle>, d: Definition)
    requires DistinctRuns(bundles)
    ensures DistinctRuns(GroupOf(bundles, d))
  {
    var g := GroupOf(bundles, d);
    Lists.DistinctByMeans(RunOf, bundles);
    forall b | b in g
      ensures b in bundles && multiset(g)[b] == 1
    {
      Lists.FilterIn(HasDefinition(d), bundles, b);
      Lists.FilterMultiset(HasDefinition(d), bundles, b);
    }
    Lists.DistinctByMeans(RunOf, g);
  }

  lemma AcceptedPairs(leq: Order, bundles: seq<Bundle>)
    requires TotalOrder(leq) && DistinctRuns(bundles) && SameSource(bundles)
    requires GroupsAccepted(HistoriesOf(leq, bundles))
    ensures Acceptable(bundles)
  {
    var histories := HistoriesOf(leq, bundles);
    var ordered := Sorting.Sort(RunOrder(leq), bundles);
    HistoriesMembers(leq, bundles);
    forall a, b | a in bundles && b in bundles
      ensures Compatible(a, b)
    {
      var g, h := GroupOf(ordered, DefinitionOf(a)), GroupOf(ordered, DefinitionOf(b));
      assert g in histories && h in histories;
      Lists.FilterIn(HasDefinition(DefinitionOf(a)), ordered, a);
      Lists.FilterIn(HasDefinition(DefinitionOf(b)), ordered, b);
      var i :| 0 <= i < |histories| && histories[i] == g;
      var j :| 0 <= j < |histories| && histories[j] == h;
      assert DefinitionOf(g[0]) == DefinitionOf(a) && DefinitionOf(h[0]) == DefinitionOf(b);
      if a.benchmark.version == b.benchmark.version {
        assert g[0].benchmark.version == h[0].benchmark.version;
        assert i == j;
        assert ValidHistory(g);
      }
    }
  }

  // ---------------------------------------------------------------- the computation

  /** The map from definitions to groups, with the order in which its keys were added. */
  ghost predicate Split(bundles: seq<Bundle>, order: seq<Definition>, groups: map<Definition, seq<Bundle>>) {
    && order == Definitions(bundles)
    && (forall d :: d in groups <==> d in order)
    && (forall d :: d in groups ==> groups[d] == GroupOf(bundles, d))
  }

  lemma SplitStep(bundles: seq<Bundle>, i: nat, order: seq<Definition>, groups: map<Definition, seq<Bundle>>)
    requires i < |bundles| && Split(bundles[..i], order, groups)
    ensures
      var bundle, definition := bundles[i], DefinitionOf(bundles[i]);
      if definition in groups then
        Split(bundles[..i + 1], order, groups[definition := groups[definition] + [bundle]])
      else
        Split(bundles[..i + 1], order + [definition], groups[definition := [bundle]])
  {
    DefinitionsStep(bundles, i);
    if DefinitionOf(bundles[i]) !in groups {
      GroupOfAbsent(bundles[..i], DefinitionOf(bundles[i]));
    }
    forall d
      ensures GroupOf(bundles[..i + 1], d) ==
        GroupOf(bundles[..i], d) + if DefinitionOf(bundles[i]) == d then [bundles[i]] else []
    {
      GroupOfStep(bundles, i, d);
    }
  }

  ghost predicate SourceOfFirst(bundles: seq<Bundle>, i: nat) {
    forall j :: 0 <= j < i <= |bundles| ==> bundles[j].source == bundles[0].source
  }

  /** The first loop. */
  method Collect(ordered: seq<Bundle>) returns (r: Result<seq<seq<Bundle>>>)
    ensures r.Ok? <==> DistinctRuns(ordered) && SameSource(ordered)
    ensures r.Ok? ==> r.value == Groups(ordered)
  {
    var groups: map<Definition, seq<Bundle>> := map[];
    var order: seq<Definition> := [];
    var keys: set<Text> := {};
    for i := 0 to |ordered|
      invariant keys == RunKeysOf(ordered[..i]) && DistinctRuns(ordered[..i])
      invariant SourceOfFirst(ordered, i)
      invariant Split(ordered[..i], order, groups)
    {
      var bundle := ordered[i];
      RunKeysStep(ordered, i);
      if KeyOfRun(bundle) in keys {
        DistinctRunsPrefix(ordered, i + 1);
        return Err(DuplicateRun);
      }
      keys := keys + {KeyOfRun(bundle)};
      if bundle.source != ordered[0].source {
        return Err(SourcesDiffer);
      }
      var definition := DefinitionOf(bundle);
      SplitStep(ordered, i, order, groups);
      if definition in groups {
        groups := groups[definition := groups[definition] + [bundle]];
      } else {
        order := order + [definition];
        groups := groups[definition := [bundle]];
      }
    }
    assert ordered[..|ordered|] == ordered;
    var values := seq(|order|, k requires 0 <= k < |order| && order[k] in groups => groups[order[k]]);
    assert values == Groups(ordered);
    return Ok(values);
  }

  ghost function VersionsOf(groups: seq<seq<Bundle>>): set<nat> {
    set g: seq<Bundle> | g in groups && g != [] :: g[0].benchmark.version
  }

  lemma GroupsAcceptedStep(groups: seq<seq<Bundle>>, i: nat)
    requires i < |groups| && groups[i] != []
    ensures GroupsAccepted(groups[..i + 1]) <==>
      && GroupsAccepted(groups[..i])
      && groups[i][0].benchmark.version !in VersionsOf(groups[..i])
      && ValidHistory(groups[i])
    ensures VersionsOf(groups[..i + 1]) == VersionsOf(groups[..i]) + {groups[i][0].benchmark.version}
    ensures GroupsAccepted(groups) ==> GroupsAccepted(groups[..i + 1])
  {
  }

  /** The second loop. */
  method CheckGroups(histories: seq<seq<Bundle>>) returns (r: Result<seq<seq<Bundle>>>)
    requires forall i :: 0 <= i < |histories| ==> histories[i] != []
    ensures r.Ok? <==> GroupsAccepted(histories)
    ensures r.Ok? ==> r.value == histories
  {
    var versions: set<nat> := {};
    for i := 0 to |histories|
      invariant versions == VersionsOf(histories[..i])
      invariant GroupsAccepted(histories[..i])
    {
      GroupsAcceptedStep(histories, i);
      var version := histories[i][0].benchmark.version;
      if version in versions {
        return Err(IncompatibleDefinitions);
      }
      versions := versions + {version};
      var valid := ValidateHistory(histories[i]);
      if valid.Err? {
        return Err(valid.error);
      }
    }
    assert histories[..|histories|] == histories;
    return Ok(histories);
  }

  lemma OrderedRuns(leq: Order, bundles: seq<Bundle>)
    requires TotalOrder(leq)
    ensures
      var ordered := Sorting.Sort(RunOrder(leq), bundles);
      (DistinctRuns(ordered) && SameSource(ordered) <==> DistinctRuns(bundles) && SameSource(bundles))
    ensures forall i :: 0 <= i < |HistoriesOf(leq, bundles)| ==> HistoriesOf(leq, bundles)[i] != []
  {
    var ordered := Sorting.Sort(RunOrder(leq), bundles);
    HistoriesMembers(leq, bundles);
    Lists.DistinctByMeans(RunOf, ordered);
    Lists.DistinctByMeans(RunOf, bundles);
    forall i | 0 <= i < |HistoriesOf(leq, bundles)|
      ensures HistoriesOf(leq, bundles)[i] != []
    {
      assert HistoriesOf(leq, bundles)[i] in HistoriesOf(leq, bundles);
    }
  }

  /** `groupHistories` accepts exactly the acceptable lists, whatever their order. */
  method GroupHistories(leq: Order, bundles: seq<Bundle>) returns (r: Result<seq<seq<Bundle>>>)
    requires TotalOrder(leq)
    ensures r.Ok? <==> Acceptable(bundles)
    ensures r.Ok? ==> r.value == HistoriesOf(leq, bundles)
  {
    var ordered := Sorting.Sort(RunOrder(leq), bundles);
    OrderedRuns(leq, bundles);
    var collected := Collect(ordered);
    if collected.Err? {
      return Err(collected.error);
    }
    GroupsAcceptedMeans(leq, bundles);
    r := CheckGroups(Sorting.Sort(NewestFirst(leq), collected.value));
  }

  // ---------------------------------------------------------------- what the result is

  /** Acceptance passes to every sublist, and does not depend on the order. */
  lemma AcceptablePart(bundles: seq<Bundle>, part: seq<Bundle>)
    requires Acceptable(bundles) && multiset(part) <= multiset(bundles)
    ensures Acceptable(part)
  {
    Lists.DistinctByMeans(RunOf, bundles);
    forall b | b in part
      ensures b in bundles && multiset(part)[b] == 1
    {
      assert b in multiset(part);
      assert multiset(part)[b] <= multiset(bundles)[b];
      assert b in multiset(bundles);
    }
    Lists.DistinctByMeans(RunOf, part);
  }

  /** The result does not depend on the order of the input. */
  lemma HistoriesIgnoreOrder(leq: Order, bundles: seq<Bundle>, permuted: seq<Bundle>)
    requires TotalOrder(leq) && DistinctRuns(bundles) && multiset(bundles) == multiset(permuted)
    ensures HistoriesOf(leq, bundles) == HistoriesOf(leq, permuted)
  {
    OrdersSort(leq);
    RunsSeparated(leq, bundles);
    Sorting.SortIffSameElements(RunOrder(leq), bundles, permuted);
  }

  /** Strictly earlier: by creation text, and by run key where the creation texts are equal. */
  predicate Before(leq: Order, a: Bundle, b: Bundle) {
    if a.run.createdAt == b.run.createdAt then
      RunIdOf(a) != RunIdOf(b) && leq(RunKey(RunIdOf(a)), RunKey(RunIdOf(b)))
    else leq(a.run.createdAt, b.run.createdAt)
  }

  lemma BeforeIff(leq: Order, a: Bundle, b: Bundle)
    requires TotalOrder(leq)
    ensures Before(leq, a, b) <==> NoLater(leq, a, b) && !NoLater(leq, b, a)
    ensures !Before(leq, a, b) <==> NoLater(leq, b, a)
  {
    NoLaterTotal(leq, a, b);
    RunKeyInjective(RunIdOf(a), RunIdOf(b));
  }

  ghost predicate Ascending(leq: Order, g: seq<Bundle>) {
    forall i, j :: 0 <= i < j < |g| ==> Before(leq, g[i], g[j])
  }

  function Last(g: seq<Bundle>): Bundle
    requires g != []
  {
    g[|g| - 1]
  }

  ghost predicate Descending(leq: Order, groups: seq<seq<Bundle>>) {
    forall i, j :: 0 <= i < j < |groups| && groups[i] != [] && groups[j] != [] ==>
      Before(leq, Last(groups[j]), Last(groups[i]))
  }

  /** A list of nonempty groups that hold exactly the given runs, one group for each version. */
  ghost predicate PartitionByVersion(groups: seq<seq<Bundle>>, bundles: seq<Bundle>) {
    && (forall g :: g in groups ==>
      g != [] && forall b :: b in g <==> b in bundles && b.benchmark.version == g[0].benchmark.version)
    && (forall b :: b in bundles ==> exists g :: g in groups && b in g)
    && (forall i, j :: 0 <= i < j < |groups| ==> VersionOf(groups[i]) != VersionOf(groups[j]))
  }

  lemma SortedStrictly(leq: Order, g: seq<Bundle>)
    requires TotalOrder(leq) && DistinctRuns(g) && Sorting.Sorted(RunOrder(leq), g)
    ensures Ascending(leq, g)
  {
    var le := RunOrder(leq);
    forall i, j | 0 <= i < j < |g|
      ensures Before(leq, g[i], g[j])
    {
      assert le(g[i], g[j]);
      NoLaterTotal(leq, g[i], g[j]);
      BeforeIff(leq, g[i], g[j]);
      assert RunOf(g[i]) != RunOf(g[j]);
    }
  }

  lemma {:induction false} FilterSorted(leq: Order, s: seq<Bundle>, d: Definition)
    requires Sorting.Sorted(RunOrder(leq), s)
    ensures Sorting.Sorted(RunOrder(leq), GroupOf(s, d))
  {
    if s != [] {
      FilterSorted(leq, s[1..], d);
      var rest := GroupOf(s[1..], d);
      var le := RunOrder(leq);
      forall j | 0 <= j < |rest|
        ensures le(s[0], rest[j])
      {
        assert rest[j] in rest;
        Lists.FilterIn(HasDefinition(d), s[1..], rest[j]);
        var k :| 0 <= k < |s[1..]| && s[1..][k] == rest[j];
        assert le(s[0], s[k + 1]);
      }
    }
  }

  lemma GroupsAscending(leq: Order, bundles: seq<Bundle>, g: seq<Bundle>)
    requires TotalOrder(leq) && Acceptable(bundles) && g in HistoriesOf(leq, bundles)
    ensures Ascending(leq, g) && ValidHistory(g)
  {
    var ordered := Sorting.Sort(RunOrder(leq), bundles);
    HistoriesMembers(leq, bundles);
    AcceptableGroups(leq, bundles);
    OrdersSort(leq);
    Sorting.SortSorted(RunOrder(leq), bundles);
    var b :| b in bundles && g == GroupOf(ordered, DefinitionOf(b));
    FilterSorted(leq, ordered, DefinitionOf(b));
    SortedStrictly(leq, g);
  }

  lemma GroupIsVersion(leq: Order, bundles: seq<Bundle>, g: seq<Bundle>)
    requires TotalOrder(leq) && Acceptable(bundles) && g in HistoriesOf(leq, bundles)
    ensures g != [] && forall b :: b in g <==> b in bundles && b.benchmark.version == g[0].benchmark.version
  {
    HistoriesMembers(leq, bundles);
    assert g[0] in g;
    forall b | b in bundles && b.benchmark.version == g[0].benchmark.version
      ensures b in g
    {
      assert Compatible(b, g[0]);
    }
  }

  lemma EveryRunGrouped(leq: Order, bundles: seq<Bundle>, b: Bundle)
    requires TotalOrder(leq) && b in bundles
    ensures exists g :: g in HistoriesOf(leq, bundles) && b in g
  {
    var ordered := Sorting.Sort(RunOrder(leq), bundles);
    HistoriesMembers(leq, bundles);
    var g := GroupOf(ordered, DefinitionOf(b));
    Lists.FilterIn(HasDefinition(DefinitionOf(b)), ordered, b);
    assert g in HistoriesOf(leq, bundles) && b in g;
  }

  /** An accepted list is partitioned by version. Each group is strictly ascending. */
  lemma HistoriesPartition(leq: Order, bundles: seq<Bundle>)
    requires TotalOrder(leq) && Acceptable(bundles)
    ensures PartitionByVersion(HistoriesOf(leq, bundles), bundles)
    ensures forall g :: g in HistoriesOf(leq, bundles) ==> Ascending(leq, g) && ValidHistory(g)
  {
    var histories := HistoriesOf(leq, bundles);
    forall g | g in histories
      ensures Ascending(leq, g) && ValidHistory(g)
      ensures g != [] && forall b :: b in g <==> b in bundles && b.benchmark.version == g[0].benchmark.version
    {
      GroupsAscending(leq, bundles, g);
      GroupIsVersion(leq, bundles, g);
    }
    forall b | b in bundles
      ensures exists g :: g in histories && b in g
    {
      EveryRunGrouped(leq, bundles, b);
    }
    AcceptableGroups(leq, bundles);
  }

  lemma HistoriesDescend(leq: Order, bundles: seq<Bundle>, i: nat, j: nat)
    requires TotalOrder(leq) && Acceptable(bundles) && i < j < |HistoriesOf(leq, bundles)|
    ensures HistoriesOf(leq, bundles)[i] != [] && HistoriesOf(leq, bundles)[j] != []
    ensures Before(leq, Last(HistoriesOf(leq, bundles)[j]), Last(HistoriesOf(leq, bundles)[i]))
  {
    var histories := HistoriesOf(leq, bundles);
    var g, h := histories[i], histories[j];
    AcceptableGroups(leq, bundles);
    OrdersSort(leq);
    Sorting.SortSorted(NewestFirst(leq), Groups(Sorting.Sort(RunOrder(leq), bundles)));
    var le := NewestFirst(leq);
    assert g in histories && h in histories;
    assert le(g, h);
    GroupIsVersion(leq, bundles, g);
    GroupIsVersion(leq, bundles, h);
    NoLaterTotal(leq, Last(h), Last(g));
    BeforeIff(leq, Last(h), Last(g));
    assert Last(g) in g && Last(h) in h;
    assert VersionOf(g) != VersionOf(h);
  }

  /** Groups come with the newest last run first, so the first group holds the newest run of all. */
  lemma HistoriesNewestFirst(leq: Order, bundles: seq<Bundle>)
    requires TotalOrder(leq) && Acceptable(bundles)
    ensures Descending(leq, HistoriesOf(leq, bundles))
    ensures bundles != [] ==>
      && HistoriesOf(leq, bundles) != [] && HistoriesOf(leq, bundles)[0] != []
      && forall b :: b in bundles ==> !Before(leq, Last(HistoriesOf(leq, bundles)[0]), b)
  {
    var histories := HistoriesOf(leq, bundles);
    forall i, j | 0 <= i < j < |histories|
      ensures histories[i] != [] && histories[j] != [] && Before(leq, Last(histories[j]), Last(histories[i]))
    {
      HistoriesDescend(leq, bundles, i, j);
    }
    if bundles != [] {
      assert bundles[0] in bundles;
      EveryRunGrouped(leq, bundles, bundles[0]);
      GroupIsVersion(leq, bundles, histories[0]);
      forall b | b in bundles
        ensures !Before(leq, Last(histories[0]), b)
      {
        NewestInFirst(leq, bundles, b);
        BeforeIff(leq, Last(histories[0]), b);
      }
    }
  }

  lemma NoLaterThanLast(leq: Order, g: seq<Bundle>, b: Bundle)
    requires TotalOrder(leq) && Ascending(leq, g) && b in g
    ensures NoLater(leq, b, Last(g))
  {
    var j :| 0 <= j < |g| && g[j] == b;
    NoLaterTotal(leq, b, b);
    if j < |g| - 1 {
      assert Before(leq, g[j], g[|g| - 1]);
      BeforeIff(leq, b, Last(g));
    }
  }

  lemma NewestInFirst(leq: Order, bundles: seq<Bundle>, b: Bundle)
    requires TotalOrder(leq) && Acceptable(bundles) && b in bundles
    ensures HistoriesOf(leq, bundles) != [] && HistoriesOf(leq, bundles)[0] != []
    ensures NoLater(leq, b, Last(HistoriesOf(leq, bundles)[0]))
  {
    var histories := HistoriesOf(leq, bundles);
    EveryRunGrouped(leq, bundles, b);
    var g :| g in histories && b in g;
    GroupsAscending(leq, bundles, g);
    var i :| 0 <= i < |histories| && histories[i] == g;
    NoLaterThanLast(leq, g, b);
    if i > 0 {
      HistoriesDescend(leq, bundles, 0, i);
      BeforeIff(leq, Last(g), Last(histories[0]));
    }
  }
}
