/** Publication policies: the trusted definitions that a publishable run has to match. */
module Policies {
  import opened Texts
  import opened Bundles
  import Lists
  import Sorting

  datatype Policy = Policy(catalog: Catalog, benchmark: Benchmark, expectedSkus: map<Text, Text>)

  predicate WellTypedPolicy(p: Policy) {
    WellTypedCatalog(p.catalog) && WellTypedBenchmark(p.benchmark)
  }

  function ById<D>(leq: Order): Sorting.Comparison<Entry<D>> {
    (a: Entry<D>, b: Entry<D>) => leq(a.id, b.id)
  }

  function ByCellKey(leq: Order): Sorting.Comparison<Configuration> {
    (a: Configuration, b: Configuration) => leq(CellKey(CellOf(a)), CellKey(CellOf(b)))
  }

  /** The definitions with every list sorted. Records are compared up to key order, so two of these
      are the same canonical text exactly when they are equal. */
  function Normalize(leq: Order, catalog: Catalog, benchmark: Benchmark): (Catalog, Benchmark) {
    (Catalog(
       Sorting.Sort(ById(leq), catalog.runtimes),
       Sorting.Sort(ById(leq), catalog.platforms),
       Sorting.Sort(ById(leq), catalog.metrics),
       EMPTY),
     benchmark.(
     metricIds := Sorting.Sort(AtMost, benchmark.metricIds),
     expectedConfigurations := Sorting.Sort(ByCellKey(leq), benchmark.expectedConfigurations)))
  }

  /** The same definitions, with every list in any order. */
  ghost predicate SameDefinitions(catalog: Catalog, benchmark: Benchmark, otherCatalog: Catalog, other: Benchmark) {
    && multiset(catalog.runtimes) == multiset(otherCatalog.runtimes)
    && multiset(catalog.platforms) == multiset(otherCatalog.platforms)
    && multiset(catalog.metrics) == multiset(otherCatalog.metrics)
    && multiset(benchmark.metricIds) == multiset(other.metricIds)
    && multiset(benchmark.expectedConfigurations) == multiset(other.expectedConfigurations)
    && benchmark.id == other.id && benchmark.version == other.version
    && benchmark.settings == other.settings && benchmark.rest == other.rest
  }

  ghost predicate SkusMatch(b: Bundle, p: Policy) {
    forall r :: r in b.runners ==> r.platformId in p.expectedSkus && p.expectedSkus[r.platformId] == r.sku
  }

  /** What `validatePublishableRun` accepts. */
  ghost predicate Publishable(b: Bundle, p: Policy) {
    && WellTypedPolicy(p)
    && Complete(b)
    && b.source == Published
    && SameDefinitions(b.catalog, b.benchmark, p.catalog, p.benchmark)
    && SkusMatch(b, p)
  }

  lemma EntriesSeparated<D(!new)>(leq: Order, entries: seq<Entry<D>>)
    requires TotalOrder(leq) && DistinctIds(entries)
    ensures Sorting.Sorts(ById<D>(leq)) && Sorting.Separates(ById<D>(leq), entries)
  {
  }

  lemma ConfigurationsSeparated(leq: Order, all: seq<Configuration>)
    requires TotalOrder(leq) && Lists.DistinctBy(ConfigurationCell, all)
    requires forall c :: c in all ==> WellTypedConfiguration(c)
    ensures Sorting.Sorts(ByCellKey(leq)) && Sorting.Separates(ByCellKey(leq), all)
  {
    Lists.DistinctByMeans(ConfigurationCell, all);
    var le := ByCellKey(leq);
    forall a, b
      ensures le(a, b) || le(b, a)
    {
      var k, l := CellKey(CellOf(a)), CellKey(CellOf(b));
      assert leq(k, l) || leq(l, k);
    }
    forall a, b, c | le(a, b) && le(b, c)
      ensures le(a, c)
    {
      var k, l, m := CellKey(CellOf(a)), CellKey(CellOf(b)), CellKey(CellOf(c));
      assert leq(k, l) && leq(l, m);
    }
    forall a, b | a in all && b in all && le(a, b) && le(b, a)
      ensures a == b
    {
      CellKeyInjective(CellOf(a), CellOf(b));
      assert ConfigurationCell(a) == ConfigurationCell(b);
    }
  }

  /** Comparing the sorted definitions of a valid bundle with those of any policy, even one that
      repeats an identifier, decides whether they are the same definitions in some order. */
  lemma NormalizedIffSameDefinitions(leq: Order, b: Bundle, catalog: Catalog, benchmark: Benchmark)
    requires TotalOrder(leq) && Parses(b)
    ensures Normalize(leq, b.catalog, b.benchmark) == Normalize(leq, catalog, benchmark) <==>
      SameDefinitions(b.catalog, b.benchmark, catalog, benchmark)
  {
    EntriesSeparated(leq, b.catalog.runtimes);
    EntriesSeparated(leq, b.catalog.platforms);
    EntriesSeparated(leq, b.catalog.metrics);
    ConfigurationsSeparated(leq, b.benchmark.expectedConfigurations);
    CodeUnitOrderIsTotal();
    Sorting.SortIffSameElements(ById(leq), b.catalog.runtimes, catalog.runtimes);
    Sorting.SortIffSameElements(ById(leq), b.catalog.platforms, catalog.platforms);
    Sorting.SortIffSameElements(ById(leq), b.catalog.metrics, catalog.metrics);
    Sorting.SortIffSameElements(AtMost, b.benchmark.metricIds, benchmark.metricIds);
    Sorting.SortIffSameElements(ByCellKey(leq), b.benchmark.expectedConfigurations, benchmark.expectedConfigurations);
  }

  method ValidatePublishableRun(leq: Order, b: Bundle, p: Policy) returns (r: Result<Bundle>)
    requires TotalOrder(leq)
    ensures r.Ok? <==> Publishable(b, p)
    ensures r.Ok? ==> r.value == b
    ensures r.Err? && Complete(b) && WellTypedPolicy(p) && b.source == Published ==>
      r.error == if SameDefinitions(b.catalog, b.benchmark, p.catalog, p.benchmark) then SkuMismatch else PolicyMismatch
  {
    if !WellTypedPolicy(p) {
      return Err(PolicyMismatch);
    }
    r := ValidateCompleteRun(b);
    if r.Err? {
      return;
    }
    if b.source != Published {
      return Err(NotMeasured);
    }
    NormalizedIffSameDefinitions(leq, b, p.catalog, p.benchmark);
    if Normalize(leq, b.catalog, b.benchmark) != Normalize(leq, p.catalog, p.benchmark) {
      return Err(PolicyMismatch);
    }
    for i := 0 to |b.runners|
      invariant forall j :: 0 <= j < i ==>
        b.runners[j].platformId in p.expectedSkus && p.expectedSkus[b.runners[j].platformId] == b.runners[j].sku
    {
      var runner := b.runners[i];
      if runner.platformId !in p.expectedSkus || p.expectedSkus[runner.platformId] != runner.sku {
        return Err(SkuMismatch);
      }
    }
  }

  // ---------------------------------------------------------------- what a policy vouches for

  ghost predicate ListsOnce<D(!new)>(entries: seq<Entry<D>>, id: Text) {
    exists e :: e in entries && e.id == id && forall f :: f in entries && f.id == id ==> f == e
  }

  lemma ListedOnce<D(!new)>(entries: seq<Entry<D>>, others: seq<Entry<D>>, id: Text)
    requires DistinctIds(entries) && multiset(entries) == multiset(others) && HasId(entries, id)
    ensures ListsOnce(others, id)
  {
    var i :| 0 <= i < |entries| && entries[i].id == id;
    Lists.SameElements(entries, others);
    forall f | f in others && f.id == id
      ensures f == entries[i]
    {
      var j :| 0 <= j < |entries| && entries[j] == f;
      assert EntryId<D>()(entries[i]) == EntryId<D>()(entries[j]);
    }
    assert entries[i] in others;
  }

  /** A machine that was recorded in full and has the SKU that its record and the policy expect. */
  ghost predicate ExpectedMachine(p: Policy, r: Runner) {
    && ListsOnce(p.catalog.platforms, r.platformId) && r.platformId in p.expectedSkus
    && r.sku == r.expectedSku && r.sku == p.expectedSkus[r.platformId]
    && r.region.Some? && r.cpuModel.Some? && r.cores.Some? && r.threadsPerCore.Some? && r.osVersion.Some?
    && r.tools != map[] && r.dependencies != map[]
  }

  /** Whatever a publishable run and its policy refer to is in the policy exactly once, and all its machines
      are the expected ones. */
  lemma PublishableResolves(b: Bundle, p: Policy)
    requires Publishable(b, p)
    ensures forall r :: r in b.runners ==> ExpectedMachine(p, r)
    ensures forall x :: x in p.benchmark.metricIds ==> ListsOnce(p.catalog.metrics, x)
    ensures forall c :: c in p.benchmark.expectedConfigurations ==>
      ListsOnce(p.catalog.runtimes, c.runtimeId) && ListsOnce(p.catalog.platforms, c.platformId)
    ensures b.run.workflow.url.Some? && b.run.commit.url.Some?
  {
    Lists.SameElements(b.benchmark.metricIds, p.benchmark.metricIds);
    Lists.SameElements(b.benchmark.expectedConfigurations, p.benchmark.expectedConfigurations);
    forall r | r in b.runners
      ensures ExpectedMachine(p, r)
    {
      ListedOnce(b.catalog.platforms, p.catalog.platforms, r.platformId);
    }
    forall x | x in p.benchmark.metricIds
      ensures ListsOnce(p.catalog.metrics, x)
    {
      ListedOnce(b.catalog.metrics, p.catalog.metrics, x);
    }
    forall c | c in p.benchmark.expectedConfigurations
      ensures ListsOnce(p.catalog.runtimes, c.runtimeId) && ListsOnce(p.catalog.platforms, c.platformId)
    {
      ListedOnce(b.catalog.runtimes, p.catalog.runtimes, c.runtimeId);
      ListedOnce(b.catalog.platforms, p.catalog.platforms, c.platformId);
    }
  }
}
