/** Benchmark histories: published runs are grouped by benchmark definition, and each group must agree
    on the definitions of the runtimes and metrics that its runs share. */
module Histories {
  import opened Texts
  import opened Bundles
  import opened Catalogs
  import CanonicalJson
  import Lists

  // ---------------------------------------------------------------- definitions

  /** What separates one history from another. The source uses its canonical text as a map key. */
  datatype Definition = Definition(id: Text, version: nat, settings: Value)

  function DefinitionOf(b: Bundle): Definition {
    Definition(b.benchmark.id, b.benchmark.version, b.benchmark.settings)
  }

  const ID_KEY: Text := [0x69, 0x64]
  const VERSION_KEY: Text := [0x76, 0x65, 0x72, 0x73, 0x69, 0x6F, 0x6E]
  const SETTINGS_KEY: Text := [0x73, 0x65, 0x74, 0x74, 0x69, 0x6E, 0x67, 0x73]

  /** The object that the source prints to get the key. */
  function DefinitionTree(id: Text, version: nat, settings: CanonicalJson.Json): CanonicalJson.Json {
    CanonicalJson.Obj([
      CanonicalJson.Member(ID_KEY, CanonicalJson.Str(id)),
      CanonicalJson.Member(VERSION_KEY, CanonicalJson.Num(Decimal(version))),
      CanonicalJson.Member(SETTINGS_KEY, settings)])
  }

  lemma DefinitionTreeMeans(id: Text, version: nat, settings: CanonicalJson.Json)
    requires CanonicalJson.WellFormed(settings)
    ensures CanonicalJson.WellFormed(DefinitionTree(id, version, settings))
    ensures CanonicalJson.Denote(DefinitionTree(id, version, settings)) == CanonicalJson.VObj(map[
      ID_KEY := CanonicalJson.VStr(id),
      VERSION_KEY := CanonicalJson.VNum(Decimal(version)),
      SETTINGS_KEY := CanonicalJson.Denote(settings)])
  {
    var members := DefinitionTree(id, version, settings).members;
    assert members[1..][1..] == members[2..];
    assert |members[2..]| == 1 && members[2..][1..] == [];
    assert CanonicalJson.WellFormedMembers(members[2..]);
    assert CanonicalJson.Keys(members[2..]) == [SETTINGS_KEY];
    assert CanonicalJson.WellFormed(members[1].value);
    assert CanonicalJson.WellFormedMembers(members[1..]);
    assert CanonicalJson.Keys(members[1..]) == [VERSION_KEY, SETTINGS_KEY];
    var text, number, value :=
      CanonicalJson.VStr(id), CanonicalJson.VNum(Decimal(version)), CanonicalJson.Denote(settings);
    assert CanonicalJson.DenoteMembers(members[2..]) == map[SETTINGS_KEY := value];
    assert CanonicalJson.DenoteMembers(members[1..]) == map[SETTINGS_KEY := value, VERSION_KEY := number];
    assert CanonicalJson.DenoteMembers(members) == map[SETTINGS_KEY := value, VERSION_KEY := number, ID_KEY := text];
  }

  /** Two bundles get the same map key exactly when their definitions are equal up to key order. */
  lemma DefinitionKeyIffSameDefinition(
    leq: Order, id: Text, version: nat, settings: CanonicalJson.Json,
    otherId: Text, otherVersion: nat, otherSettings: CanonicalJson.Json)
    requires TotalOrder(leq) && CanonicalJson.WellFormed(settings) && CanonicalJson.WellFormed(otherSettings)
    ensures
      CanonicalJson.Canonical(leq, DefinitionTree(id, version, settings)) ==
      CanonicalJson.Canonical(leq, DefinitionTree(otherId, otherVersion, otherSettings)) <==>
      Definition(id, version, CanonicalJson.Denote(settings)) ==
      Definition(otherId, otherVersion, CanonicalJson.Denote(otherSettings))
  {
    var a, b := DefinitionTree(id, version, settings), DefinitionTree(otherId, otherVersion, otherSettings);
    DefinitionTreeMeans(id, version, settings);
    DefinitionTreeMeans(otherId, otherVersion, otherSettings);
    CanonicalJson.CanonicalTextIffSameMeaning(leq, a, b);
    var m, n := CanonicalJson.Denote(a).members, CanonicalJson.Denote(b).members;
    if m == n {
      assert m[ID_KEY] == n[ID_KEY] && m[VERSION_KEY] == n[VERSION_KEY] && m[SETTINGS_KEY] == n[SETTINGS_KEY];
      DecimalInjective(version, otherVersion);
    }
  }

  // ---------------------------------------------------------------- one history

  const RunOf: Bundle -> RunId := (b: Bundle) => RunIdOf(b)
  const RuntimesOf: Bundle -> seq<Runtime> := (b: Bundle) => b.catalog.runtimes
  const PlatformsOf: Bundle -> seq<Platform> := (b: Bundle) => b.catalog.platforms
  const MetricsOf: Bundle -> seq<Metric> := (b: Bundle) => b.catalog.metrics

  /** The entries of one kind in a list of bundles, in order. */
  function Gather<D>(get: Bundle -> seq<Entry<D>>, bundles: seq<Bundle>): seq<Entry<D>> {
    Lists.FlatMap(get, bundles)
  }

  function Union<D>(get: Bundle -> seq<Entry<D>>, bundles: seq<Bundle>): seq<Entry<D>> {
    Absorb([], Gather(get, bundles))
  }

  lemma GatherIn<D>(get: Bundle -> seq<Entry<D>>, bundles: seq<Bundle>, e: Entry<D>)
    ensures e in Gather(get, bundles) <==> exists b :: b in bundles && e in get(b)
  {
    Lists.FlatMapIn(get, bundles, e);
    if e in Gather(get, bundles) {
      var i :| 0 <= i < |bundles| && e in get(bundles[i]);
      assert bundles[i] in bundles;
    }
  }

  /** Entries that two lists share by identifier agree on what a check looks at in their definitions. */
  ghost predicate AgreeOn<D(!new), V>(view: D -> V, a: seq<Entry<D>>, b: seq<Entry<D>>) {
    forall e, f :: e in a && f in b && e.id == f.id ==> view(e.definition) == view(f.definition)
  }

  /** Shared runtimes keep engine and execution, shared metrics keep unit, direction and method version. */
  ghost predicate Agree(a: Bundle, b: Bundle) {
    && AgreeOn(Whole<RuntimeDefinition>(), a.catalog.runtimes, b.catalog.runtimes)
    && AgreeOn(Whole<MetricDefinition>(), a.catalog.metrics, b.catalog.metrics)
  }

  lemma ConsistentIffAgree<D(!new), V>(view: D -> V, get: Bundle -> seq<Entry<D>>, bundles: seq<Bundle>)
    ensures Consistent(view, Gather(get, bundles)) <==>
      forall a, b :: a in bundles && b in bundles ==> AgreeOn(view, get(a), get(b))
  {
    var all := Gather(get, bundles);
    if Consistent(view, all) {
      forall a, b | a in bundles && b in bundles
        ensures AgreeOn(view, get(a), get(b))
      {
        forall e, f | e in get(a) && f in get(b) && e.id == f.id
          ensures view(e.definition) == view(f.definition)
        {
          GatherIn(get, bundles, e);
          GatherIn(get, bundles, f);
        }
      }
    }
    if forall a, b :: a in bundles && b in bundles ==> AgreeOn(view, get(a), get(b)) {
      forall e, f | e in all && f in all && e.id == f.id
        ensures view(e.definition) == view(f.definition)
      {
        GatherIn(get, bundles, e);
        GatherIn(get, bundles, f);
        var a :| a in bundles && e in get(a);
        var b :| b in bundles && f in get(b);
        assert AgreeOn(view, get(a), get(b));
      }
    }
  }

  datatype History = History(source: Source, runtimes: seq<Runtime>, platforms: seq<Platform>, metrics: seq<Metric>)

  ghost predicate ValidHistory(bundles: seq<Bundle>) {
    && bundles != []
    && DistinctRuns(bundles)
    && AllAlike(bundles)
    && AllAgree(bundles)
  }

  function HistoryOf(bundles: seq<Bundle>): History
    requires bundles != []
  {
    History(bundles[0].source, Union(RuntimesOf, bundles), Union(PlatformsOf, bundles), Union(MetricsOf, bundles))
  }

  ghost function RunKeysOf(bundles: seq<Bundle>): set<Text> {
    set b | b in bundles :: KeyOfRun(b)
  }

  ghost predicate DistinctRuns(bundles: seq<Bundle>) {
    Lists.DistinctBy(RunOf, bundles)
  }

  lemma RunKeysStep(bundles: seq<Bundle>, i: nat)
    requires i < |bundles|
    ensures RunKeysOf(bundles[..i + 1]) == RunKeysOf(bundles[..i]) + {KeyOfRun(bundles[i])}
    ensures DistinctRuns(bundles[..i + 1]) <==>
      DistinctRuns(bundles[..i]) && KeyOfRun(bundles[i]) !in RunKeysOf(bundles[..i])
  {
    var front, b := bundles[..i], bundles[i];
    assert bundles[..i + 1] == front + [b];
    forall j | 0 <= j < i
      ensures RunIdOf(front[j]) == RunIdOf(b) <==> KeyOfRun(front[j]) == KeyOfRun(b)
    {
      RunKeyInjective(RunIdOf(front[j]), RunIdOf(b));
    }
    if KeyOfRun(b) !in RunKeysOf(front) {
      forall j | 0 <= j < i
        ensures RunIdOf(front[j]) != RunIdOf(b)
      {
        assert front[j] in front;
      }
    }
  }

  lemma DistinctRunsPrefix(bundles: seq<Bundle>, i: nat)
    requires i <= |bundles|
    ensures DistinctRuns(bundles) ==> DistinctRuns(bundles[..i])
  {
  }

  /** The three maps that collect the entries of a history. */
  datatype Maps = Maps(runtimes: seq<Runtime>, platforms: seq<Platform>, metrics: seq<Metric>)

  ghost function UnionMaps(bundles: seq<Bundle>): Maps {
    Maps(Union(RuntimesOf, bundles), Union(PlatformsOf, bundles), Union(MetricsOf, bundles))
  }

  ghost predicate Unchanging<D(!new)>(get: Bundle -> seq<Entry<D>>, bundles: seq<Bundle>) {
    Consistent(Whole<D>(), Gather(get, bundles))
  }

  ghost predicate AllAgree(bundles: seq<Bundle>) {
    forall a, b :: a in bundles && b in bundles ==> Agree(a, b)
  }

  method AbsorbNext<D(==,!new)>(get: Bundle -> seq<Entry<D>>, bundles: seq<Bundle>, i: nat, m: seq<Entry<D>>)
    returns (r: Result<seq<Entry<D>>>)
    requires i < |bundles| && m == Union(get, bundles[..i]) && Unchanging(get, bundles[..i])
    ensures r.Ok? <==> Unchanging(get, bundles[..i + 1])
    ensures r.Ok? ==> r.value == Union(get, bundles[..i + 1])
  {
    Lists.FlatMapStep(get, bundles, i);
    r := AbsorbChecked(Whole<D>(), m, get(bundles[i]), Gather(get, bundles[..i]));
  }

  lemma PlatformsUnchanging(bundles: seq<Bundle>)
    ensures Unchanging(PlatformsOf, bundles)
  {
  }

  lemma UnchangingIffAgree(bundles: seq<Bundle>)
    ensures Unchanging(RuntimesOf, bundles) && Unchanging(MetricsOf, bundles) <==> AllAgree(bundles)
  {
    ConsistentIffAgree(Whole<RuntimeDefinition>(), RuntimesOf, bundles);
    ConsistentIffAgree(Whole<MetricDefinition>(), MetricsOf, bundles);
    forall a, b
      ensures Agree(a, b) <==>
        && AgreeOn(Whole<RuntimeDefinition>(), RuntimesOf(a), RuntimesOf(b))
        && AgreeOn(Whole<MetricDefinition>(), MetricsOf(a), MetricsOf(b))
    {
    }
  }

  lemma AllAgreePrefix(bundles: seq<Bundle>, i: nat)
    requires i <= |bundles|
    ensures AllAgree(bundles) ==> Unchanging(RuntimesOf, bundles[..i]) && Unchanging(MetricsOf, bundles[..i])
  {
    assert forall b :: b in bundles[..i] ==> b in bundles;
    UnchangingIffAgree(bundles[..i]);
  }

  method AbsorbCatalog(bundles: seq<Bundle>, i: nat, maps: Maps) returns (r: Result<Maps>)
    requires i < |bundles| && maps == UnionMaps(bundles[..i])
    requires Unchanging(RuntimesOf, bundles[..i]) && Unchanging(MetricsOf, bundles[..i])
    ensures r.Ok? <==> Unchanging(RuntimesOf, bundles[..i + 1]) && Unchanging(MetricsOf, bundles[..i + 1])
    ensures r.Ok? ==> r.value == UnionMaps(bundles[..i + 1])
  {
    var runtimes := AbsorbNext(RuntimesOf, bundles, i, maps.runtimes);
    if runtimes.Err? {
      return Err(runtimes.error);
    }
    PlatformsUnchanging(bundles[..i]);
    PlatformsUnchanging(bundles[..i + 1]);
    var platforms := AbsorbNext(PlatformsOf, bundles, i, maps.platforms);
    var metrics := AbsorbNext(MetricsOf, bundles, i, maps.metrics);
    if metrics.Err? {
      return Err(metrics.error);
    }
    return Ok(Maps(runtimes.value, platforms.value, metrics.value));
  }

  ghost predicate AllAlike(bundles: seq<Bundle>) {
    forall a, b :: a in bundles && b in bundles ==> a.source == b.source && DefinitionOf(a) == DefinitionOf(b)
  }

  ghost predicate LikeFirst(bundles: seq<Bundle>, first: Bundle) {
    forall b :: b in bundles ==> b.source == first.source && DefinitionOf(b) == DefinitionOf(first)
  }

  lemma LikeFirstStep(bundles: seq<Bundle>, i: nat)
    requires i < |bundles|
    ensures LikeFirst(bundles[..i + 1], bundles[0]) <==>
      && LikeFirst(bundles[..i], bundles[0])
      && bundles[i].source == bundles[0].source && DefinitionOf(bundles[i]) == DefinitionOf(bundles[0])
    ensures AllAlike(bundles) ==> LikeFirst(bundles[..i + 1], bundles[0])
    ensures LikeFirst(bundles, bundles[0]) ==> AllAlike(bundles)
  {
  }

  method ValidateHistory(bundles: seq<Bundle>) returns (r: Result<History>)
    ensures r.Ok? <==> ValidHistory(bundles)
    ensures r.Ok? ==> r.value == HistoryOf(bundles)
  {
    if bundles == [] {
      return Err(EmptyHistory);
    }
    var maps := Maps([], [], []);
    var keys: set<Text> := {};
    var first := bundles[0];
    for i := 0 to |bundles|
      invariant keys == RunKeysOf(bundles[..i]) && DistinctRuns(bundles[..i])
      invariant LikeFirst(bundles[..i], first)
      invariant maps == UnionMaps(bundles[..i])
      invariant Unchanging(RuntimesOf, bundles[..i]) && Unchanging(MetricsOf, bundles[..i])
    {
      var bundle := bundles[i];
      RunKeysStep(bundles, i);
      LikeFirstStep(bundles, i);
      if KeyOfRun(bundle) in keys {
        DistinctRunsPrefix(bundles, i + 1);
        return Err(DuplicateRun);
      }
      keys := keys + {KeyOfRun(bundle)};
      if bundle.source != first.source || DefinitionOf(bundle) != DefinitionOf(first) {
        return Err(IncompatibleHistory);
      }
      var collected := AbsorbCatalog(bundles, i, maps);
      if collected.Err? {
        AllAgreePrefix(bundles, i + 1);
        return Err(collected.error);
      }
      maps := collected.value;
    }
    assert bundles[..|bundles|] == bundles;
    LikeFirstStep(bundles, 0);
    UnchangingIffAgree(bundles);
    return Ok(History(first.source, maps.runtimes, maps.platforms, maps.metrics));
  }

  // ---------------------------------------------------------------- what a union shows

  /** The entry in the last bundle of a list that names an identifier. */
  function LatestEntry<D>(get: Bundle -> seq<Entry<D>>, g: seq<Bundle>, id: Text): Option<Entry<D>> {
    if g == [] then None
    else
      var own := Get(get(g[|g| - 1]), id);
      if own.Some? then own else LatestEntry(get, g[..|g| - 1], id)
  }

  lemma {:induction false} GetUnion<D>(get: Bundle -> seq<Entry<D>>, g: seq<Bundle>, id: Text)
    requires forall b :: b in g ==> DistinctIds(get(b))
    ensures Get(Union(get, g), id) == LatestEntry(get, g, id)
  {
    if g != [] {
      var front, last := g[..|g| - 1], g[|g| - 1];
      assert last in g && forall b :: b in front ==> b in g;
      GetUnion(get, front, id);
      assert Gather(get, g) == Gather(get, front) + get(last);
      AbsorbAppend([], Gather(get, front), get(last));
      AbsorbDistinct(get(last));
      GetAbsorb(Union(get, front), get(last), id);
    }
  }
}
