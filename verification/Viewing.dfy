/** What a visitor sees: every assembled site loads, and shows the histories of the store. */
module Viewing {
  import opened Texts
  import opened Bundles
  import opened Catalogs
  import opened Histories
  import opened Grouping
  import opened Store
  import opened Serving
  import opened Datasets
  import opened Dashboard
  import opened Site
  import Archival
  import Lists
  import Promotion
  import Protocol
  import Sorting

  // ---------------------------------------------------------------- served data can be fetched

  /** What assembly knows about the bundles of one data directory. */
  ghost predicate Servable(bundles: seq<Bundle>, preview: Option<Preview>) {
    && Acceptable(bundles)
    && (forall b :: b in bundles ==> Complete(b) && b.source == Published)
    && PendingServed(bundles, preview)
    && (preview.Some? ==> forall b :: b in bundles && preview.value.pending == Some(RunIdOf(b)) ==>
       FitsPreview(b, preview.value))
  }

  ghost predicate FitsPreview(b: Bundle, preview: Preview) {
    b.run.pullRequest.Some? && b.run.pullRequest.value.number == preview.number
      && b.run.pullRequest.value.head == preview.head
  }

  lemma ServedByRun(leq: Order, bundles: seq<Bundle>, i: nat)
    requires DistinctRuns(bundles) && i < |bundles|
    ensures
      var runs := RunsById(Served(leq, bundles));
      RunIdOf(bundles[i]) in runs && runs[RunIdOf(bundles[i])] == Served(leq, bundles)[i]
  {
    var served := Served(leq, bundles);
    assert DistinctRuns(served) by {
      assert forall j :: 0 <= j < |served| ==> RunOf(served[j]) == RunOf(bundles[j]);
    }
    Lists.KeyedMapValues(RunOf, SameBundle, served);
    assert RunOf(served[i]) == RunIdOf(bundles[i]);
  }

  lemma DataFetched(leq: Order, files: Files, bundles: seq<Bundle>, preview: Option<Preview>)
    requires TotalOrder(leq) && DistinctRuns(bundles)
    requires forall b :: b in bundles ==> Complete(b) && b.source == Published
    ensures
      var data := DataFor(leq, files, bundles, preview);
      AllFetchable(data) && Fetched(data) == Served(leq, bundles)
  {
    var data := DataFor(leq, files, bundles, preview);
    ServedComplete(leq, bundles);
    forall i | 0 <= i < |data.index.runs|
      ensures Fetchable(data, data.index.runs[i].run)
      ensures data.runs[data.index.runs[i].run] == Served(leq, bundles)[i]
    {
      ServedByRun(leq, bundles, i);
      assert bundles[i] in bundles;
    }
  }

  lemma PendingShown(leq: Order, files: Files, bundles: seq<Bundle>, preview: Option<Preview>)
    requires Servable(bundles, preview)
    ensures PendingFits(DataFor(leq, files, bundles, preview))
  {
    if preview.Some? && preview.value.pending.Some? {
      var i :| 0 <= i < |bundles| && RunIdOf(bundles[i]) == preview.value.pending.value;
      ServedByRun(leq, bundles, i);
      assert bundles[i] in bundles;
    }
  }

  // ---------------------------------------------------------------- the same selection

  lemma {:induction false} ContainingMap(f: Bundle -> Bundle, groups: seq<seq<Bundle>>, key: Text)
    requires ChangesCatalogs(f)
    ensures Containing(Lists.Map(OnGroups(f), groups), key) ==
      match Containing(groups, key) case None => None case Some(g) => Some(OnGroups(f)(g))
  {
    if groups != [] {
      ContainingMap(f, groups[1..], key);
      assert Lists.Map(OnGroups(f), groups)[1..] == Lists.Map(OnGroups(f), groups[1..]);
      HasKeyMap(f, groups[0], key);
    }
  }

  lemma HasKeyMap(f: Bundle -> Bundle, g: seq<Bundle>, key: Text)
    requires ChangesCatalogs(f)
    ensures (exists b <- Lists.Map(f, g) :: KeyOfRun(b) == key) <==> exists b <- g :: KeyOfRun(b) == key
  {
    var rewritten := Lists.Map(f, g);
    forall i | 0 <= i < |g|
      ensures KeyOfRun(rewritten[i]) == KeyOfRun(g[i]) && rewritten[i] in rewritten && g[i] in g
    {
    }
  }

  lemma {:induction false} WithVersionMap(f: Bundle -> Bundle, groups: seq<seq<Bundle>>, version: Text)
    requires ChangesCatalogs(f)
    ensures WithVersion(Lists.Map(OnGroups(f), groups), version) ==
      match WithVersion(groups, version) case None => None case Some(g) => Some(OnGroups(f)(g))
  {
    if groups != [] {
      WithVersionMap(f, groups[1..], version);
      assert Lists.Map(OnGroups(f), groups)[1..] == Lists.Map(OnGroups(f), groups[1..]);
    }
  }

  lemma RequestMap(f: Bundle -> Bundle, groups: seq<seq<Bundle>>, versions: seq<Text>)
    requires ChangesCatalogs(f)
    ensures GoodRequest(Lists.Map(OnGroups(f), groups), versions) <==> GoodRequest(groups, versions)
    ensures GoodRequest(groups, versions) ==>
      Requested(Lists.Map(OnGroups(f), groups), versions) == Lists.Map(OnGroups(f), Requested(groups, versions))
  {
    forall i | 0 <= i < |versions|
      ensures WithVersion(Lists.Map(OnGroups(f), groups), versions[i]) ==
        match WithVersion(groups, versions[i]) case None => None case Some(g) => Some(OnGroups(f)(g))
    {
      WithVersionMap(f, groups, versions[i]);
    }
  }

  /** Rewriting does not change which histories are selected. */
  lemma SelectionMap(f: Bundle -> Bundle, groups: seq<seq<Bundle>>, index: SiteIndex, versions: Option<seq<Text>>,
                     selectedRun: Option<Text>)
    requires ChangesCatalogs(f) && groups != [] && (versions.Some? ==> GoodRequest(groups, versions.value))
    ensures Selection(Lists.Map(OnGroups(f), groups), index, versions, selectedRun) ==
      Lists.Map(OnGroups(f), Selection(groups, index, versions, selectedRun))
  {
    if versions.Some? {
      RequestMap(f, groups, versions.value);
    } else {
      if selectedRun.Some? {
        ContainingMap(f, groups, selectedRun.value);
      }
      if PendingOf(index).Some? {
        ContainingMap(f, groups, RunKey(PendingOf(index).value));
      }
    }
  }

  // ---------------------------------------------------------------- the same datasets

  function Rebundle(f: Bundle -> Bundle): Summary -> Summary {
    (s: Summary) => s.(bundle := f(s.bundle))
  }

  lemma {:induction false} FlatMapSame<U>(get: Bundle -> seq<U>, f: Bundle -> Bundle, g: seq<Bundle>)
    requires forall b :: get(f(b)) == get(b)
    ensures Lists.FlatMap(get, Lists.Map(f, g)) == Lists.FlatMap(get, g)
  {
    if g != [] {
      FlatMapSame(get, f, g[..|g| - 1]);
      assert Lists.Map(f, g)[..|g| - 1] == Lists.Map(f, g[..|g| - 1]);
    }
  }

  lemma {:induction false} RowsSame(b: Bundle, c: Bundle, measurements: seq<Measurement>)
    requires c == b.(catalog := c.catalog)
    ensures Lists.FlatMap(RowIn(c), measurements) == Lists.FlatMap(RowIn(b), measurements)
  {
    if measurements != [] {
      RowsSame(b, c, measurements[..|measurements| - 1]);
    }
  }

  lemma RowsKept(f: Bundle -> Bundle)
    requires ChangesCatalogs(f)
    ensures forall b :: RowsOf(f(b)) == RowsOf(b)
  {
    forall b: Bundle
      ensures RowsOf(f(b)) == RowsOf(b)
    {
      RowsSame(b, f(b), b.measurements);
    }
  }

  lemma SameInOrder(leq: Order, bundles: seq<Bundle>, g: seq<Bundle>)
    requires TotalOrder(leq) && g in HistoriesOf(leq, bundles) && g != []
    ensures
      var f := Rewriting(leq, bundles);
      && Lists.Map(f, g) != []
      && DatasetInOrder(Lists.Map(f, g)) == DatasetInOrder(g).(runs := Lists.Map(Rebundle(f), DatasetInOrder(g).runs))
  {
    var f := Rewriting(leq, bundles);
    RewrittenGroup(leq, bundles, g);
    RowsKept(f);
    FlatMapSame(RowsOf, f, g);
    assert CatalogOf(Lists.Map(f, g)) == CatalogOf(g);
    assert Lists.Map(Summarize, Lists.Map(f, g)) == Lists.Map(Rebundle(f), Lists.Map(Summarize, g));
  }

  lemma RewrittenInOrder(leq: Order, bundles: seq<Bundle>, g: seq<Bundle>)
    requires Sorting.Sort(RunOrder(leq), g) == g
    ensures
      var h := OnGroups(Rewriting(leq, bundles))(g);
      Sorting.Sort(RunOrder(leq), h) == h
  {
    SortRunsMap(leq, Rewriting(leq, bundles), g);
  }

  /** A rewritten history has the dataset of the history in the store: the same catalog lists, the same
      runs and the same rows, with the rewritten bundles attached to the runs. */
  lemma SameDataset(leq: Order, bundles: seq<Bundle>, g: seq<Bundle>)
    requires TotalOrder(leq) && Acceptable(bundles) && g in HistoriesOf(leq, bundles)
    requires forall b :: b in bundles ==> Parses(b)
    ensures
      var f := Rewriting(leq, bundles);
      && g != [] && OnGroups(f)(g) != []
      && DatasetOf(leq, OnGroups(f)(g)) == DatasetOf(leq, g).(runs := Lists.Map(Rebundle(f), DatasetOf(leq, g).runs))
  {
    GroupGood(leq, bundles, g);
    SameInOrder(leq, bundles, g);
    RewrittenInOrder(leq, bundles, g);
  }

  // ---------------------------------------------------------------- versions shown together

  lemma {:induction false} FlatMapOnGroups(f: Bundle -> Bundle, groups: seq<seq<Bundle>>)
    ensures Flat(Lists.Map(OnGroups(f), groups)) == Lists.Map(f, Flat(groups))
  {
    if groups != [] {
      var front := groups[..|groups| - 1];
      FlatMapOnGroups(f, front);
      assert Lists.Map(OnGroups(f), groups)[..|groups| - 1] == Lists.Map(OnGroups(f), front);
    }
  }

  /** The union has an entry of the same identifier and definition. */
  lemma InUnion(leq: Order, bundles: seq<Bundle>, a: Bundle, e: Metric) returns (kept: Metric)
    requires TotalOrder(leq) && Acceptable(bundles) && a in bundles && e in MetricsOf(a)
    ensures kept in MetricsOf(Rewriting(leq, bundles)(a)) && kept.id == e.id && kept.definition == e.definition
  {
    var g := GroupIn(leq, bundles, a);
    OwnGroup(leq, bundles, a);
    HistoriesMembers(leq, bundles);
    UnionMeans(MetricsOf, g, a);
    HasIdMeans(MetricsOf(a), e);
    assert HasId(Union(MetricsOf, g), e.id);
    var i :| 0 <= i < |Union(MetricsOf, g)| && Union(MetricsOf, g)[i].id == e.id;
    kept := Union(MetricsOf, g)[i];
    assert kept in Union(MetricsOf, g);
    var c :| c in g && kept in MetricsOf(c);
    assert Compatible(a, c);
  }

  /** An entry of the union comes from a bundle of the same history. */
  lemma FromUnion(leq: Order, bundles: seq<Bundle>, a: Bundle, e: Metric) returns (source: Bundle)
    requires TotalOrder(leq) && a in bundles && e in MetricsOf(Rewriting(leq, bundles)(a))
    ensures source in GroupIn(leq, bundles, a) && e in MetricsOf(source)
  {
    OwnGroup(leq, bundles, a);
    UnionMeans(MetricsOf, GroupIn(leq, bundles, a), a);
    source :| source in GroupIn(leq, bundles, a) && e in MetricsOf(source);
  }

  ghost predicate WholeHistories(leq: Order, bundles: seq<Bundle>, part: seq<Bundle>) {
    forall b :: b in part ==> b in bundles && forall c :: c in GroupIn(leq, bundles, b) ==> c in part
  }

  lemma AgreementKept(leq: Order, bundles: seq<Bundle>, part: seq<Bundle>, a: Bundle, b: Bundle)
    requires TotalOrder(leq) && WholeHistories(leq, bundles, part) && UnitsAgree(part) && a in part && b in part
    ensures
      var f := Rewriting(leq, bundles);
      AgreeOn(Units, MetricsOf(f(a)), MetricsOf(f(b)))
  {
    var f := Rewriting(leq, bundles);
    forall e, h | e in MetricsOf(f(a)) && h in MetricsOf(f(b)) && e.id == h.id
      ensures Units(e.definition) == Units(h.definition)
    {
      var c := FromUnion(leq, bundles, a, e);
      var d := FromUnion(leq, bundles, b, h);
      assert AgreeOn(Units, MetricsOf(c), MetricsOf(d));
    }
  }

  lemma UnitsKept(leq: Order, bundles: seq<Bundle>, part: seq<Bundle>)
    requires TotalOrder(leq) && WholeHistories(leq, bundles, part) && UnitsAgree(part)
    ensures UnitsAgree(Lists.Map(Rewriting(leq, bundles), part))
  {
    var f := Rewriting(leq, bundles);
    var rewritten := Lists.Map(f, part);
    forall a, b | a in rewritten && b in rewritten
      ensures AgreeOn(Units, MetricsOf(a), MetricsOf(b))
    {
      var i :| 0 <= i < |part| && rewritten[i] == a;
      var j :| 0 <= j < |part| && rewritten[j] == b;
      AgreementKept(leq, bundles, part, part[i], part[j]);
    }
  }

  lemma UnitsReflected(leq: Order, bundles: seq<Bundle>, part: seq<Bundle>)
    requires TotalOrder(leq) && Acceptable(bundles) && WholeHistories(leq, bundles, part)
    requires UnitsAgree(Lists.Map(Rewriting(leq, bundles), part))
    ensures UnitsAgree(part)
  {
    var f := Rewriting(leq, bundles);
    var rewritten := Lists.Map(f, part);
    forall a, b, e, h | a in part && b in part && e in MetricsOf(a) && h in MetricsOf(b) && e.id == h.id
      ensures Units(e.definition) == Units(h.definition)
    {
      var i :| 0 <= i < |part| && part[i] == a;
      var j :| 0 <= j < |part| && part[j] == b;
      assert rewritten[i] in rewritten && rewritten[j] in rewritten;
      var k := InUnion(leq, bundles, a, e);
      var l := InUnion(leq, bundles, b, h);
      assert AgreeOn(Units, MetricsOf(rewritten[i]), MetricsOf(rewritten[j]));
    }
  }

  lemma SelectedWhole(leq: Order, bundles: seq<Bundle>, selected: seq<seq<Bundle>>)
    requires TotalOrder(leq) && forall i :: 0 <= i < |selected| ==> selected[i] in HistoriesOf(leq, bundles)
    ensures WholeHistories(leq, bundles, Flat(selected))
  {
    HistoriesMembers(leq, bundles);
    forall b | b in Flat(selected)
      ensures b in bundles
      ensures forall c :: c in GroupIn(leq, bundles, b) ==> c in Flat(selected)
    {
      Lists.FlatMapIn(Members, selected, b);
      var i :| 0 <= i < |selected| && b in Members(selected[i]);
      MemberGroup(leq, bundles, selected[i], b);
      forall c | c in selected[i]
        ensures c in Flat(selected)
      {
        Lists.FlatMapIn(Members, selected, c);
        assert c in Members(selected[i]);
      }
    }
  }

  /** Which versions can be shown together does not change either. */
  lemma CanShowServed(leq: Order, bundles: seq<Bundle>, versions: Option<seq<Text>>)
    requires TotalOrder(leq) && Acceptable(bundles)
    ensures CanShow(HistoriesOf(leq, Served(leq, bundles)), versions) <==> CanShow(HistoriesOf(leq, bundles), versions)
  {
    var f, groups := Rewriting(leq, bundles), HistoriesOf(leq, bundles);
    ServedHistories(leq, bundles);
    if versions.Some? {
      RequestMap(f, groups, versions.value);
      if GoodRequest(groups, versions.value) {
        var selected := Requested(groups, versions.value);
        forall i | 0 <= i < |selected|
          ensures selected[i] in groups
        {
          WithVersionMeans(groups, versions.value[i]);
        }
        UnitsServed(leq, bundles, selected);
      }
    }
  }

  lemma UnitsServed(leq: Order, bundles: seq<Bundle>, selected: seq<seq<Bundle>>)
    requires TotalOrder(leq) && Acceptable(bundles)
    requires forall i :: 0 <= i < |selected| ==> selected[i] in HistoriesOf(leq, bundles)
    ensures UnitsAgree(Flat(Lists.Map(OnGroups(Rewriting(leq, bundles)), selected))) <==> UnitsAgree(Flat(selected))
  {
    var f := Rewriting(leq, bundles);
    SelectedWhole(leq, bundles, selected);
    FlatMapOnGroups(f, selected);
    if UnitsAgree(Flat(selected)) {
      UnitsKept(leq, bundles, Flat(selected));
    }
    if UnitsAgree(Lists.Map(f, Flat(selected))) {
      UnitsReflected(leq, bundles, Flat(selected));
    }
  }

  // ---------------------------------------------------------------- every assembled site loads

  lemma GoodIndexFor(files: Files, bundles: seq<Bundle>, preview: Option<Preview>)
    requires DistinctRuns(bundles) && PendingServed(bundles, preview)
    ensures GoodIndex(IndexFor(files, bundles, preview))
  {
    var runs := IndexFor(files, bundles, preview).runs;
    forall i | 0 <= i < |bundles|
      ensures runs[i].run == RunOf(bundles[i])
    {
    }
  }

  lemma LoadableIff(leq: Order, data: SiteData, bundles: seq<Bundle>, versions: Option<seq<Text>>)
    requires GoodIndex(data.index) && AllFetchable(data) && Fetched(data) == bundles && PendingFits(data)
    requires Acceptable(bundles)
    ensures Loadable(leq, data, versions) <==> data.index.runs == [] || CanShow(HistoriesOf(leq, bundles), versions)
  {
  }

  /** A served data directory loads with any selection that its histories in the store allow. */
  lemma DataLoads(leq: Order, files: Files, bundles: seq<Bundle>, preview: Option<Preview>, versions: Option<seq<Text>>)
    requires TotalOrder(leq) && Servable(bundles, preview)
    ensures bundles != [] ==>
      (Loadable(leq, DataFor(leq, files, bundles, preview), versions) <==> CanShow(HistoriesOf(leq, bundles), versions))
    ensures Loadable(leq, DataFor(leq, files, bundles, preview), None)
  {
    DataFetched(leq, files, bundles, preview);
    PendingShown(leq, files, bundles, preview);
    ServedAcceptable(leq, bundles);
    CanShowServed(leq, bundles, versions);
    GoodIndexFor(files, bundles, preview);
    LoadableIff(leq, DataFor(leq, files, bundles, preview), Served(leq, bundles), versions);
    LoadableIff(leq, DataFor(leq, files, bundles, preview), Served(leq, bundles), None);
  }

  lemma PublishedServable(files: Files)
    requires PublishedServes(files)
    ensures Servable(PublishedRuns(files), None)
  {
  }

  lemma PreviewServable(files: Files, repository: Text, build: Build)
    requires PublishedServes(files) && BuildServes(files, repository, build, PublishedRuns(files))
    ensures
      var published := PublishedRuns(files);
      Servable(PreviewBundles(files, repository, build, published),
               Some(PreviewFor(files, repository, build, published)))
  {
    var published := PublishedRuns(files);
    var pending := PendingRun(files, repository, build, published);
    if pending.Some? {
      var bundles := PreviewBundles(files, repository, build, published);
      assert bundles[|published|] == pending.value;
      assert RunIdOf(bundles[|published|]) == files.pointers[build.number].run;
    }
  }

  lemma PreviewPlaced(leq: Order, files: Files, repository: Text, builds: seq<Build>, i: nat)
    requires Assembles(files, repository, builds) && i < |builds|
    ensures
      var published, previews := PublishedRuns(files), SiteOf(leq, files, repository, builds).previews;
      && builds[i].number in previews
      && previews[builds[i].number] == PreviewData(leq, files, repository, builds[i], published)
  {
    var value := PreviewOf(leq, files, repository, PublishedRuns(files));
    Lists.KeyedMapValues(BuildNumber, value, builds);
    assert BuildNumber(builds[i]) == builds[i].number
      && value(builds[i]) == PreviewData(leq, files, repository, builds[i], PublishedRuns(files));
  }

  /** Any site that assembly completes is accepted by the dashboard, for production and every preview. */
  lemma SiteLoads(leq: Order, files: Files, repository: Text, builds: seq<Build>)
    requires TotalOrder(leq) && Assembles(files, repository, builds)
    ensures
      var site := SiteOf(leq, files, repository, builds);
      && Loadable(leq, site.production, None)
      && forall i :: 0 <= i < |builds| ==>
        builds[i].number in site.previews && Loadable(leq, site.previews[builds[i].number], None)
  {
    var site, published := SiteOf(leq, files, repository, builds), PublishedRuns(files);
    PublishedServable(files);
    DataLoads(leq, files, published, None, None);
    forall i | 0 <= i < |builds|
      ensures builds[i].number in site.previews && Loadable(leq, site.previews[builds[i].number], None)
    {
      PreviewPlaced(leq, files, repository, builds, i);
      PreviewServable(files, repository, builds[i]);
      DataLoads(leq, files, PreviewBundles(files, repository, builds[i], published),
                Some(PreviewFor(files, repository, builds[i], published)), None);
    }
  }

  /** What the dashboard shows of a history of the store. */
  ghost predicate ShowsHistory(leq: Order, groups: seq<seq<Bundle>>, g: seq<Bundle>, view: View)
    requires g != []
  {
    && view.shown == [g[0].benchmark.version] && view.histories == VersionsIn(groups)
    && ShowsDataset(DatasetOf(leq, g), view)
  }

  ghost predicate ShowsDataset(stored: Dataset, view: View) {
    var shown := view.dataset;
    && shown.source == stored.source && shown.rows == stored.rows
    && shown.runtimes == stored.runtimes && shown.platforms == stored.platforms && shown.metrics == stored.metrics
    && |shown.runs| == |stored.runs|
    && forall i :: 0 <= i < |shown.runs| ==>
      && shown.runs[i].id == stored.runs[i].id && shown.runs[i].date == stored.runs[i].date
      && shown.runs[i].runners == stored.runs[i].runners
  }

  lemma OneView(leq: Order, index: SiteIndex, groups: seq<seq<Bundle>>, h: seq<Bundle>)
    requires h != []
    ensures
      var view, dataset := ViewOf(leq, index, groups, [h]), DatasetOf(leq, h);
      && view.shown == [h[0].benchmark.version] && view.histories == VersionsIn(groups)
      && view.dataset == dataset.(runs := Lists.Map(Shown(index.runs), dataset.runs))
  {
  }

  lemma VersionsMap(f: Bundle -> Bundle, groups: seq<seq<Bundle>>)
    requires ChangesCatalogs(f)
    ensures VersionsIn(Lists.Map(OnGroups(f), groups)) == VersionsIn(groups)
  {
  }

  lemma DatasetShown(index: SiteIndex, f: Bundle -> Bundle, stored: Dataset, view: View)
    requires
      var loaded := stored.(runs := Lists.Map(Rebundle(f), stored.runs));
      view.dataset == loaded.(runs := Lists.Map(Shown(index.runs), loaded.runs))
    ensures ShowsDataset(stored, view)
  {
  }

  /** One shown history has the catalog lists, runs and rows that it has in the store. */
  lemma OneVersionSeen(leq: Order, files: Files, bundles: seq<Bundle>, preview: Option<Preview>,
                       versions: Option<seq<Text>>, selectedRun: Option<Text>, view: View)
    requires TotalOrder(leq) && Servable(bundles, preview) && bundles != []
    requires CanShow(HistoriesOf(leq, bundles), versions) && (versions.Some? ==> |versions.value| == 1)
    requires
      var data := DataFor(leq, files, bundles, preview);
      AllFetchable(data) ==>
        ShowsSelection(leq, data.index, HistoriesOf(leq, Fetched(data)), versions, selectedRun, view)
    ensures
      var groups := HistoriesOf(leq, bundles);
      && groups != []
      && var g := if versions.Some? then WithVersion(groups, versions.value[0]).GetOr([])
                  else DefaultGroup(groups, selectedRun, PendingOf(IndexFor(files, bundles, preview)));
         g in groups && g != [] && ShowsHistory(leq, groups, g, view)
  {
    var index, f, groups := IndexFor(files, bundles, preview), Rewriting(leq, bundles), HistoriesOf(leq, bundles);
    DataFetched(leq, files, bundles, preview);
    ServedHistories(leq, bundles);
    HistoriesNewestFirst(leq, bundles);
    SelectedOne(leq, f, groups, index, versions, selectedRun, view);
    var g := Selection(groups, index, versions, selectedRun)[0];
    SeenAsStored(leq, bundles, g, index, view);
  }

  lemma SelectedOne(leq: Order, f: Bundle -> Bundle, groups: seq<seq<Bundle>>, index: SiteIndex,
                    versions: Option<seq<Text>>, selectedRun: Option<Text>, view: View)
    requires ChangesCatalogs(f) && groups != []
    requires versions.Some? ==> |versions.value| == 1 && GoodRequest(groups, versions.value)
    requires ShowsSelection(leq, index, Lists.Map(OnGroups(f), groups), versions, selectedRun, view)
    ensures
      var selected := Selection(groups, index, versions, selectedRun);
      && |selected| == 1 && selected[0] in groups
      && view == ViewOf(leq, index, Lists.Map(OnGroups(f), groups), [OnGroups(f)(selected[0])])
  {
    SelectionMap(f, groups, index, versions, selectedRun);
    SelectedGroups(groups, index, versions, selectedRun);
    OneMapped(f, Selection(groups, index, versions, selectedRun));
  }

  lemma OneMapped(f: Bundle -> Bundle, groups: seq<seq<Bundle>>)
    requires |groups| == 1
    ensures Lists.Map(OnGroups(f), groups) == [OnGroups(f)(groups[0])]
  {
  }

  lemma SeenAsStored(leq: Order, bundles: seq<Bundle>, g: seq<Bundle>, index: SiteIndex, view: View)
    requires TotalOrder(leq) && Acceptable(bundles) && g in HistoriesOf(leq, bundles)
    requires forall b :: b in bundles ==> Parses(b)
    requires
      var f := Rewriting(leq, bundles);
      view == ViewOf(leq, index, Lists.Map(OnGroups(f), HistoriesOf(leq, bundles)), [OnGroups(f)(g)])
    ensures g != [] && ShowsHistory(leq, HistoriesOf(leq, bundles), g, view)
  {
    var f, groups := Rewriting(leq, bundles), HistoriesOf(leq, bundles);
    SameDataset(leq, bundles, g);
    OneView(leq, index, Lists.Map(OnGroups(f), groups), OnGroups(f)(g));
    VersionsMap(f, groups);
    DatasetShown(index, f, DatasetOf(leq, g), view);
  }

  // ---------------------------------------------------------------- what the indexes name

  /** A preview adds a run exactly when it is to include pending runs, its pointer names a stored run that
      was measured for its very revision, and the index does not publish that run already. */
  ghost predicate AddsPending(files: Files, repository: Text, build: Build) {
    && build.includePending && build.number in files.pointers
    && files.pointers[build.number].run in files.runs
    && var b := files.runs[files.pointers[build.number].run];
       && b.run.pullRequest == Some(PullRequest(repository, build.number, build.head, build.base))
       && forall e :: e in IndexOf(files) ==> e.run != RunIdOf(b)
  }

  /** What the index of a preview names, compared with production. */
  ghost predicate NamesPending(files: Files, repository: Text, build: Build, production: SiteIndex,
                               preview: SiteIndex) {
    if AddsPending(files, repository, build) then
      var run := files.pointers[build.number].run;
      && preview.runs == production.runs + [IndexEntry(run, None)]
      && preview.preview == Some(Preview(build.number, build.head, Some(run)))
    else
      && preview.runs == production.runs
      && preview.preview == Some(Preview(build.number, build.head, None))
  }

  /** The production index names exactly the published runs in index order. A preview names the same
      entries, and its pending run after them exactly when it adds one. */
  lemma IndexesExact(leq: Order, files: Files, repository: Text, builds: seq<Build>)
    requires TotalOrder(leq) && Assembles(files, repository, builds)
    ensures
      var site := SiteOf(leq, files, repository, builds);
      var production := site.production.index;
      && production.preview == None
      && |production.runs| == |IndexOf(files)|
      && (forall i :: 0 <= i < |IndexOf(files)| ==> production.runs[i].run == IndexOf(files)[i].run)
      && forall i :: 0 <= i < |builds| ==>
        && builds[i].number in site.previews
        && var preview := site.previews[builds[i].number].index;
           && NamesPending(files, repository, builds[i], production, preview)
           && (|preview.runs| == |production.runs| + 1 <==> AddsPending(files, repository, builds[i]))
  {
    var site, published := SiteOf(leq, files, repository, builds), PublishedRuns(files);
    var production := site.production.index;
    forall i | 0 <= i < |IndexOf(files)|
      ensures production.runs[i].run == IndexOf(files)[i].run
    {
      assert IndexOf(files)[i] in IndexOf(files);
      assert production.runs[i].run == RunIdOf(published[i]);
    }
    forall i | 0 <= i < |builds|
      ensures builds[i].number in site.previews
      ensures NamesPending(files, repository, builds[i], production, site.previews[builds[i].number].index)
    {
      PreviewPlaced(leq, files, repository, builds, i);
      PreviewNames(leq, files, repository, builds[i]);
    }
  }

  lemma PublishedKeys(files: Files, b: Bundle)
    requires AllReadable(files, IndexOf(files))
    ensures (exists other <- PublishedRuns(files) :: KeyOfRun(other) == KeyOfRun(b)) <==>
      exists e :: e in IndexOf(files) && e.run == RunIdOf(b)
  {
    var published := PublishedRuns(files);
    if other :| other in published && KeyOfRun(other) == KeyOfRun(b) {
      RunKeyInjective(RunIdOf(other), RunIdOf(b));
      var i :| 0 <= i < |published| && published[i] == other;
      assert IndexOf(files)[i] in IndexOf(files);
    }
    if e :| e in IndexOf(files) && e.run == RunIdOf(b) {
      var i :| 0 <= i < |IndexOf(files)| && IndexOf(files)[i] == e;
      assert published[i] in published;
    }
  }

  lemma PendingRunIff(files: Files, repository: Text, build: Build)
    requires AllReadable(files, IndexOf(files)) && PendingReadable(files, build)
    ensures
      PendingRun(files, repository, build, PublishedRuns(files)) ==
      if AddsPending(files, repository, build) then Some(files.runs[files.pointers[build.number].run]) else None
  {
    if build.includePending && build.number in files.pointers {
      PublishedKeys(files, files.runs[files.pointers[build.number].run]);
    }
  }

  lemma PreviewNames(leq: Order, files: Files, repository: Text, build: Build)
    requires AllReadable(files, IndexOf(files)) && PendingReadable(files, build)
    ensures
      var published := PublishedRuns(files);
      NamesPending(files, repository, build, IndexFor(files, published, None),
                   PreviewData(leq, files, repository, build, published).index)
  {
    var published := PublishedRuns(files);
    PendingRunIff(files, repository, build);
    if AddsPending(files, repository, build) {
      var b := files.runs[files.pointers[build.number].run];
      UnpublishedEntry(files, b);
      var entry := EntryFor(files);
      assert Lists.Map(entry, published + [b]) == Lists.Map(entry, published) + [entry(b)];
    }
  }

  lemma UnpublishedEntry(files: Files, b: Bundle)
    requires forall e :: e in IndexOf(files) ==> e.run != RunIdOf(b)
    ensures EntryFor(files)(b) == IndexEntry(RunIdOf(b), None)
  {
    forall i | 0 <= i < |IndexOf(files)|
      ensures IndexOf(files)[i].run != RunIdOf(b)
    {
      assert IndexOf(files)[i] in IndexOf(files);
    }
  }

  /** Every index entry names a complete measured run, no run twice, and a record for its pull request
      vouches for it. */
  ghost predicate IndexVouched(files: Files) {
    && (forall i, j :: 0 <= i < j < |IndexOf(files)| ==> IndexOf(files)[i].run != IndexOf(files)[j].run)
    && forall e :: e in IndexOf(files) ==>
      && e.run in files.runs && Complete(files.runs[e.run]) && files.runs[e.run].source == Published
      && RunIdOf(files.runs[e.run]) == e.run
      && (files.runs[e.run].run.pullRequest.Some? &&
          files.runs[e.run].run.pullRequest.value.number in files.publications ==>
          Vouches(files.runs[e.run], files.publications[files.runs[e.run].run.pullRequest.value.number]))
  }

  /** The pointer of a build that includes pending runs names a complete measured run, which can be grouped
      with the published ones if it is added. */
  ghost predicate BuildFits(files: Files, repository: Text, build: Build)
    requires AllReadable(files, IndexOf(files))
  {
    build.includePending && build.number in files.pointers ==>
      && Readable(files, files.pointers[build.number].run)
      && (AddsPending(files, repository, build) ==>
          Acceptable(BundlesAt(files, IndexOf(files)) + [files.runs[files.pointers[build.number].run]]))
  }

  /** Assembly succeeds exactly under these conditions on the store and the builds. */
  lemma AssemblesIff(files: Files, repository: Text, builds: seq<Build>)
    ensures Assembles(files, repository, builds) <==>
      && IndexVouched(files) && AllReadable(files, IndexOf(files))
      && Acceptable(BundlesAt(files, IndexOf(files)))
      && (forall i, j :: 0 <= i < j < |builds| ==> builds[i].number != builds[j].number)
      && forall i :: 0 <= i < |builds| ==> BuildFits(files, repository, builds[i])
  {
    if AllReadable(files, IndexOf(files)) {
      PublishedServesIff(files);
      DistinctNumbers(builds);
      if PublishedServes(files) {
        forall i | 0 <= i < |builds|
          ensures BuildServes(files, repository, builds[i], PublishedRuns(files)) <==>
            BuildFits(files, repository, builds[i])
        {
          BuildServesIff(files, repository, builds[i]);
        }
      }
    }
  }

  lemma DistinctNumbers(builds: seq<Build>)
    ensures Lists.DistinctBy(BuildNumber, builds) <==>
      forall i, j :: 0 <= i < j < |builds| ==> builds[i].number != builds[j].number
  {
  }

  lemma DisplayedIff(files: Files, b: Bundle)
    ensures RecordOf(files, b) ==
      if (exists e :: e in IndexOf(files) && e.run == RunIdOf(b)) && b.run.pullRequest.Some? &&
        b.run.pullRequest.value.number in files.publications
      then Some(files.publications[b.run.pullRequest.value.number]) else None
  {
    if e :| e in IndexOf(files) && e.run == RunIdOf(b) {
      var i :| 0 <= i < |IndexOf(files)| && IndexOf(files)[i] == e;
      assert IndexOf(files)[i].run == RunIdOf(b);
    }
    if Included(IndexOf(files), RunIdOf(b)) {
      var i :| 0 <= i < |IndexOf(files)| && IndexOf(files)[i].run == RunIdOf(b);
      assert IndexOf(files)[i] in IndexOf(files);
    }
  }

  lemma ServedIndexVouched(files: Files)
    requires PublishedServes(files)
    ensures IndexVouched(files)
  {
    var runs, published := IndexOf(files), PublishedRuns(files);
    forall i, j | 0 <= i < j < |runs|
      ensures runs[i].run != runs[j].run
    {
      assert EntryRun(runs[i]) != EntryRun(runs[j]);
    }
    forall e | e in runs && files.runs[e.run].run.pullRequest.Some? &&
        files.runs[e.run].run.pullRequest.value.number in files.publications
      ensures Vouches(files.runs[e.run], files.publications[files.runs[e.run].run.pullRequest.value.number])
    {
      var i :| 0 <= i < |runs| && runs[i] == e;
      DisplayedIff(files, published[i]);
    }
  }

  lemma VouchedDisplayable(files: Files)
    requires AllReadable(files, IndexOf(files)) && IndexVouched(files)
    ensures Displayable(files, PublishedRuns(files))
  {
    var runs, published := IndexOf(files), PublishedRuns(files);
    forall i | 0 <= i < |published| && RecordOf(files, published[i]).Some?
      ensures Vouches(published[i], RecordOf(files, published[i]).value)
    {
      assert runs[i] in runs;
      DisplayedIff(files, published[i]);
    }
  }

  lemma PublishedServesIff(files: Files)
    requires AllReadable(files, IndexOf(files))
    ensures PublishedServes(files) <==> IndexVouched(files) && Acceptable(BundlesAt(files, IndexOf(files)))
  {
    if PublishedServes(files) {
      ServedIndexVouched(files);
    }
    if IndexVouched(files) {
      VouchedDisplayable(files);
    }
  }

  lemma BuildServesIff(files: Files, repository: Text, build: Build)
    requires PublishedServes(files)
    ensures BuildServes(files, repository, build, PublishedRuns(files)) <==> BuildFits(files, repository, build)
  {
    var published := PublishedRuns(files);
    if PendingReadable(files, build) {
      PendingRunIff(files, repository, build);
      if AddsPending(files, repository, build) {
        var b := files.runs[files.pointers[build.number].run];
        UnpublishedEntry(files, b);
        DisplayedIff(files, b);
        assert Displayable(files, published + [b]);
      }
    }
  }

  /** What production serves does not depend on what is pending, or on the previews. */
  lemma ProductionIgnoresPending(leq: Order, files: Files, others: Files, repository: Text, builds: seq<Build>,
                                 otherBuilds: seq<Build>)
    requires PublishedServes(files)
    requires files.runs == others.runs && files.publications == others.publications && IndexOf(files) == IndexOf(others)
    ensures PublishedServes(others)
    ensures SiteOf(leq, files, repository, builds).production == SiteOf(leq, others, repository, otherBuilds).production
  {
    var published := PublishedRuns(files);
    forall b: Bundle
      ensures RecordOf(files, b) == RecordOf(others, b) && EntryFor(files)(b) == EntryFor(others)(b)
    {
    }
    assert Lists.Map(EntryFor(files), published) == Lists.Map(EntryFor(others), published);
  }

  // ---------------------------------------------------------------- stores that the protocol keeps

  lemma PublishedDisplayed(files: Files)
    requires Promotion.Intact(files)
    ensures PublishedServes(files)
  {
  }

  ghost predicate PointersStored(files: Files) {
    forall n :: n in files.pointers ==> files.pointers[n].run in files.runs
  }

  /** A store that the protocol keeps can always be assembled, unless two previews are for the same pull
      request or a pending run cannot be grouped with the published ones. */
  lemma IntactStoreAssembles(files: Files, repository: Text, builds: seq<Build>)
    requires Promotion.Intact(files) && PointersStored(files)
    ensures Assembles(files, repository, builds) <==>
      && Lists.DistinctBy(BuildNumber, builds)
      && forall i :: 0 <= i < |builds| ==>
         Acceptable(PreviewBundles(files, repository, builds[i], PublishedRuns(files)))
  {
    PublishedDisplayed(files);
    forall i | 0 <= i < |builds|
      ensures
        BuildServes(files, repository, builds[i], PublishedRuns(files)) <==>
        Acceptable(PreviewBundles(files, repository, builds[i], PublishedRuns(files)))
    {
      IntactBuildServes(files, repository, builds[i]);
    }
  }

  lemma IntactBuildServes(files: Files, repository: Text, build: Build)
    requires PendingReadable(files, build) && AllReadable(files, IndexOf(files))
    requires Displayable(files, PublishedRuns(files))
    ensures
      BuildServes(files, repository, build, PublishedRuns(files)) <==>
      Acceptable(PreviewBundles(files, repository, build, PublishedRuns(files)))
  {
  }

  /** Every store that any processes reach, with crashes anywhere, can be assembled under those conditions
      and no others. */
  lemma ReachableStoreAssembles(leq: Order, s: Protocol.State, actions: seq<Protocol.Action>, repository: Text,
                                builds: seq<Build>)
    requires TotalOrder(leq) && Protocol.Quiet(s) && Archival.PointersBacked(s.files)
    requires Protocol.CanRun(leq, s, actions)
    ensures
      var files := Protocol.RunAll(leq, s, actions).files;
      AllReadable(files, IndexOf(files)) && (Assembles(files, repository, builds) <==>
        && Lists.DistinctBy(BuildNumber, builds)
        && forall i :: 0 <= i < |builds| ==>
          Acceptable(PreviewBundles(files, repository, builds[i], PublishedRuns(files))))
  {
    var t := Protocol.RunAll(leq, s, actions);
    Protocol.RunKeepsInvariant(leq, s, actions);
    Archival.PendingRunsPublishable(leq, s, actions);
    IntactStoreAssembles(t.files, repository, builds);
  }

  /** In such a store every published run is shown under the commit that its publication record merged. */
  lemma PublishedRunsNamed(files: Files, i: nat)
    requires Promotion.Intact(files) && i < |IndexOf(files)|
    ensures
      var entry := IndexFor(files, PublishedRuns(files), None).runs[i];
      exists n :: n in files.publications && files.publications[n].entry.run == entry.run &&
        entry.display == Some(DisplayCommit(
          files.publications[n].merge.sha,
          FirstLine(files.publications[n].merge.message),
          CommitUrl(files.publications[n].pullRequest, files.publications[n].merge.sha)))
  {
    var e, b := IndexOf(files)[i], PublishedRuns(files)[i];
    assert e in IndexOf(files);
    assert Promotion.Backed(files, e);
    assert Included(IndexOf(files), e.run);
    var n := b.run.pullRequest.value.number;
    assert RecordOf(files, b) == Some(files.publications[n]);
  }
}
