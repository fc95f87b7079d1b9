/** Several versions shown together. */
module Together {
  import opened Texts
  import opened Bundles
  import opened Catalogs
  import opened Histories
  import opened Grouping
  import opened Store
  import opened Serving
  import opened Datasets
  import opened Dashboard
  import opened Site
  import opened Viewing
  import Lists
  import Sorting

  // The site serves rewritten catalogs, so the combined view is compared with the one that the store's own
  // bundles would give.

  // ---------------------------------------------------------------- runs and rows

  ghost predicate SameData(leq: Order, f: Bundle -> Bundle, g: seq<Bundle>) {
    var stored, served := DatasetOf(leq, g), DatasetOf(leq, OnGroups(f)(g));
    served.source == stored.source && served.rows == stored.rows && served.runs == Lists.Map(Rebundle(f), stored.runs)
  }

  lemma {:induction false} FlatMapPointwise<T, U>(get: T -> seq<U>, s: seq<T>, t: seq<T>)
    requires |s| == |t| && forall i :: 0 <= i < |s| ==> get(s[i]) == get(t[i])
    ensures Lists.FlatMap(get, s) == Lists.FlatMap(get, t)
  {
    if s != [] {
      FlatMapPointwise(get, s[..|s| - 1], t[..|t| - 1]);
    }
  }

  lemma RowsServed(leq: Order, f: Bundle -> Bundle, selected: seq<seq<Bundle>>)
    requires forall i :: 0 <= i < |selected| ==> SameData(leq, f, selected[i])
    ensures Lists.FlatMap(RowsIn, DatasetsOf(leq, Lists.Map(OnGroups(f), selected))) ==
      Lists.FlatMap(RowsIn, DatasetsOf(leq, selected))
  {
    var stored, served := DatasetsOf(leq, selected), DatasetsOf(leq, Lists.Map(OnGroups(f), selected));
    forall i | 0 <= i < |selected|
      ensures RowsIn(served[i]) == RowsIn(stored[i])
    {
      assert SameData(leq, f, selected[i]);
    }
    FlatMapPointwise(RowsIn, served, stored);
  }

  lemma FrontMapped(f: Bundle -> Bundle, groups: seq<seq<Bundle>>)
    requires groups != []
    ensures
      var n := |groups| - 1;
      && Lists.Map(OnGroups(f), groups)[..n] == Lists.Map(OnGroups(f), groups[..n])
      && Lists.Map(OnGroups(f), groups)[n] == OnGroups(f)(groups[n])
  {
  }

  lemma {:induction false} SummariesServed(leq: Order, f: Bundle -> Bundle, selected: seq<seq<Bundle>>)
    requires forall i :: 0 <= i < |selected| ==> SameData(leq, f, selected[i])
    ensures Lists.FlatMap(RunsIn, DatasetsOf(leq, Lists.Map(OnGroups(f), selected))) ==
      Lists.Map(Rebundle(f), Lists.FlatMap(RunsIn, DatasetsOf(leq, selected)))
  {
    if selected != [] {
      var n := |selected| - 1;
      SummariesServed(leq, f, selected[..n]);
      FrontMapped(f, selected);
      DatasetsFront(leq, selected);
      DatasetsFront(leq, Lists.Map(OnGroups(f), selected));
      assert SameData(leq, f, selected[n]);
    }
  }

  lemma RunsServed(leq: Order, f: Bundle -> Bundle, runs: seq<Summary>)
    ensures Sorting.Sort(SummaryOrder(leq), Lists.Map(Rebundle(f), runs)) ==
      Lists.Map(Rebundle(f), Sorting.Sort(SummaryOrder(leq), runs))
  {
    Sorting.SortMap(SummaryOrder(leq), SummaryOrder(leq), Rebundle(f), runs);
  }

  /** The measured part of a dataset: everything but the catalog lists. */
  ghost predicate ShowsMeasured(stored: Dataset, view: View) {
    var shown := view.dataset;
    && shown.source == stored.source && shown.rows == stored.rows
    && |shown.runs| == |stored.runs|
    && forall i :: 0 <= i < |shown.runs| ==>
      && shown.runs[i].id == stored.runs[i].id && shown.runs[i].date == stored.runs[i].date
      && shown.runs[i].runners == stored.runs[i].runners
  }

  // ---------------------------------------------------------------- catalog lists

  ghost predicate SameIds<D>(a: seq<Entry<D>>, b: seq<Entry<D>>) {
    forall id :: HasId(a, id) <==> HasId(b, id)
  }

  lemma HasIdInUnion<D(!new)>(get: Bundle -> seq<Entry<D>>, bundles: seq<Bundle>, id: Text)
    ensures HasId(Union(get, bundles), id) <==> exists b :: b in bundles && HasId(get(b), id)
  {
    AbsorbMeans([], Gather(get, bundles));
    if HasId(Union(get, bundles), id) {
      var i :| 0 <= i < |Union(get, bundles)| && Union(get, bundles)[i].id == id;
      var e := Union(get, bundles)[i];
      assert e in Union(get, bundles);
      GatherIn(get, bundles, e);
      var b :| b in bundles && e in get(b);
      HasIdMeans(get(b), e);
    }
    if b :| b in bundles && HasId(get(b), id) {
      UnionMeans(get, bundles, b);
    }
  }

  /** Rewriting adds to a bundle's list only what bundles of its own history have. */
  ghost predicate FillsIn<D>(get: Bundle -> seq<Entry<D>>, f: Bundle -> Bundle, part: seq<Bundle>) {
    forall b, id :: b in part ==>
      && (HasId(get(b), id) ==> HasId(get(f(b)), id))
      && (HasId(get(f(b)), id) ==> exists c :: c in part && HasId(get(c), id))
  }

  lemma IdsServed<D(!new)>(get: Bundle -> seq<Entry<D>>, f: Bundle -> Bundle, part: seq<Bundle>, id: Text)
    requires FillsIn(get, f, part)
    ensures (exists b :: b in Lists.Map(f, part) && HasId(get(b), id)) <==> exists b :: b in part && HasId(get(b), id)
  {
    var rewritten := Lists.Map(f, part);
    if b :| b in rewritten && HasId(get(b), id) {
      var i :| 0 <= i < |part| && rewritten[i] == b;
      assert part[i] in part;
    }
    if b :| b in part && HasId(get(b), id) {
      var i :| 0 <= i < |part| && part[i] == b;
      assert rewritten[i] in rewritten;
    }
  }

  lemma FilledIn<D(!new)>(leq: Order, bundles: seq<Bundle>, part: seq<Bundle>, get: Bundle -> seq<Entry<D>>)
    requires TotalOrder(leq) && WholeHistories(leq, bundles, part)
    requires forall b: Bundle :: get(Rewriting(leq, bundles)(b)) == Union(get, GroupIn(leq, bundles, b))
    ensures FillsIn(get, Rewriting(leq, bundles), part)
  {
    forall b, id | b in part
      ensures HasId(get(b), id) ==> HasId(get(Rewriting(leq, bundles)(b)), id)
      ensures HasId(get(Rewriting(leq, bundles)(b)), id) ==> exists c :: c in part && HasId(get(c), id)
    {
      OwnGroup(leq, bundles, b);
      HasIdInUnion(get, GroupIn(leq, bundles, b), id);
    }
  }

  lemma UnionServed<D(!new)>(leq: Order, bundles: seq<Bundle>, part: seq<Bundle>, get: Bundle -> seq<Entry<D>>)
    requires TotalOrder(leq) && WholeHistories(leq, bundles, part)
    requires forall b: Bundle :: get(Rewriting(leq, bundles)(b)) == Union(get, GroupIn(leq, bundles, b))
    ensures
      var rewritten := Lists.Map(Rewriting(leq, bundles), part);
      SameIds(Union(get, Sorting.Sort(RunOrder(leq), rewritten)), Union(get, Sorting.Sort(RunOrder(leq), part)))
  {
    var f := Rewriting(leq, bundles);
    var rewritten := Lists.Map(f, part);
    FilledIn(leq, bundles, part, get);
    Sorting.SortElements(RunOrder(leq), rewritten);
    Sorting.SortElements(RunOrder(leq), part);
    forall id
      ensures HasId(Union(get, Sorting.Sort(RunOrder(leq), rewritten)), id) <==>
        HasId(Union(get, Sorting.Sort(RunOrder(leq), part)), id)
    {
      HasIdInUnion(get, Sorting.Sort(RunOrder(leq), rewritten), id);
      HasIdInUnion(get, Sorting.Sort(RunOrder(leq), part), id);
      IdsServed(get, f, part, id);
    }
  }

  /** Catalog lists with the same identifiers. */
  ghost predicate ShowsIds(stored: Dataset, view: View) {
    && SameIds(view.dataset.runtimes, stored.runtimes)
    && SameIds(view.dataset.platforms, stored.platforms)
    && SameIds(view.dataset.metrics, stored.metrics)
  }

  // ---------------------------------------------------------------- which entry is shown

  /** The entry in which the history of the last bundle ends whose history names an identifier. */
  function LatestByHistory<D>(leq: Order, bundles: seq<Bundle>, get: Bundle -> seq<Entry<D>>, g: seq<Bundle>, id: Text)
    : Option<Entry<D>>
  {
    if g == [] then None
    else
      var named := LatestEntry(get, GroupIn(leq, bundles, g[|g| - 1]), id);
      if named.Some? then named else LatestByHistory(leq, bundles, get, g[..|g| - 1], id)
  }

  /** A rewriting that gives every bundle the union of its history, in one kind of catalog list. */
  ghost predicate Unites<D>(leq: Order, bundles: seq<Bundle>, get: Bundle -> seq<Entry<D>>) {
    forall b: Bundle :: get(Rewriting(leq, bundles)(b)) == Union(get, GroupIn(leq, bundles, b))
  }

  lemma NamedRewritten<D>(leq: Order, bundles: seq<Bundle>, get: Bundle -> seq<Entry<D>>, b: Bundle, id: Text)
    requires TotalOrder(leq) && Unites(leq, bundles, get) && b in bundles
    requires forall c :: c in bundles ==> DistinctIds(get(c))
    ensures Get(get(Rewriting(leq, bundles)(b)), id) == LatestEntry(get, GroupIn(leq, bundles, b), id)
  {
    OwnGroup(leq, bundles, b);
    GetUnion(get, GroupIn(leq, bundles, b), id);
  }

  lemma LastMapped(f: Bundle -> Bundle, g: seq<Bundle>)
    requires g != []
    ensures
      var n := |g| - 1;
      Lists.Map(f, g)[..n] == Lists.Map(f, g[..n]) && Lists.Map(f, g)[n] == f(g[n])
  {
  }

  lemma LatestRewrittenNext<D>(leq: Order, bundles: seq<Bundle>, get: Bundle -> seq<Entry<D>>, g: seq<Bundle>, id: Text)
    requires TotalOrder(leq) && Unites(leq, bundles, get) && g != [] && g[|g| - 1] in bundles
    requires forall b :: b in bundles ==> DistinctIds(get(b))
    requires
      var front := g[..|g| - 1];
      LatestEntry(get, Lists.Map(Rewriting(leq, bundles), front), id) == LatestByHistory(leq, bundles, get, front, id)
    ensures LatestEntry(get, Lists.Map(Rewriting(leq, bundles), g), id) == LatestByHistory(leq, bundles, get, g, id)
  {
    LastMapped(Rewriting(leq, bundles), g);
    NamedRewritten(leq, bundles, get, g[|g| - 1], id);
  }

  lemma {:induction false} LatestRewritten<D>(leq: Order, bundles: seq<Bundle>, get: Bundle -> seq<Entry<D>>,
                                              g: seq<Bundle>, id: Text)
    requires TotalOrder(leq) && Unites(leq, bundles, get)
    requires forall b :: b in bundles ==> DistinctIds(get(b))
    requires forall b :: b in g ==> b in bundles
    ensures LatestEntry(get, Lists.Map(Rewriting(leq, bundles), g), id) == LatestByHistory(leq, bundles, get, g, id)
  {
    if g != [] {
      assert g[|g| - 1] in g && forall b :: b in g[..|g| - 1] ==> b in g;
      LatestRewritten(leq, bundles, get, g[..|g| - 1], id);
      LatestRewrittenNext(leq, bundles, get, g, id);
    }
  }

  /** The same entry for every identifier. */
  ghost predicate SameEntries<D(!new)>(a: seq<Entry<D>>, b: seq<Entry<D>>) {
    forall id :: Get(a, id) == Get(b, id)
  }

  /** For every identifier, the latest selected run that names it and the latest selected run whose history
      names it lead to one entry. This is read off the runs before they are served. */
  ghost predicate NewestAgree<D(!new)>(leq: Order, bundles: seq<Bundle>, get: Bundle -> seq<Entry<D>>,
                                       selected: seq<Bundle>) {
    var ordered := Sorting.Sort(RunOrder(leq), selected);
    forall id :: LatestEntry(get, ordered, id) == LatestByHistory(leq, bundles, get, ordered, id)
  }

  lemma UnionsSameIff<D(!new)>(leq: Order, bundles: seq<Bundle>, get: Bundle -> seq<Entry<D>>, part: seq<Bundle>)
    requires TotalOrder(leq) && Unites(leq, bundles, get)
    requires forall b :: b in bundles ==> DistinctIds(get(b))
    requires forall b :: b in part ==> b in bundles
    ensures
      var rewritten := Lists.Map(Rewriting(leq, bundles), part);
      SameEntries(Union(get, Sorting.Sort(RunOrder(leq), rewritten)),
                  Union(get, Sorting.Sort(RunOrder(leq), part))) <==>
      NewestAgree(leq, bundles, get, part)
  {
    var f, ordered := Rewriting(leq, bundles), Sorting.Sort(RunOrder(leq), part);
    Sorting.SortElements(RunOrder(leq), part);
    SortRunsMap(leq, f, part);
    forall id
      ensures Get(Union(get, ordered), id) == LatestEntry(get, ordered, id)
      ensures Get(Union(get, Lists.Map(f, ordered)), id) == LatestByHistory(leq, bundles, get, ordered, id)
    {
      GetUnion(get, ordered, id);
      RewrittenDistinct(leq, bundles, get, ordered);
      GetUnion(get, Lists.Map(f, ordered), id);
      LatestRewritten(leq, bundles, get, ordered, id);
    }
  }

  lemma RewrittenDistinct<D>(leq: Order, bundles: seq<Bundle>, get: Bundle -> seq<Entry<D>>, g: seq<Bundle>)
    requires Unites(leq, bundles, get)
    ensures forall b :: b in Lists.Map(Rewriting(leq, bundles), g) ==> DistinctIds(get(b))
  {
    var rewritten := Lists.Map(Rewriting(leq, bundles), g);
    forall b | b in rewritten
      ensures DistinctIds(get(b))
    {
      var i :| 0 <= i < |g| && rewritten[i] == b;
      UnionDistinct(get, GroupIn(leq, bundles, g[i]));
    }
  }

  /** Two datasets show the same entries exactly when the newest runs agree, kind by kind. */
  ghost predicate SameEntriesIffNewestAgree(leq: Order, bundles: seq<Bundle>, selected: seq<Bundle>,
                                            stored: Dataset, shown: Dataset) {
    && (SameEntries(shown.runtimes, stored.runtimes) <==> NewestAgree(leq, bundles, RuntimesOf, selected))
    && (SameEntries(shown.platforms, stored.platforms) <==> NewestAgree(leq, bundles, PlatformsOf, selected))
    && (SameEntries(shown.metrics, stored.metrics) <==> NewestAgree(leq, bundles, MetricsOf, selected))
  }

  /** The combined view of served bundles shows the entries that the store's own bundles would give if and
      only if the newest runs agree, for runtimes, for platforms and for metrics. */
  lemma CombinedEntriesIff(leq: Order, bundles: seq<Bundle>, selected: seq<seq<Bundle>>)
    requires TotalOrder(leq) && |selected| > 1
    requires forall b :: b in bundles ==> Parses(b)
    requires forall i :: 0 <= i < |selected| ==> selected[i] in HistoriesOf(leq, bundles)
    ensures
      var stored := Combined(leq, selected);
      var served := Combined(leq, Lists.Map(OnGroups(Rewriting(leq, bundles)), selected));
      SameEntriesIffNewestAgree(leq, bundles, Flat(selected), stored, served)
  {
    FlatMapOnGroups(Rewriting(leq, bundles), selected);
    SelectedWhole(leq, bundles, selected);
    ParsedDistinct(bundles);
    UnionsSameIff(leq, bundles, RuntimesOf, Flat(selected));
    UnionsSameIff(leq, bundles, PlatformsOf, Flat(selected));
    UnionsSameIff(leq, bundles, MetricsOf, Flat(selected));
  }

  lemma MetricsDisagree(leq: Order, bundles: seq<Bundle>, selected: seq<seq<Bundle>>)
    requires TotalOrder(leq) && |selected| > 1
    requires forall b :: b in bundles ==> Parses(b)
    requires forall i :: 0 <= i < |selected| ==> selected[i] in HistoriesOf(leq, bundles)
    requires !SameEntries(Combined(leq, Lists.Map(OnGroups(Rewriting(leq, bundles)), selected)).metrics,
                          Combined(leq, selected).metrics)
    ensures !NewestAgree(leq, bundles, MetricsOf, Flat(selected))
  {
    CombinedEntriesIff(leq, bundles, selected);
  }

  // ---------------------------------------------------------------- what a visitor sees

  lemma CombinedServed(leq: Order, bundles: seq<Bundle>, selected: seq<seq<Bundle>>)
    requires TotalOrder(leq) && Acceptable(bundles) && |selected| > 1
    requires forall b :: b in bundles ==> Parses(b)
    requires forall i :: 0 <= i < |selected| ==> selected[i] in HistoriesOf(leq, bundles)
    ensures
      var f := Rewriting(leq, bundles);
      var stored, served := Combined(leq, selected), Combined(leq, Lists.Map(OnGroups(f), selected));
      && served.source == stored.source && served.rows == stored.rows
      && served.runs == Lists.Map(Rebundle(f), stored.runs)
      && SameIds(served.runtimes, stored.runtimes) && SameIds(served.platforms, stored.platforms)
      && SameIds(served.metrics, stored.metrics)
  {
    var f := Rewriting(leq, bundles);
    forall i | 0 <= i < |selected|
      ensures SameData(leq, f, selected[i])
    {
      SameDataset(leq, bundles, selected[i]);
    }
    RowsServed(leq, f, selected);
    SummariesServed(leq, f, selected);
    RunsServed(leq, f, Lists.FlatMap(RunsIn, DatasetsOf(leq, selected)));
    FlatMapOnGroups(f, selected);
    SelectedWhole(leq, bundles, selected);
    UnionServed(leq, bundles, Flat(selected), RuntimesOf);
    UnionServed(leq, bundles, Flat(selected), PlatformsOf);
    UnionServed(leq, bundles, Flat(selected), MetricsOf);
  }

  /** A visitor who asks for several versions sees the runs and rows that their histories have in the store,
      catalog lists with the same identifiers, and the same entries for them exactly when the newest runs
      agree. */
  lemma VisitorSeesVersions(leq: Order, files: Files, bundles: seq<Bundle>, preview: Option<Preview>,
                            versions: seq<Text>, selectedRun: Option<Text>, view: View)
    requires TotalOrder(leq) && Servable(bundles, preview) && bundles != []
    requires CanShow(HistoriesOf(leq, bundles), Some(versions)) && |versions| > 1
    requires
      var data := DataFor(leq, files, bundles, preview);
      AllFetchable(data) ==>
        ShowsSelection(leq, data.index, HistoriesOf(leq, Fetched(data)), Some(versions), selectedRun, view)
    ensures
      var groups := HistoriesOf(leq, bundles);
      var selected := Requested(groups, versions);
      && selected != [] && view.shown == VersionsIn(selected) && view.histories == VersionsIn(groups)
      && ShowsMeasured(Combined(leq, selected), view) && ShowsIds(Combined(leq, selected), view)
      && SameEntriesIffNewestAgree(leq, bundles, Flat(selected), Combined(leq, selected), view.dataset)
  {
    var index, f, groups := IndexFor(files, bundles, preview), Rewriting(leq, bundles), HistoriesOf(leq, bundles);
    DataFetched(leq, files, bundles, preview);
    ServedHistories(leq, bundles);
    HistoriesNewestFirst(leq, bundles);
    SelectionMap(f, groups, index, Some(versions), selectedRun);
    SelectedGroups(groups, index, Some(versions), selectedRun);
    SeenTogether(leq, bundles, Requested(groups, versions), index, view);
  }

  lemma SeenTogether(leq: Order, bundles: seq<Bundle>, selected: seq<seq<Bundle>>, index: SiteIndex, view: View)
    requires TotalOrder(leq) && Acceptable(bundles) && |selected| > 1
    requires forall b :: b in bundles ==> Parses(b)
    requires forall i :: 0 <= i < |selected| ==> selected[i] in HistoriesOf(leq, bundles)
    requires
      var f := Rewriting(leq, bundles);
      view == ViewOf(leq, index, Lists.Map(OnGroups(f), HistoriesOf(leq, bundles)), Lists.Map(OnGroups(f), selected))
    ensures view.shown == VersionsIn(selected) && view.histories == VersionsIn(HistoriesOf(leq, bundles))
    ensures ShowsMeasured(Combined(leq, selected), view) && ShowsIds(Combined(leq, selected), view)
    ensures SameEntriesIffNewestAgree(leq, bundles, Flat(selected), Combined(leq, selected), view.dataset)
  {
    var f := Rewriting(leq, bundles);
    VersionsMap(f, HistoriesOf(leq, bundles));
    VersionsMap(f, selected);
    CombinedServed(leq, bundles, selected);
    CombinedEntriesIff(leq, bundles, selected);
    CombinedShown(index, f, Combined(leq, selected), Combined(leq, Lists.Map(OnGroups(f), selected)), view);
  }

  lemma CombinedShown(index: SiteIndex, f: Bundle -> Bundle, stored: Dataset, served: Dataset, view: View)
    requires served.source == stored.source && served.rows == stored.rows
    requires served.runs == Lists.Map(Rebundle(f), stored.runs)
    requires SameIds(served.runtimes, stored.runtimes) && SameIds(served.platforms, stored.platforms)
    requires SameIds(served.metrics, stored.metrics)
    requires view.dataset == served.(runs := Lists.Map(Shown(index.runs), served.runs))
    ensures ShowsMeasured(stored, view) && ShowsIds(stored, view)
  {
  }
}
