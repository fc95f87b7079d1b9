/** `loadHistory`: the dashboard fetches an index and its runs, groups them, selects histories and shows
    their dataset. */
module Dashboard {
  import opened Texts
  import opened Bundles
  import opened Catalogs
  import opened Histories
  import opened Grouping
  import opened Store
  import opened Datasets
  import Commands
  import Lists
  import Sorting

  // ---------------------------------------------------------------- what is served

  datatype Preview = Preview(number: nat, head: Text, pending: Option<RunId>)

  datatype SiteIndex = SiteIndex(runs: seq<IndexEntry>, preview: Option<Preview>)

  /** A data directory: an index and run files. */
  datatype SiteData = SiteData(index: SiteIndex, runs: map<RunId, Bundle>)

  ghost predicate GoodIndex(index: SiteIndex) {
    && DistinctEntries(index.runs)
    && (index.preview.Some? && index.preview.value.pending.Some? ==>
      Included(index.runs, index.preview.value.pending.value))
  }

  /** What `parseHistoryRun` accepts when local runs are allowed. */
  ghost predicate Fetchable(data: SiteData, run: RunId) {
    && run in data.runs
    && Complete(data.runs[run])
    && data.runs[run].source != Synthetic
    && RunIdOf(data.runs[run]) == run
  }

  ghost predicate FetchableUpTo(data: SiteData, n: nat) {
    forall i :: 0 <= i < n <= |data.index.runs| ==> Fetchable(data, data.index.runs[i].run)
  }

  ghost predicate AllFetchable(data: SiteData) {
    FetchableUpTo(data, |data.index.runs|)
  }

  function FetchedUpTo(data: SiteData, n: nat): (bundles: seq<Bundle>)
    requires n <= |data.index.runs| && forall i :: 0 <= i < n ==> data.index.runs[i].run in data.runs
    ensures |bundles| == n && forall i :: 0 <= i < n ==> bundles[i] == data.runs[data.index.runs[i].run]
  {
    seq(n, i requires 0 <= i < n => data.runs[data.index.runs[i].run])
  }

  ghost function Fetched(data: SiteData): seq<Bundle>
    requires AllFetchable(data)
  {
    FetchedUpTo(data, |data.index.runs|)
  }

  /** The pending run of a preview belongs to its pull request and head revision. */
  ghost predicate PendingFits(data: SiteData) {
    var preview := data.index.preview;
    preview.Some? && preview.value.pending.Some? && preview.value.pending.value in data.runs ==>
      var pr := data.runs[preview.value.pending.value].run.pullRequest;
      pr.Some? && pr.value.number == preview.value.number && pr.value.head == preview.value.head
  }

  // ---------------------------------------------------------------- selection

  function Containing(groups: seq<seq<Bundle>>, key: Text): Option<seq<Bundle>> {
    if groups == [] then None
    else if exists b <- groups[0] :: KeyOfRun(b) == key then Some(groups[0])
    else Containing(groups[1..], key)
  }

  function WithVersion(groups: seq<seq<Bundle>>, version: Text): Option<seq<Bundle>> {
    if groups == [] then None
    else if groups[0] != [] && Decimal(groups[0][0].benchmark.version) == version then Some(groups[0])
    else WithVersion(groups[1..], version)
  }

  function OrElse(first: Option<seq<Bundle>>, second: Option<seq<Bundle>>): Option<seq<Bundle>> {
    if first.Some? then first else second
  }

  function KeyedGroup(groups: seq<seq<Bundle>>, key: Option<Text>): Option<seq<Bundle>> {
    if key.Some? then Containing(groups, key.value) else None
  }

  /** The history shown when no version is asked for. */
  function DefaultGroup(groups: seq<seq<Bundle>>, selectedRun: Option<Text>, pending: Option<RunId>): seq<Bundle>
    requires groups != []
  {
    var pendingKey := if pending.Some? then Some(RunKey(pending.value)) else None;
    OrElse(KeyedGroup(groups, selectedRun), KeyedGroup(groups, pendingKey)).GetOr(groups[0])
  }

  ghost predicate GoodRequest(groups: seq<seq<Bundle>>, versions: seq<Text>) {
    && Lists.DistinctBy(Itself, versions)
    && forall i :: 0 <= i < |versions| ==> versions[i] != [] && WithVersion(groups, versions[i]).Some?
  }

  function Requested(groups: seq<seq<Bundle>>, versions: seq<Text>): seq<seq<Bundle>> {
    Lists.Map((v: Text) => WithVersion(groups, v).GetOr([]), versions)
  }

  function PendingOf(index: SiteIndex): Option<RunId> {
    if index.preview.Some? then index.preview.value.pending else None
  }

  /** The selected histories. The requested versions are the parts of a comma-separated list. */
  function Selection(groups: seq<seq<Bundle>>, index: SiteIndex, versions: Option<seq<Text>>, selectedRun: Option<Text>)
    : seq<seq<Bundle>>
    requires groups != []
  {
    if versions.Some? then Requested(groups, versions.value)
    else [DefaultGroup(groups, selectedRun, PendingOf(index))]
  }

  // ---------------------------------------------------------------- datasets of several versions

  const Units: MetricDefinition -> (Text, Direction) := (d: MetricDefinition) => (d.unit, d.direction)

  const Members: seq<Bundle> -> seq<Bundle> := (g: seq<Bundle>) => g

  function Flat(histories: seq<seq<Bundle>>): seq<Bundle> {
    Lists.FlatMap(Members, histories)
  }

  /** Metrics that two bundles share have the same unit and direction. */
  ghost predicate UnitsAgree(bundles: seq<Bundle>) {
    forall a, b :: a in bundles && b in bundles ==> AgreeOn(Units, MetricsOf(a), MetricsOf(b))
  }

  predicate SummaryNoLater(leq: Order, a: Summary, b: Summary) {
    if a.date == b.date then leq(a.id, b.id) else leq(a.date, b.date)
  }

  function SummaryOrder(leq: Order): Sorting.Comparison<Summary> {
    (a: Summary, b: Summary) => SummaryNoLater(leq, a, b)
  }

  const RunsIn: Dataset -> seq<Summary> := (d: Dataset) => d.runs
  const RowsIn: Dataset -> seq<Row> := (d: Dataset) => d.rows

  function DatasetIn(leq: Order): seq<Bundle> -> Dataset {
    (history: seq<Bundle>) => DatasetOf(leq, history)
  }

  function DatasetsOf(leq: Order, histories: seq<seq<Bundle>>): seq<Dataset> {
    Lists.Map(DatasetIn(leq), histories)
  }

  function Combined(leq: Order, histories: seq<seq<Bundle>>): Dataset
    requires histories != []
  {
    var datasets := DatasetsOf(leq, histories);
    var bundles := Sorting.Sort(RunOrder(leq), Flat(histories));
    if |datasets| == 1 then datasets[0]
    else
      Dataset(
        datasets[0].source, Union(RuntimesOf, bundles), Union(PlatformsOf, bundles), Union(MetricsOf, bundles),
        Sorting.Sort(SummaryOrder(leq), Lists.FlatMap(RunsIn, datasets)), Lists.FlatMap(RowsIn, datasets))
  }

  ghost predicate GoodHistoriesUpTo(leq: Order, histories: seq<seq<Bundle>>, n: nat)
    requires n <= |histories|
  {
    n > 0 ==> GoodHistoriesUpTo(leq, histories, n - 1) && GoodHistory(leq, histories[n - 1])
  }

  ghost predicate AllGood(leq: Order, histories: seq<seq<Bundle>>) {
    GoodHistoriesUpTo(leq, histories, |histories|)
  }

  lemma {:induction false} GoodHistoriesMean(leq: Order, histories: seq<seq<Bundle>>, n: nat)
    requires n <= |histories|
    ensures GoodHistoriesUpTo(leq, histories, n) <==> forall i :: 0 <= i < n ==> GoodHistory(leq, histories[i])
  {
    if n > 0 {
      GoodHistoriesMean(leq, histories, n - 1);
    }
  }

  lemma OneBad(leq: Order, histories: seq<seq<Bundle>>, i: nat)
    requires i < |histories| && !GoodHistory(leq, histories[i])
    ensures !AllGood(leq, histories)
  {
    GoodHistoriesMean(leq, histories, |histories|);
  }

  lemma DatasetsStep(leq: Order, histories: seq<seq<Bundle>>, i: nat)
    requires i < |histories|
    ensures DatasetsOf(leq, histories[..i + 1]) == DatasetsOf(leq, histories[..i]) + [DatasetOf(leq, histories[i])]
  {
  }

  method DatasetsFromHistories(leq: Order, histories: seq<seq<Bundle>>) returns (r: Result<seq<Dataset>>)
    ensures r.Ok? <==> AllGood(leq, histories)
    ensures r.Ok? ==> r.value == DatasetsOf(leq, histories)
  {
    var datasets: seq<Dataset> := [];
    for i := 0 to |histories|
      invariant GoodHistoriesUpTo(leq, histories, i)
      invariant datasets == DatasetsOf(leq, histories[..i])
    {
      var dataset := DatasetFromBundles(leq, histories[i]);
      if dataset.Err? {
        OneBad(leq, histories, i);
        return Err(dataset.error);
      }
      DatasetsStep(leq, histories, i);
      datasets := datasets + [dataset.value];
    }
    assert histories[..|histories|] == histories;
    return Ok(datasets);
  }

  method CombineMetrics(bundles: seq<Bundle>) returns (r: Result<seq<Metric>>)
    ensures r.Ok? <==> UnitsAgree(bundles)
    ensures r.Ok? ==> r.value == Union(MetricsOf, bundles)
  {
    var metrics: seq<Metric> := [];
    for i := 0 to |bundles|
      invariant metrics == Union(MetricsOf, bundles[..i]) && Consistent(Units, Gather(MetricsOf, bundles[..i]))
    {
      Lists.FlatMapStep(MetricsOf, bundles, i);
      var absorbed := AbsorbChecked(Units, metrics, bundles[i].catalog.metrics, Gather(MetricsOf, bundles[..i]));
      if absorbed.Err? {
        UnitsAgreePrefix(bundles, i + 1);
        return Err(IncompatibleVersions);
      }
      metrics := absorbed.value;
    }
    assert bundles[..|bundles|] == bundles;
    ConsistentIffAgree(Units, MetricsOf, bundles);
    return Ok(metrics);
  }

  lemma UnitsAgreePrefix(bundles: seq<Bundle>, i: nat)
    requires i <= |bundles|
    ensures UnitsAgree(bundles) ==> Consistent(Units, Gather(MetricsOf, bundles[..i]))
  {
    ConsistentIffAgree(Units, MetricsOf, bundles[..i]);
    assert forall b :: b in bundles[..i] ==> b in bundles;
  }

  method DatasetFromHistories(leq: Order, histories: seq<seq<Bundle>>) returns (r: Result<Dataset>)
    requires histories != []
    ensures r.Ok? <==>
      && AllGood(leq, histories)
      && (|histories| > 1 ==> UnitsAgree(Flat(histories)))
    ensures r.Ok? ==> r.value == Combined(leq, histories)
  {
    var collected := DatasetsFromHistories(leq, histories);
    if collected.Err? {
      return Err(collected.error);
    }
    var datasets := collected.value;
    if |datasets| == 1 {
      return Ok(datasets[0]);
    }
    var bundles := Sorting.Sort(RunOrder(leq), Flat(histories));
    Sorting.SortElements(RunOrder(leq), Flat(histories));
    var metrics := CombineMetrics(bundles);
    if metrics.Err? {
      return Err(metrics.error);
    }
    return Ok(Dataset(
                datasets[0].source, Union(RuntimesOf, bundles), Union(PlatformsOf, bundles), metrics.value,
                Sorting.Sort(SummaryOrder(leq), Lists.FlatMap(RunsIn, datasets)), Lists.FlatMap(RowsIn, datasets)));
  }

  // ---------------------------------------------------------------- loading

  datatype View = View(dataset: Dataset, preview: Option<Preview>, shown: seq<nat>, histories: seq<nat>)

  function DisplayOf(runs: seq<IndexEntry>, key: Text): Option<DisplayCommit> {
    if runs == [] then None
    else if RunKey(runs[0].run) == key then runs[0].display
    else DisplayOf(runs[1..], key)
  }

  /** A published run is shown under the commit that merged it. */
  function Shown(runs: seq<IndexEntry>): Summary -> Summary {
    (s: Summary) =>
      match DisplayOf(runs, s.id)
      case None => s
      case Some(d) => s.(commit := ShortSha(d.sha), message := d.message, commitUrl := Some(d.url))
  }

  const GroupVersion: seq<Bundle> -> nat := (g: seq<Bundle>) => if g == [] then 0 else g[0].benchmark.version

  function VersionsIn(groups: seq<seq<Bundle>>): seq<nat> {
    Lists.Map(GroupVersion, groups)
  }

  /** When loading succeeds. */
  ghost predicate Loadable(leq: Order, data: SiteData, versions: Option<seq<Text>>) {
    && GoodIndex(data.index)
    && (data.index.runs != [] ==>
      && AllFetchable(data) && PendingFits(data) && Acceptable(Fetched(data))
      && CanShow(HistoriesOf(leq, Fetched(data)), versions))
  }

  function ViewOf(leq: Order, index: SiteIndex, groups: seq<seq<Bundle>>, selected: seq<seq<Bundle>>): View
    requires selected != []
  {
    var dataset := Combined(leq, selected);
    View(dataset.(runs := Lists.Map(Shown(index.runs), dataset.runs)), index.preview, VersionsIn(selected),
         VersionsIn(groups))
  }

  // ---------------------------------------------------------------- selected histories are good

  lemma {:induction false} ContainingMeans(groups: seq<seq<Bundle>>, key: Text)
    ensures Containing(groups, key).Some? ==> Containing(groups, key).value in groups
  {
    if groups != [] {
      ContainingMeans(groups[1..], key);
    }
  }

  lemma {:induction false} WithVersionMeans(groups: seq<seq<Bundle>>, version: Text)
    ensures WithVersion(groups, version).Some? ==>
      var g := WithVersion(groups, version).value;
      g in groups && g != [] && Decimal(g[0].benchmark.version) == version
  {
    if groups != [] {
      WithVersionMeans(groups[1..], version);
    }
  }

  lemma SelectedGroups(groups: seq<seq<Bundle>>, index: SiteIndex, versions: Option<seq<Text>>,
                       selectedRun: Option<Text>)
    requires groups != [] && (versions.Some? ==> GoodRequest(groups, versions.value))
    ensures forall i :: 0 <= i < |Selection(groups, index, versions, selectedRun)| ==>
      Selection(groups, index, versions, selectedRun)[i] in groups
  {
    var selected := Selection(groups, index, versions, selectedRun);
    if versions.Some? {
      forall i | 0 <= i < |selected|
        ensures selected[i] in groups
      {
        WithVersionMeans(groups, versions.value[i]);
      }
    } else {
      if selectedRun.Some? {
        ContainingMeans(groups, selectedRun.value);
      }
      if PendingOf(index).Some? {
        ContainingMeans(groups, RunKey(PendingOf(index).value));
      }
    }
  }

  lemma SelectedGood(leq: Order, groups: seq<seq<Bundle>>, index: SiteIndex, versions: Option<seq<Text>>,
                     selectedRun: Option<Text>)
    requires GoodGroups(leq, groups) && (versions.Some? ==> versions.value != [] && GoodRequest(groups, versions.value))
    ensures
      var selected := Selection(groups, index, versions, selectedRun);
      selected != [] && AllGood(leq, selected)
  {
    var selected := Selection(groups, index, versions, selectedRun);
    SelectedGroups(groups, index, versions, selectedRun);
    GoodHistoriesMean(leq, groups, |groups|);
    GoodHistoriesMean(leq, selected, |selected|);
    forall i | 0 <= i < |selected|
      ensures GoodHistory(leq, selected[i])
    {
      var j :| 0 <= j < |groups| && groups[j] == selected[i];
    }
  }

  /** A group of accepted valid bundles is a good history. */
  lemma GroupGood(leq: Order, bundles: seq<Bundle>, g: seq<Bundle>)
    requires TotalOrder(leq) && Acceptable(bundles) && g in HistoriesOf(leq, bundles)
    requires forall b :: b in bundles ==> Parses(b)
    ensures g != [] && GoodHistory(leq, g)
    ensures Sorting.Sort(RunOrder(leq), g) == g
  {
    GroupsAscending(leq, bundles, g);
    GroupIsVersion(leq, bundles, g);
    OrdersSort(leq);
    RunsSeparated(leq, g);
    AscendingSorted(leq, g);
    Sorting.SortOfSorted(RunOrder(leq), g);
  }

  lemma AscendingSorted(leq: Order, g: seq<Bundle>)
    requires Ascending(leq, g)
    ensures Sorting.Sorted(RunOrder(leq), g)
  {
  }

  // ---------------------------------------------------------------- the computation

  method Fetch(data: SiteData, run: RunId) returns (r: Result<Bundle>)
    ensures r.Ok? <==> Fetchable(data, run)
    ensures r.Ok? ==> r.value == data.runs[run]
  {
    if run !in data.runs {
      return Err(NotFound);
    }
    r := ValidateCompleteRun(data.runs[run]);
    if r.Err? {
      return;
    }
    if data.runs[run].source == Synthetic {
      return Err(NotMeasured);
    }
    if RunIdOf(data.runs[run]) != run {
      return Err(DifferentRun);
    }
  }

  /** Runs are fetched in batches of eight. */
  method FetchAll(data: SiteData) returns (r: Result<seq<Bundle>>)
    ensures r.Ok? <==> AllFetchable(data)
    ensures r.Ok? ==> r.value == Fetched(data)
  {
    var runs := data.index.runs;
    var bundles: seq<Bundle> := [];
    var offset := 0;
    while offset < |runs|
      invariant 0 <= offset
      invariant |bundles| == if offset < |runs| then offset else |runs|
      invariant FetchableUpTo(data, |bundles|) && bundles == FetchedUpTo(data, |bundles|)
    {
      var end := if offset + 8 < |runs| then offset + 8 else |runs|;
      var batch: seq<Bundle> := [];
      for i := offset to end
        invariant FetchableUpTo(data, i) && bundles + batch == FetchedUpTo(data, i)
      {
        var bundle := Fetch(data, runs[i].run);
        if bundle.Err? {
          return Err(bundle.error);
        }
        batch := batch + [bundle.value];
      }
      bundles := bundles + batch;
      offset := offset + 8;
    }
    return Ok(bundles);
  }

  method ParseIndex(index: SiteIndex) returns (ok: bool)
    ensures ok <==> GoodIndex(index)
  {
    var keys := Lists.Map((e: IndexEntry) => RunKey(e.run), index.runs);
    Commands.KeysDistinct(index.runs);
    var seen, distinct := Unique(keys);
    ok := distinct;
    if index.preview.Some? && index.preview.value.pending.Some? {
      var pending := index.preview.value.pending.value;
      forall i | 0 <= i < |index.runs|
        ensures keys[i] == RunKey(pending) <==> index.runs[i].run == pending
      {
        RunKeyInjective(index.runs[i].run, pending);
      }
      ok := ok && RunKey(pending) in seen;
    }
  }

  method CheckRequest(groups: seq<seq<Bundle>>, versions: seq<Text>) returns (r: Result<()>)
    ensures r.Ok? <==> GoodRequest(groups, versions)
  {
    var _, distinct := Unique(versions);
    if !distinct || exists v <- versions :: v == [] {
      return Err(UnknownVersion);
    }
    for i := 0 to |versions|
      invariant forall j :: 0 <= j < i ==> WithVersion(groups, versions[j]).Some?
    {
      if WithVersion(groups, versions[i]).None? {
        return Err(UnknownVersion);
      }
    }
    forall i | 0 <= i < |versions|
      ensures versions[i] != []
    {
      assert versions[i] in versions;
    }
    return Ok(());
  }

  method Select(groups: seq<seq<Bundle>>, index: SiteIndex, versions: Option<seq<Text>>, selectedRun: Option<Text>)
    returns (r: Result<seq<seq<Bundle>>>)
    requires groups != []
    ensures r.Ok? <==> versions.Some? ==> GoodRequest(groups, versions.value)
    ensures r.Ok? ==> r.value == Selection(groups, index, versions, selectedRun)
  {
    if versions.Some? {
      var good := CheckRequest(groups, versions.value);
      if good.Err? {
        return Err(good.error);
      }
    }
    return Ok(Selection(groups, index, versions, selectedRun));
  }

  method CheckPending(data: SiteData) returns (ok: bool)
    ensures ok <==> PendingFits(data)
  {
    var pending := PendingOf(data.index);
    if pending.Some? && pending.value in data.runs {
      var pr := data.runs[pending.value].run.pullRequest;
      if pr.None? || pr.value.number != data.index.preview.value.number
        || pr.value.head != data.index.preview.value.head {
        return false;
      }
    }
    return true;
  }

  ghost predicate GoodGroups(leq: Order, groups: seq<seq<Bundle>>) {
    groups != [] && AllGood(leq, groups)
  }

  /** The versions asked for exist and can be shown together. */
  ghost predicate CanShow(groups: seq<seq<Bundle>>, versions: Option<seq<Text>>) {
    versions.Some? ==>
      && GoodRequest(groups, versions.value)
      && (|versions.value| > 1 ==> UnitsAgree(Flat(Requested(groups, versions.value))))
  }

  /** The view shows the selected histories. */
  ghost predicate ShowsSelection(leq: Order, index: SiteIndex, groups: seq<seq<Bundle>>, versions: Option<seq<Text>>,
                                 selectedRun: Option<Text>, view: View) {
    && groups != []
    && var selected := Selection(groups, index, versions, selectedRun);
       && selected != [] && view == ViewOf(leq, index, groups, selected)
  }

  method ShowSelection(leq: Order, index: SiteIndex, groups: seq<seq<Bundle>>, versions: Option<seq<Text>>,
                       selectedRun: Option<Text>)
    returns (r: Result<View>)
    requires GoodGroups(leq, groups) && (versions.Some? ==> versions.value != [])
    ensures r.Ok? <==> CanShow(groups, versions)
    ensures r.Ok? ==> ShowsSelection(leq, index, groups, versions, selectedRun, r.value)
  {
    var selected := Select(groups, index, versions, selectedRun);
    if selected.Err? {
      return Err(selected.error);
    }
    SelectedGood(leq, groups, index, versions, selectedRun);
    var dataset := DatasetFromHistories(leq, selected.value);
    if dataset.Err? {
      return Err(dataset.error);
    }
    var shown := dataset.value.(runs := Lists.Map(Shown(index.runs), dataset.value.runs));
    return Ok(View(shown, index.preview, VersionsIn(selected.value), VersionsIn(groups)));
  }

  lemma FetchedGroups(leq: Order, data: SiteData)
    requires TotalOrder(leq) && AllFetchable(data) && Acceptable(Fetched(data)) && data.index.runs != []
    ensures GoodGroups(leq, HistoriesOf(leq, Fetched(data)))
  {
    var bundles := Fetched(data);
    HistoriesNewestFirst(leq, bundles);
    forall b | b in bundles
      ensures Parses(b)
    {
      var i :| 0 <= i < |bundles| && bundles[i] == b;
      assert Fetchable(data, data.index.runs[i].run);
    }
    var groups := HistoriesOf(leq, bundles);
    forall i | 0 <= i < |groups|
      ensures groups[i] != [] && GoodHistory(leq, groups[i])
    {
      assert groups[i] in groups;
      GroupGood(leq, bundles, groups[i]);
    }
    GoodHistoriesMean(leq, groups, |groups|);
  }

  /** Loading: an empty index gives an empty view, and none at all outside previews. The parts of a
      comma-separated list are never none. */
  method LoadHistory(leq: Order, data: SiteData, versions: Option<seq<Text>>, selectedRun: Option<Text>)
    returns (r: Result<Option<View>>)
    requires TotalOrder(leq) && (versions.Some? ==> versions.value != [])
    ensures r.Ok? <==> Loadable(leq, data, versions)
    ensures r.Ok? && data.index.runs == [] ==>
      r.value == if data.index.preview.Some? then Some(View(NO_DATASET, data.index.preview, [], [])) else None
    ensures r.Ok? && data.index.runs != [] ==>
      r.value.Some?
        && ShowsSelection(leq, data.index, HistoriesOf(leq, Fetched(data)), versions, selectedRun, r.value.value)
  {
    var good := ParseIndex(data.index);
    if !good {
      return Err(InvalidIndex);
    }
    if data.index.runs == [] {
      return Ok(if data.index.preview.Some? then Some(View(NO_DATASET, data.index.preview, [], [])) else None);
    }
    var fetched := FetchAll(data);
    if fetched.Err? {
      return Err(fetched.error);
    }
    var fits := CheckPending(data);
    if !fits {
      return Err(PendingDiffers);
    }
    var groups := GroupHistories(leq, fetched.value);
    if groups.Err? {
      return Err(groups.error);
    }
    FetchedGroups(leq, data);
    var view := ShowSelection(leq, data.index, groups.value, versions, selectedRun);
    if view.Err? {
      return Err(view.error);
    }
    return Ok(Some(view.value));
  }

  // ---------------------------------------------------------------- several versions together

  ghost predicate InOrder(leq: Order, histories: seq<seq<Bundle>>) {
    forall i :: 0 <= i < |histories| ==> histories[i] != [] && Sorting.Sort(RunOrder(leq), histories[i]) == histories[i]
  }

  lemma DatasetsFront(leq: Order, histories: seq<seq<Bundle>>)
    requires histories != []
    ensures
      var n := |histories| - 1;
      && DatasetsOf(leq, histories)[..n] == DatasetsOf(leq, histories[..n])
      && DatasetsOf(leq, histories)[n] == DatasetOf(leq, histories[n])
  {
  }

  lemma InOrderRuns(leq: Order, history: seq<Bundle>)
    requires history != [] && Sorting.Sort(RunOrder(leq), history) == history
    ensures DatasetOf(leq, history).runs == Lists.Map(Summarize, history)
    ensures DatasetOf(leq, history).rows == Lists.FlatMap(RowsOf, history)
  {
  }

  lemma MapJoin<T, U>(f: T -> U, a: seq<T>, b: seq<T>)
    ensures Lists.Map(f, a + b) == Lists.Map(f, a) + Lists.Map(f, b)
  {
  }

  lemma {:induction false} AllRuns(leq: Order, histories: seq<seq<Bundle>>)
    requires InOrder(leq, histories)
    ensures Lists.FlatMap(RunsIn, DatasetsOf(leq, histories)) == Lists.Map(Summarize, Flat(histories))
  {
    if histories != [] {
      var front, last := histories[..|histories| - 1], histories[|histories| - 1];
      DatasetsFront(leq, histories);
      AllRuns(leq, front);
      assert Lists.FlatMap(RunsIn, DatasetsOf(leq, histories)) ==
        Lists.FlatMap(RunsIn, DatasetsOf(leq, front)) + DatasetOf(leq, last).runs;
      assert Flat(histories) == Flat(front) + last;
      InOrderRuns(leq, last);
      MapJoin(Summarize, Flat(front), last);
    }
  }

  lemma {:induction false} FlatMapJoin<U>(get: Bundle -> seq<U>, a: seq<Bundle>, b: seq<Bundle>)
    ensures Lists.FlatMap(get, a + b) == Lists.FlatMap(get, a) + Lists.FlatMap(get, b)
  {
    var all := a + b;
    if b == [] {
      assert all == a;
    } else {
      var front, last := b[..|b| - 1], b[|b| - 1];
      FlatMapJoin(get, a, front);
      assert all[..|all| - 1] == a + front && all[|all| - 1] == last;
      assert Lists.FlatMap(get, all) == Lists.FlatMap(get, a + front) + get(last);
      assert Lists.FlatMap(get, b) == Lists.FlatMap(get, front) + get(last);
    }
  }

  lemma {:induction false} AllRows(leq: Order, histories: seq<seq<Bundle>>)
    requires InOrder(leq, histories)
    ensures Lists.FlatMap(RowsIn, DatasetsOf(leq, histories)) == Lists.FlatMap(RowsOf, Flat(histories))
  {
    if histories != [] {
      var front, last := histories[..|histories| - 1], histories[|histories| - 1];
      DatasetsFront(leq, histories);
      AllRows(leq, front);
      assert Lists.FlatMap(RowsIn, DatasetsOf(leq, histories)) ==
        Lists.FlatMap(RowsIn, DatasetsOf(leq, front)) + DatasetOf(leq, last).rows;
      assert Flat(histories) == Flat(front) + last;
      InOrderRuns(leq, last);
      FlatMapJoin(RowsOf, Flat(front), last);
    }
  }

  lemma SummariesInOrder(leq: Order, bundles: seq<Bundle>)
    ensures Sorting.Sort(SummaryOrder(leq), Lists.Map(Summarize, bundles)) ==
      Lists.Map(Summarize, Sorting.Sort(RunOrder(leq), bundles))
  {
    Sorting.SortMap(RunOrder(leq), SummaryOrder(leq), Summarize, bundles);
  }

  /** Several versions are shown like one history of all their runs in creation order: with the union of
      all their catalogs, all runs, and all rows up to order. */
  lemma CombinedLikeOneHistory(leq: Order, histories: seq<seq<Bundle>>)
    requires |histories| > 1 && InOrder(leq, histories)
    ensures
      var ordered := Sorting.Sort(RunOrder(leq), Flat(histories));
      var together := Combined(leq, histories);
      && ordered != []
      && together.runs == DatasetInOrder(ordered).runs
      && together.runtimes == DatasetInOrder(ordered).runtimes
      && together.platforms == DatasetInOrder(ordered).platforms
      && together.metrics == DatasetInOrder(ordered).metrics
      && multiset(together.rows) == multiset(DatasetInOrder(ordered).rows)
  {
    var all := Flat(histories);
    var ordered := Sorting.Sort(RunOrder(leq), all);
    AllRuns(leq, histories);
    AllRows(leq, histories);
    SummariesInOrder(leq, all);
    Sorting.SortElements(RunOrder(leq), all);
    Lists.FlatMapPermuted(RowsOf, ordered, all);
    assert histories[|histories| - 1] != [];
  }
}
