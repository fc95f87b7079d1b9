/** `assembleSite`: the production site serves the published runs, and each preview site serves them with
    at most one pending run. */
module Site {
  import opened Texts
  import opened Bundles
  import opened Histories
  import opened Grouping
  import opened Store
  import opened Serving
  import opened Dashboard
  import Commands
  import Lists

  /** A verified build of a pull request. */
  datatype Build = Build(number: nat, head: Text, base: Text, includePending: bool)

  /** The data directories of a site. */
  datatype SiteFiles = SiteFiles(production: SiteData, previews: map<nat, SiteData>)

  // ---------------------------------------------------------------- one data directory

  function FirstLine(message: Text): Text {
    if message == [] || message[0] == NEWLINE then [] else [message[0]] + FirstLine(message[1..])
  }

  /** The publication record that the entry of a run is displayed with. */
  function RecordOf(files: Files, b: Bundle): Option<Publication> {
    if !Included(IndexOf(files), RunIdOf(b)) || b.run.pullRequest.None? then None
    else if b.run.pullRequest.value.number !in files.publications then None
    else Some(files.publications[b.run.pullRequest.value.number])
  }

  function EntryFor(files: Files): Bundle -> IndexEntry {
    (b: Bundle) =>
      IndexEntry(RunIdOf(b),
                 match RecordOf(files, b)
                 case None => None
                 case Some(p) =>
                   Some(DisplayCommit(p.merge.sha, FirstLine(p.merge.message), CommitUrl(p.pullRequest, p.merge.sha))))
  }

  ghost predicate Displayable(files: Files, bundles: seq<Bundle>) {
    forall i :: 0 <= i < |bundles| && RecordOf(files, bundles[i]).Some? ==>
      Vouches(bundles[i], RecordOf(files, bundles[i]).value)
  }

  const SameBundle: Bundle -> Bundle := (b: Bundle) => b

  function RunsById(bundles: seq<Bundle>): map<RunId, Bundle> {
    Lists.KeyedMap(RunOf, SameBundle, bundles)
  }

  function IndexFor(files: Files, bundles: seq<Bundle>, preview: Option<Preview>): SiteIndex {
    SiteIndex(Lists.Map(EntryFor(files), bundles), preview)
  }

  function DataFor(leq: Order, files: Files, bundles: seq<Bundle>, preview: Option<Preview>): SiteData {
    SiteData(IndexFor(files, bundles, preview), RunsById(Served(leq, bundles)))
  }

  /** The catalogs by run key, filled history by history. */
  ghost predicate Right(leq: Order, bundles: seq<Bundle>, catalogs: map<Text, Catalog>) {
    forall b :: b in bundles && KeyOfRun(b) in catalogs ==> catalogs[KeyOfRun(b)] == CatalogOf(GroupIn(leq, bundles, b))
  }

  ghost predicate Holds(g: seq<Bundle>, n: nat, catalogs: map<Text, Catalog>) {
    forall j :: 0 <= j < n <= |g| ==> KeyOfRun(g[j]) in catalogs
  }

  ghost predicate HoldsAll(groups: seq<seq<Bundle>>, n: nat, catalogs: map<Text, Catalog>) {
    forall i :: 0 <= i < n <= |groups| ==> Holds(groups[i], |groups[i]|, catalogs)
  }

  lemma RightStep(leq: Order, bundles: seq<Bundle>, g: seq<Bundle>, b: Bundle, catalogs: map<Text, Catalog>)
    requires TotalOrder(leq) && DistinctRuns(bundles) && g in HistoriesOf(leq, bundles) && b in g
    requires Right(leq, bundles, catalogs)
    ensures Right(leq, bundles, catalogs[KeyOfRun(b) := CatalogOf(g)])
  {
    HistoriesMembers(leq, bundles);
    assert b in bundles;
    MemberGroup(leq, bundles, g, b);
    Lists.DistinctByMeans(RunOf, bundles);
    forall c | c in bundles && KeyOfRun(c) == KeyOfRun(b)
      ensures c == b
    {
      RunKeyInjective(RunIdOf(c), RunIdOf(b));
      assert RunOf(c) == RunOf(b);
    }
  }

  /** A history that was grouped is valid, so this cannot fail. */
  method HistoryCatalog(leq: Order, bundles: seq<Bundle>, g: seq<Bundle>) returns (catalog: Catalog)
    requires TotalOrder(leq) && Acceptable(bundles) && g in HistoriesOf(leq, bundles)
    ensures catalog == CatalogOf(g)
  {
    GroupsAscending(leq, bundles, g);
    var valid := ValidateHistory(g);
    return Catalog(valid.value.runtimes, valid.value.platforms, valid.value.metrics, EMPTY);
  }

  /** All runs of one history get its catalog. */
  method SetCatalog(leq: Order, bundles: seq<Bundle>, g: seq<Bundle>, catalog: Catalog, before: map<Text, Catalog>)
    returns (catalogs: map<Text, Catalog>)
    requires catalog == CatalogOf(g)
    requires TotalOrder(leq) && DistinctRuns(bundles) && g in HistoriesOf(leq, bundles) && Right(leq, bundles, before)
    ensures Right(leq, bundles, catalogs) && Holds(g, |g|, catalogs) && before.Keys <= catalogs.Keys
  {
    catalogs := before;
    for j := 0 to |g|
      invariant Right(leq, bundles, catalogs) && Holds(g, j, catalogs) && before.Keys <= catalogs.Keys
    {
      RightStep(leq, bundles, g, g[j], catalogs);
      catalogs := catalogs[KeyOfRun(g[j]) := catalog];
    }
  }

  lemma HoldsNext(groups: seq<seq<Bundle>>, i: nat, before: map<Text, Catalog>, after: map<Text, Catalog>)
    requires i < |groups| && HoldsAll(groups, i, before) && before.Keys <= after.Keys
    requires Holds(groups[i], |groups[i]|, after)
    ensures HoldsAll(groups, i + 1, after)
  {
    forall j | 0 <= j < i
      ensures Holds(groups[j], |groups[j]|, after)
    {
      assert Holds(groups[j], |groups[j]|, before);
    }
  }

  method CollectCatalogs(leq: Order, bundles: seq<Bundle>, histories: seq<seq<Bundle>>)
    returns (catalogs: map<Text, Catalog>)
    requires TotalOrder(leq) && Acceptable(bundles) && histories == HistoriesOf(leq, bundles)
    ensures Right(leq, bundles, catalogs)
    ensures HoldsAll(histories, |histories|, catalogs)
  {
    catalogs := map[];
    for i := 0 to |histories|
      invariant Right(leq, bundles, catalogs) && HoldsAll(histories, i, catalogs)
    {
      assert histories[i] in histories;
      var catalog := HistoryCatalog(leq, bundles, histories[i]);
      var next := SetCatalog(leq, bundles, histories[i], catalog, catalogs);
      HoldsNext(histories, i, catalogs, next);
      catalogs := next;
    }
  }

  lemma EveryKeyHeld(leq: Order, bundles: seq<Bundle>, catalogs: map<Text, Catalog>, b: Bundle)
    requires TotalOrder(leq) && b in bundles
    requires HoldsAll(HistoriesOf(leq, bundles), |HistoriesOf(leq, bundles)|, catalogs)
    ensures KeyOfRun(b) in catalogs
  {
    EveryRunGrouped(leq, bundles, b);
    var groups: seq<seq<Bundle>> := HistoriesOf(leq, bundles);
    var g: seq<Bundle> :| g in groups && b in g;
    var i :| 0 <= i < |groups| && groups[i] == g;
    var j :| 0 <= j < |g| && g[j] == b;
    assert Holds(groups[i], |groups[i]|, catalogs);
  }

  ghost predicate PendingServed(bundles: seq<Bundle>, preview: Option<Preview>) {
    preview.Some? && preview.value.pending.Some? ==>
      exists i :: 0 <= i < |bundles| && RunIdOf(bundles[i]) == preview.value.pending.value
  }

  method ServeData(leq: Order, files: Files, bundles: seq<Bundle>, preview: Option<Preview>)
    returns (r: Result<SiteData>)
    requires TotalOrder(leq)
    ensures r.Ok? <==> Acceptable(bundles) && Displayable(files, bundles) && PendingServed(bundles, preview)
    ensures r.Ok? ==> r.value == DataFor(leq, files, bundles, preview)
  {
    var histories := GroupHistories(leq, bundles);
    if histories.Err? {
      return Err(histories.error);
    }
    var catalogs := CollectCatalogs(leq, bundles, histories.value);
    for i := 0 to |bundles|
      invariant forall j :: 0 <= j < i && RecordOf(files, bundles[j]).Some? ==>
        Vouches(bundles[j], RecordOf(files, bundles[j]).value)
    {
      var record := RecordOf(files, bundles[i]);
      if record.Some? && ValidatePublication(bundles[i], record.value).Err? {
        return Err(ValidatePublication(bundles[i], record.value).error);
      }
    }
    var index := IndexFor(files, bundles, preview);
    var good := ParseIndex(index);
    if !good {
      return Err(InvalidIndex);
    }
    var runs := WriteRuns(leq, bundles, catalogs);
    return Ok(SiteData(index, runs));
  }

  method WriteRuns(leq: Order, bundles: seq<Bundle>, catalogs: map<Text, Catalog>) returns (runs: map<RunId, Bundle>)
    requires TotalOrder(leq) && Right(leq, bundles, catalogs)
    requires HoldsAll(HistoriesOf(leq, bundles), |HistoriesOf(leq, bundles)|, catalogs)
    ensures runs == RunsById(Served(leq, bundles))
  {
    ghost var served := Served(leq, bundles);
    runs := map[];
    for i := 0 to |bundles|
      invariant runs == RunsById(served[..i])
    {
      var b := bundles[i];
      assert b in bundles;
      EveryKeyHeld(leq, bundles, catalogs, b);
      runs := runs[RunIdOf(b) := b.(catalog := catalogs[KeyOfRun(b)])];
      Lists.KeyedMapStep(RunOf, SameBundle, served, i);
    }
    assert served[..|bundles|] == served;
  }

  // ---------------------------------------------------------------- the whole site

  /** The published runs, in index order. */
  ghost function PublishedRuns(files: Files): seq<Bundle>
    requires AllReadable(files, IndexOf(files))
  {
    BundlesAt(files, IndexOf(files))
  }

  /** The run that a preview adds: the pending one, if it was measured for exactly this revision of the
      pull request and is not published already. */
  function PendingRun(files: Files, repository: Text, build: Build, published: seq<Bundle>): Option<Bundle> {
    if !build.includePending || build.number !in files.pointers then None
    else if files.pointers[build.number].run !in files.runs then None
    else
      var b := files.runs[files.pointers[build.number].run];
      if b.run.pullRequest == Some(PullRequest(repository, build.number, build.head, build.base))
         && !(exists other <- published :: KeyOfRun(other) == KeyOfRun(b))
      then Some(b) else None
  }

  function PreviewBundles(files: Files, repository: Text, build: Build, published: seq<Bundle>): seq<Bundle> {
    match PendingRun(files, repository, build, published)
    case None => published
    case Some(b) => published + [b]
  }

  function PreviewFor(files: Files, repository: Text, build: Build, published: seq<Bundle>): Preview {
    Preview(build.number, build.head,
            match PendingRun(files, repository, build, published)
            case None => None
            case Some(_) => Some(files.pointers[build.number].run))
  }

  /** A pending pointer has to name a readable run, even if that run is for another revision. */
  ghost predicate PendingReadable(files: Files, build: Build) {
    build.includePending && build.number in files.pointers ==> Readable(files, files.pointers[build.number].run)
  }

  ghost predicate BuildServes(files: Files, repository: Text, build: Build, published: seq<Bundle>) {
    && PendingReadable(files, build)
    && Acceptable(PreviewBundles(files, repository, build, published))
    && Displayable(files, PreviewBundles(files, repository, build, published))
  }

  const BuildNumber: Build -> nat := (b: Build) => b.number

  ghost predicate BuildsServe(files: Files, repository: Text, builds: seq<Build>, published: seq<Bundle>) {
    && Lists.DistinctBy(BuildNumber, builds)
    && forall i :: 0 <= i < |builds| ==> BuildServes(files, repository, builds[i], published)
  }

  ghost predicate PublishedServes(files: Files) {
    && DistinctEntries(IndexOf(files)) && AllReadable(files, IndexOf(files))
    && Acceptable(PublishedRuns(files)) && Displayable(files, PublishedRuns(files))
  }

  /** When assembly succeeds. */
  ghost predicate Assembles(files: Files, repository: Text, builds: seq<Build>) {
    PublishedServes(files) && BuildsServe(files, repository, builds, PublishedRuns(files))
  }

  function PreviewData(leq: Order, files: Files, repository: Text, build: Build, published: seq<Bundle>): SiteData {
    DataFor(leq, files, PreviewBundles(files, repository, build, published),
            Some(PreviewFor(files, repository, build, published)))
  }

  function PreviewOf(leq: Order, files: Files, repository: Text, published: seq<Bundle>): Build -> SiteData {
    (build: Build) => PreviewData(leq, files, repository, build, published)
  }

  /** The data directories of the previews, by pull request. */
  function Previews(leq: Order, files: Files, repository: Text, builds: seq<Build>, published: seq<Bundle>)
    : map<nat, SiteData>
  {
    Lists.KeyedMap(BuildNumber, PreviewOf(leq, files, repository, published), builds)
  }

  method ReadPending(files: Files, repository: Text, build: Build, published: seq<Bundle>)
    returns (r: Result<Option<Bundle>>)
    ensures r.Ok? <==> PendingReadable(files, build)
    ensures r.Ok? ==> r.value == PendingRun(files, repository, build, published)
  {
    if !build.includePending || build.number !in files.pointers {
      return Ok(None);
    }
    var run := files.pointers[build.number].run;
    if run !in files.runs {
      return Err(NotFound);
    }
    var b := files.runs[run];
    var complete := ValidateCompleteRun(b);
    if complete.Err? {
      return Err(complete.error);
    }
    if b.source != Published {
      return Err(NotMeasured);
    }
    if RunIdOf(b) != run {
      return Err(DifferentRun);
    }
    if b.run.pullRequest == Some(PullRequest(repository, build.number, build.head, build.base)) {
      if !(exists other <- published :: KeyOfRun(other) == KeyOfRun(b)) {
        return Ok(Some(b));
      }
    }
    return Ok(None);
  }

  method ServePreview(leq: Order, files: Files, repository: Text, build: Build, published: seq<Bundle>)
    returns (r: Result<SiteData>)
    requires TotalOrder(leq)
    ensures r.Ok? <==> BuildServes(files, repository, build, published)
    ensures r.Ok? ==> r.value == PreviewData(leq, files, repository, build, published)
  {
    var read := ReadPending(files, repository, build, published);
    if read.Err? {
      return Err(read.error);
    }
    var bundles, pending := published, None;
    if read.value.Some? {
      bundles := bundles + [read.value.value];
      pending := Some(files.pointers[build.number].run);
      assert bundles[|published|] == read.value.value;
    }
    r := ServeData(leq, files, bundles, Some(Preview(build.number, build.head, pending)));
  }

  /** The first previews are done. */
  ghost predicate Progress(leq: Order, files: Files, repository: Text, builds: seq<Build>, published: seq<Bundle>,
                           done: nat, seen: set<nat>, previews: map<nat, SiteData>) {
    && done <= |builds|
    && BuildsServe(files, repository, builds[..done], published)
    && previews == Previews(leq, files, repository, builds[..done], published)
    && seen == previews.Keys
  }

  lemma OneMoreServes(files: Files, repository: Text, builds: seq<Build>, published: seq<Bundle>, done: nat)
    requires done < |builds| && BuildsServe(files, repository, builds[..done], published)
    requires BuildServes(files, repository, builds[done], published)
    requires Lists.DistinctBy(BuildNumber, builds[..done + 1])
    ensures BuildsServe(files, repository, builds[..done + 1], published)
  {
  }

  lemma ProgressMade(leq: Order, files: Files, repository: Text, builds: seq<Build>, published: seq<Bundle>, done: nat,
                     seen: set<nat>, previews: map<nat, SiteData>)
    requires Progress(leq, files, repository, builds, published, done, seen, previews) && done < |builds|
    requires builds[done].number !in seen && BuildServes(files, repository, builds[done], published)
    ensures
      var number, data := builds[done].number, PreviewData(leq, files, repository, builds[done], published);
      Progress(leq, files, repository, builds, published, done + 1, seen + {number}, previews[number := data])
  {
    var value := PreviewOf(leq, files, repository, published);
    Lists.NewKey(BuildNumber, value, builds, done);
    OneMoreServes(files, repository, builds, published, done);
    Lists.KeyedMapStep(BuildNumber, value, builds, done);
  }

  lemma DuplicateFails(leq: Order, files: Files, repository: Text, builds: seq<Build>, published: seq<Bundle>,
                       done: nat, seen: set<nat>, previews: map<nat, SiteData>)
    requires Progress(leq, files, repository, builds, published, done, seen, previews) && done < |builds|
    requires builds[done].number in seen
    ensures !BuildsServe(files, repository, builds, published)
  {
    Lists.NewKey(BuildNumber, PreviewOf(leq, files, repository, published), builds, done);
    Lists.DistinctPrefix(BuildNumber, builds, done + 1);
  }

  lemma AllDone(builds: seq<Build>)
    ensures builds[..|builds|] == builds
  {
  }

  /** The loop over the previews. */
  method ServePreviews(leq: Order, files: Files, repository: Text, builds: seq<Build>, published: seq<Bundle>)
    returns (r: Result<map<nat, SiteData>>)
    requires TotalOrder(leq)
    ensures r.Ok? <==> BuildsServe(files, repository, builds, published)
    ensures r.Ok? ==> r.value == Previews(leq, files, repository, builds, published)
  {
    var seen: set<nat> := {};
    var previews: map<nat, SiteData> := map[];
    for i := 0 to |builds|
      invariant Progress(leq, files, repository, builds, published, i, seen, previews)
    {
      var build := builds[i];
      if build.number in seen {
        DuplicateFails(leq, files, repository, builds, published, i, seen, previews);
        return Err(DuplicatePreview);
      }
      var data := ServePreview(leq, files, repository, build, published);
      if data.Err? {
        return Err(data.error);
      }
      ProgressMade(leq, files, repository, builds, published, i, seen, previews);
      seen := seen + {build.number};
      previews := previews[build.number := data.value];
    }
    AllDone(builds);
    return Ok(previews);
  }

  ghost function SiteOf(leq: Order, files: Files, repository: Text, builds: seq<Build>): SiteFiles
    requires AllReadable(files, IndexOf(files))
  {
    var published := PublishedRuns(files);
    SiteFiles(DataFor(leq, files, published, None), Previews(leq, files, repository, builds, published))
  }

  method AssembleSite(leq: Order, files: Files, repository: Text, builds: seq<Build>) returns (r: Result<SiteFiles>)
    requires TotalOrder(leq)
    ensures r.Ok? <==> Assembles(files, repository, builds)
    ensures r.Ok? ==> r.value == SiteOf(leq, files, repository, builds)
  {
    var published := Commands.ReadHistory(files);
    if published.Err? {
      return Err(published.error);
    }
    var production := ServeData(leq, files, published.value, None);
    if production.Err? {
      return Err(production.error);
    }
    var previews := ServePreviews(leq, files, repository, builds, published.value);
    if previews.Err? {
      return Err(previews.error);
    }
    return Ok(SiteFiles(production.value, previews.value));
  }
}
