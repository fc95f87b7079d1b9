/** What the dashboard shows of the bundles it has loaded. */
module Selecting {
  import opened Texts
  import opened Bundles
  import opened Catalogs
  import opened Histories
  import opened Grouping
  import opened Store
  import opened Serving
  import opened Datasets
  import opened Dashboard
  import opened Site
  import opened Viewing
  import Lists
  import Sorting

  // Nothing here speaks of how a history is looked up or a run renamed: the statements are about the runs
  // that a view has to show, their order and their names.

  // ---------------------------------------------------------------- which versions are shown

  ghost predicate HasKey(bundles: seq<Bundle>, key: Text) {
    exists b :: b in bundles && RunKey(RunIdOf(b)) == key
  }

  ghost predicate HasRun(bundles: seq<Bundle>, run: RunId) {
    exists b :: b in bundles && RunIdOf(b) == run
  }

  /** The run whose history is shown by default: the selected one, else the pending one, else a newest one. */
  ghost predicate Decides(leq: Order, bundles: seq<Bundle>, selectedRun: Option<Text>, pending: Option<RunId>,
                          r: Bundle) {
    && r in bundles
    && if selectedRun.Some? && HasKey(bundles, selectedRun.value) then RunKey(RunIdOf(r)) == selectedRun.value
       else if pending.Some? && HasRun(bundles, pending.value) then RunIdOf(r) == pending.value
       else forall b :: b in bundles ==> !Before(leq, r, b)
  }

  ghost predicate HasVersion(bundles: seq<Bundle>, version: nat) {
    exists b :: b in bundles && b.benchmark.version == version
  }

  /** The versions that are shown: the requested ones, or that of the deciding run. */
  ghost predicate Chosen(leq: Order, bundles: seq<Bundle>, versions: Option<seq<Text>>, selectedRun: Option<Text>,
                         pending: Option<RunId>, shown: seq<nat>) {
    match versions
    case Some(requested) =>
      && |shown| == |requested|
      && forall i :: 0 <= i < |shown| ==> Decimal(shown[i]) == requested[i] && HasVersion(bundles, shown[i])
    case None => exists r :: Decides(leq, bundles, selectedRun, pending, r) && shown == [r.benchmark.version]
  }

  /** A list of the runs of one version, in strict order of creation. */
  ghost predicate HistoryOfVersion(leq: Order, bundles: seq<Bundle>, g: seq<Bundle>) {
    && g != [] && Ascending(leq, g)
    && forall b :: b in g <==> b in bundles && b.benchmark.version == g[0].benchmark.version
  }

  lemma GroupsAreHistories(leq: Order, bundles: seq<Bundle>, g: seq<Bundle>)
    requires TotalOrder(leq) && Acceptable(bundles) && g in HistoriesOf(leq, bundles)
    ensures HistoryOfVersion(leq, bundles, g) && DistinctRuns(g)
  {
    GroupsAscending(leq, bundles, g);
    GroupIsVersion(leq, bundles, g);
  }

  lemma {:induction false} ContainingFinds(groups: seq<seq<Bundle>>, key: Text)
    ensures
      match Containing(groups, key)
      case Some(g) => g in groups && HasKey(g, key)
      case None => forall g :: g in groups ==> !HasKey(g, key)
  {
    if groups != [] {
      ContainingFinds(groups[1..], key);
    }
  }

  lemma ContainingIff(leq: Order, bundles: seq<Bundle>, key: Text)
    requires TotalOrder(leq) && Acceptable(bundles)
    ensures
      match Containing(HistoriesOf(leq, bundles), key)
      case Some(g) => g in HistoriesOf(leq, bundles) && HasKey(g, key)
      case None => !HasKey(bundles, key)
  {
    ContainingFinds(HistoriesOf(leq, bundles), key);
    if b :| b in bundles && RunKey(RunIdOf(b)) == key {
      EveryRunGrouped(leq, bundles, b);
    }
  }

  lemma KeyedMember(leq: Order, bundles: seq<Bundle>, g: seq<Bundle>, key: Text) returns (r: Bundle)
    requires TotalOrder(leq) && Acceptable(bundles) && g in HistoriesOf(leq, bundles) && HasKey(g, key)
    ensures r in g && r in bundles && RunKey(RunIdOf(r)) == key && HasKey(bundles, key)
  {
    GroupIsVersion(leq, bundles, g);
    r :| r in g && RunKey(RunIdOf(r)) == key;
  }

  lemma KeyIsRun(bundles: seq<Bundle>, run: RunId)
    ensures HasKey(bundles, RunKey(run)) <==> HasRun(bundles, run)
  {
    forall b | b in bundles
      ensures RunKey(RunIdOf(b)) == RunKey(run) <==> RunIdOf(b) == run
    {
      RunKeyInjective(RunIdOf(b), run);
    }
  }

  lemma KeyedGroupIff(leq: Order, bundles: seq<Bundle>, key: Option<Text>)
    requires TotalOrder(leq) && Acceptable(bundles)
    ensures
      match KeyedGroup(HistoriesOf(leq, bundles), key)
      case Some(g) => key.Some? && g in HistoriesOf(leq, bundles) && HasKey(g, key.value)
      case None => key.Some? ==> !HasKey(bundles, key.value)
  {
    if key.Some? {
      ContainingIff(leq, bundles, key.value);
    }
  }

  lemma PendingGroupIff(leq: Order, bundles: seq<Bundle>, pending: RunId) returns (r: Bundle)
    requires TotalOrder(leq) && Acceptable(bundles)
    requires KeyedGroup(HistoriesOf(leq, bundles), Some(RunKey(pending))).Some?
    ensures HasRun(bundles, pending) && r in bundles && RunIdOf(r) == pending
    ensures r in KeyedGroup(HistoriesOf(leq, bundles), Some(RunKey(pending))).value
  {
    KeyedGroupIff(leq, bundles, Some(RunKey(pending)));
    r := KeyedMember(leq, bundles, KeyedGroup(HistoriesOf(leq, bundles), Some(RunKey(pending))).value, RunKey(pending));
    RunKeyInjective(RunIdOf(r), pending);
  }

  lemma NewestDecides(leq: Order, bundles: seq<Bundle>) returns (r: Bundle)
    requires TotalOrder(leq) && Acceptable(bundles) && bundles != []
    ensures HistoriesOf(leq, bundles) != [] && r in HistoriesOf(leq, bundles)[0]
    ensures r in bundles && forall b :: b in bundles ==> !Before(leq, r, b)
  {
    HistoriesNewestFirst(leq, bundles);
    var g := HistoriesOf(leq, bundles)[0];
    GroupIsVersion(leq, bundles, g);
    r := Last(g);
    assert r in g;
  }

  lemma DefaultDecides(leq: Order, bundles: seq<Bundle>, selectedRun: Option<Text>, pending: Option<RunId>)
    returns (r: Bundle)
    requires TotalOrder(leq) && Acceptable(bundles) && bundles != []
    ensures HistoriesOf(leq, bundles) != []
    ensures
      var g := DefaultGroup(HistoriesOf(leq, bundles), selectedRun, pending);
      g in HistoriesOf(leq, bundles) && r in g && Decides(leq, bundles, selectedRun, pending, r)
  {
    var groups := HistoriesOf(leq, bundles);
    r := NewestDecides(leq, bundles);
    KeyedGroupIff(leq, bundles, selectedRun);
    if KeyedGroup(groups, selectedRun).Some? {
      r := KeyedMember(leq, bundles, KeyedGroup(groups, selectedRun).value, selectedRun.value);
    } else if pending.Some? {
      KeyIsRun(bundles, pending.value);
      KeyedGroupIff(leq, bundles, Some(RunKey(pending.value)));
      if KeyedGroup(groups, Some(RunKey(pending.value))).Some? {
        r := PendingGroupIff(leq, bundles, pending.value);
      }
    }
  }

  // ---------------------------------------------------------------- requested versions

  lemma {:induction false} WithVersionFinds(groups: seq<seq<Bundle>>, version: Text)
    ensures
      match WithVersion(groups, version)
      case Some(g) => g in groups && g != [] && Decimal(g[0].benchmark.version) == version
      case None => forall g: seq<Bundle> :: g in groups && g != [] ==> Decimal(g[0].benchmark.version) != version
  {
    if groups != [] {
      WithVersionFinds(groups[1..], version);
    }
  }

  ghost predicate OffersVersion(bundles: seq<Bundle>, version: Text) {
    exists b :: b in bundles && Decimal(b.benchmark.version) == version
  }

  lemma WithVersionIff(leq: Order, bundles: seq<Bundle>, version: Text)
    requires TotalOrder(leq) && Acceptable(bundles)
    ensures WithVersion(HistoriesOf(leq, bundles), version).Some? <==> OffersVersion(bundles, version)
  {
    var groups := HistoriesOf(leq, bundles);
    WithVersionFinds(groups, version);
    if WithVersion(groups, version).Some? {
      var g := WithVersion(groups, version).value;
      GroupIsVersion(leq, bundles, g);
      assert g[0] in g;
    }
    if b :| b in bundles && Decimal(b.benchmark.version) == version {
      EveryRunGrouped(leq, bundles, b);
      var g :| g in groups && b in g;
      GroupIsVersion(leq, bundles, g);
    }
  }

  /** A request can be met exactly when it names different versions, each of which some run has. */
  lemma GoodRequestIff(leq: Order, bundles: seq<Bundle>, versions: seq<Text>)
    requires TotalOrder(leq) && Acceptable(bundles)
    ensures GoodRequest(HistoriesOf(leq, bundles), versions) <==>
      && (forall i, j :: 0 <= i < j < |versions| ==> versions[i] != versions[j])
      && forall i :: 0 <= i < |versions| ==> OffersVersion(bundles, versions[i])
  {
    forall i | 0 <= i < |versions|
      ensures WithVersion(HistoriesOf(leq, bundles), versions[i]).Some? <==> OffersVersion(bundles, versions[i])
    {
      WithVersionIff(leq, bundles, versions[i]);
    }
  }

  /** What is known of selected histories, whether requested or shown by default. */
  ghost predicate Selected(leq: Order, bundles: seq<Bundle>, versions: Option<seq<Text>>, selectedRun: Option<Text>,
                           pending: Option<RunId>, selected: seq<seq<Bundle>>) {
    && (forall i :: 0 <= i < |selected| ==>
      && selected[i] in HistoriesOf(leq, bundles)
      && HistoryOfVersion(leq, bundles, selected[i]) && DistinctRuns(selected[i]))
    && (forall i, j :: 0 <= i < j < |selected| && selected[i] != [] && selected[j] != [] ==>
      selected[i][0].benchmark.version != selected[j][0].benchmark.version)
    && Chosen(leq, bundles, versions, selectedRun, pending, VersionsIn(selected))
  }

  lemma RequestedSelected(leq: Order, bundles: seq<Bundle>, versions: seq<Text>, selectedRun: Option<Text>,
                          pending: Option<RunId>)
    requires TotalOrder(leq) && Acceptable(bundles) && GoodRequest(HistoriesOf(leq, bundles), versions)
    ensures Selected(leq, bundles, Some(versions), selectedRun, pending, Requested(HistoriesOf(leq, bundles), versions))
  {
    var groups := HistoriesOf(leq, bundles);
    var selected := Requested(groups, versions);
    forall i | 0 <= i < |versions|
      ensures selected[i] in groups && HistoryOfVersion(leq, bundles, selected[i]) && DistinctRuns(selected[i])
      ensures Decimal(selected[i][0].benchmark.version) == versions[i]
      ensures HasVersion(bundles, selected[i][0].benchmark.version)
    {
      WithVersionFinds(groups, versions[i]);
      GroupsAreHistories(leq, bundles, selected[i]);
      assert selected[i][0] in selected[i];
    }
    forall i, j | 0 <= i < j < |versions|
      ensures selected[i][0].benchmark.version != selected[j][0].benchmark.version
    {
      assert Itself(versions[i]) != Itself(versions[j]);
    }
  }

  lemma DefaultSelected(leq: Order, bundles: seq<Bundle>, selectedRun: Option<Text>, pending: Option<RunId>)
    requires TotalOrder(leq) && Acceptable(bundles) && bundles != []
    ensures HistoriesOf(leq, bundles) != []
    ensures Selected(leq, bundles, None, selectedRun, pending,
                     [DefaultGroup(HistoriesOf(leq, bundles), selectedRun, pending)])
  {
    var r := DefaultDecides(leq, bundles, selectedRun, pending);
    var g := DefaultGroup(HistoriesOf(leq, bundles), selectedRun, pending);
    GroupsAreHistories(leq, bundles, g);
    assert VersionsIn([g]) == [r.benchmark.version];
  }

  lemma SelectionSelected(leq: Order, bundles: seq<Bundle>, index: SiteIndex, versions: Option<seq<Text>>,
                          selectedRun: Option<Text>)
    requires TotalOrder(leq) && Acceptable(bundles) && bundles != []
    requires versions.Some? ==> GoodRequest(HistoriesOf(leq, bundles), versions.value)
    ensures HistoriesOf(leq, bundles) != []
    ensures Selected(leq, bundles, versions, selectedRun, PendingOf(index),
                     Selection(HistoriesOf(leq, bundles), index, versions, selectedRun))
  {
    DefaultSelected(leq, bundles, selectedRun, PendingOf(index));
    if versions.Some? {
      RequestedSelected(leq, bundles, versions.value, selectedRun, PendingOf(index));
    }
  }

  // ---------------------------------------------------------------- the runs that are shown

  /** Exactly the runs of the given versions, in strict order of creation. */
  ghost predicate RunsOfVersions(leq: Order, bundles: seq<Bundle>, versions: seq<nat>, ordered: seq<Bundle>) {
    Ascending(leq, ordered) && forall b :: b in ordered <==> b in bundles && b.benchmark.version in versions
  }

  lemma FlatDistinct(leq: Order, bundles: seq<Bundle>, selected: seq<seq<Bundle>>)
    requires DistinctRuns(bundles)
    requires forall i :: 0 <= i < |selected| ==>
      HistoryOfVersion(leq, bundles, selected[i]) && DistinctRuns(selected[i])
    requires forall i, j :: 0 <= i < j < |selected| ==>
      selected[i] != [] && selected[j] != [] && selected[i][0].benchmark.version != selected[j][0].benchmark.version
    ensures DistinctRuns(Flat(selected))
  {
    Lists.DistinctByMeans(RunOf, bundles);
    forall i, j, x, y | 0 <= i < j < |selected| && x in Members(selected[i]) && y in Members(selected[j])
      ensures RunOf(x) != RunOf(y)
    {
      assert x in bundles && y in bundles && x != y;
    }
    Lists.FlatMapKeyed(Members, RunOf, selected);
  }

  lemma FlatHolds(leq: Order, bundles: seq<Bundle>, selected: seq<seq<Bundle>>)
    requires forall i :: 0 <= i < |selected| ==> HistoryOfVersion(leq, bundles, selected[i])
    ensures forall b :: b in Flat(selected) <==> b in bundles && b.benchmark.version in VersionsIn(selected)
  {
    var versions := VersionsIn(selected);
    forall b
      ensures b in Flat(selected) <==> b in bundles && b.benchmark.version in versions
    {
      Lists.FlatMapIn(Members, selected, b);
      if b in Flat(selected) {
        var i :| 0 <= i < |selected| && b in Members(selected[i]);
        assert versions[i] == b.benchmark.version;
      }
      if b in bundles && b.benchmark.version in versions {
        var i :| 0 <= i < |versions| && versions[i] == b.benchmark.version;
        assert b in selected[i];
        assert b in Members(selected[i]);
      }
    }
  }

  lemma SelectedInOrder(leq: Order, bundles: seq<Bundle>, versions: Option<seq<Text>>, selectedRun: Option<Text>,
                        pending: Option<RunId>, selected: seq<seq<Bundle>>)
    requires TotalOrder(leq) && DistinctRuns(bundles)
    requires Selected(leq, bundles, versions, selectedRun, pending, selected)
    ensures RunsOfVersions(leq, bundles, VersionsIn(selected), Sorting.Sort(RunOrder(leq), Flat(selected)))
  {
    var flat := Flat(selected);
    FlatDistinct(leq, bundles, selected);
    FlatHolds(leq, bundles, selected);
    Sorting.SortElements(RunOrder(leq), flat);
    OrdersSort(leq);
    Sorting.SortSorted(RunOrder(leq), flat);
    Lists.DistinctByPermuted(RunOf, flat, Sorting.Sort(RunOrder(leq), flat));
    SortedStrictly(leq, Sorting.Sort(RunOrder(leq), flat));
  }

  // ---------------------------------------------------------------- how the runs are named

  /** A run under its own commit, or under the commit that an index displays it with. */
  ghost predicate NamedAs(display: Option<DisplayCommit>, b: Bundle, s: Summary) {
    match display
    case None =>
      && IsShort(s.commit, b.run.commit.sha) && s.message == b.run.commit.message && s.commitUrl == b.run.commit.url
    case Some(d) => IsShort(s.commit, d.sha) && s.message == d.message && s.commitUrl == Some(d.url)
  }

  ghost predicate NamedBy(entries: seq<IndexEntry>, b: Bundle, s: Summary) {
    && s.id == RunKey(RunIdOf(b)) && s.date == b.run.createdAt && s.runners == b.runners
    && forall e :: e in entries && e.run == RunIdOf(b) ==> NamedAs(e.display, b, s)
  }

  lemma {:induction false} DisplayFound(entries: seq<IndexEntry>, e: IndexEntry)
    requires DistinctEntries(entries) && e in entries
    ensures DisplayOf(entries, RunKey(e.run)) == e.display
  {
    RunKeyInjective(entries[0].run, e.run);
    if e != entries[0] {
      var i :| 0 <= i < |entries| && entries[i] == e;
      assert EntryRun(entries[0]) != EntryRun(entries[i]);
      assert entries[1..][i - 1] == e;
      DisplayFound(entries[1..], e);
    }
  }

  lemma ShownNamed(entries: seq<IndexEntry>, f: Bundle -> Bundle, b: Bundle)
    requires ChangesCatalogs(f) && DistinctEntries(entries)
    ensures NamedBy(entries, b, Shown(entries)(Summarize(f(b))))
  {
    SummarizeDescribes(f(b));
    forall e | e in entries && e.run == RunIdOf(b)
      ensures NamedAs(e.display, b, Shown(entries)(Summarize(f(b))))
    {
      DisplayFound(entries, e);
      if e.display.Some? {
        ShortIsShort(e.display.value.sha);
      }
    }
  }

  lemma ShortIsShort(sha: Text)
    ensures IsShort(ShortSha(sha), sha)
  {
  }

  // ---------------------------------------------------------------- what a view reports

  /** The runs under their names, the rows of their measurements, and nothing else. */
  ghost predicate ViewReports(entries: seq<IndexEntry>, ordered: seq<Bundle>, view: View) {
    && |view.dataset.runs| == |ordered|
    && (forall i :: 0 <= i < |ordered| ==> NamedBy(entries, ordered[i], view.dataset.runs[i]))
    && RowsReport(ordered, view.dataset.rows)
    && forall b :: b in ordered ==> view.dataset.source == b.source
  }

  /** The versions to choose from, each once, the one with the newest run first. */
  ghost predicate OffersVersions(leq: Order, bundles: seq<Bundle>, versions: seq<nat>) {
    && (forall v :: v in versions <==> HasVersion(bundles, v))
    && forall i, j :: 0 <= i < j < |versions| ==>
      versions[i] != versions[j] && NewerVersion(leq, bundles, versions[i], versions[j])
  }

  ghost predicate NewerVersion(leq: Order, bundles: seq<Bundle>, v: nat, w: nat) {
    exists b :: b in bundles && b.benchmark.version == v &&
      forall c :: c in bundles && c.benchmark.version == w ==> Before(leq, c, b)
  }

  lemma HistoriesInOrder(leq: Order, bundles: seq<Bundle>, selected: seq<seq<Bundle>>)
    requires TotalOrder(leq) && Acceptable(bundles) && forall b :: b in bundles ==> Parses(b)
    requires forall i :: 0 <= i < |selected| ==> selected[i] in HistoriesOf(leq, bundles)
    ensures InOrder(leq, selected)
  {
    forall i | 0 <= i < |selected|
      ensures selected[i] != [] && Sorting.Sort(RunOrder(leq), selected[i]) == selected[i]
    {
      GroupGood(leq, bundles, selected[i]);
    }
  }

  lemma InOrderMap(leq: Order, f: Bundle -> Bundle, selected: seq<seq<Bundle>>)
    requires ChangesCatalogs(f) && InOrder(leq, selected)
    ensures InOrder(leq, Lists.Map(OnGroups(f), selected))
  {
    forall i | 0 <= i < |selected|
      ensures Sorting.Sort(RunOrder(leq), Lists.Map(f, selected[i])) == Lists.Map(f, selected[i])
    {
      SortRunsMap(leq, f, selected[i]);
    }
  }

  lemma FlatOne(g: seq<Bundle>)
    ensures Flat([g]) == g
  {
    assert [g][..0] == [] && Flat([]) == [];
    assert Flat([g]) == Flat([g][..0]) + g;
  }

  /** Runs and rows of one or several histories in order. */
  lemma CombinedReports(leq: Order, selected: seq<seq<Bundle>>)
    requires selected != [] && InOrder(leq, selected)
    ensures
      var ordered := Sorting.Sort(RunOrder(leq), Flat(selected));
      && Combined(leq, selected).runs == Lists.Map(Summarize, ordered)
      && multiset(Combined(leq, selected).rows) == multiset(Lists.FlatMap(RowsOf, ordered))
  {
    if |selected| == 1 {
      assert selected == [selected[0]];
      FlatOne(selected[0]);
      InOrderRuns(leq, selected[0]);
    } else {
      CombinedLikeOneHistory(leq, selected);
    }
  }

  lemma CombinedSource(leq: Order, selected: seq<seq<Bundle>>)
    requires selected != [] && InOrder(leq, selected)
    ensures Combined(leq, selected).source == selected[0][0].source
  {
    Sorting.SortElements(RunOrder(leq), selected[0]);
  }

  lemma ServedOrder(leq: Order, f: Bundle -> Bundle, selected: seq<seq<Bundle>>)
    requires ChangesCatalogs(f) && InOrder(leq, selected)
    ensures InOrder(leq, Lists.Map(OnGroups(f), selected))
    ensures Sorting.Sort(RunOrder(leq), Flat(Lists.Map(OnGroups(f), selected))) ==
      Lists.Map(f, Sorting.Sort(RunOrder(leq), Flat(selected)))
  {
    InOrderMap(leq, f, selected);
    FlatMapOnGroups(f, selected);
    SortRunsMap(leq, f, Flat(selected));
  }

  lemma ServedReports(leq: Order, f: Bundle -> Bundle, selected: seq<seq<Bundle>>)
    requires ChangesCatalogs(f) && selected != [] && InOrder(leq, selected)
    ensures
      var combined := Combined(leq, Lists.Map(OnGroups(f), selected));
      var ordered := Sorting.Sort(RunOrder(leq), Flat(selected));
      && combined.runs == Lists.Map(Summarize, Lists.Map(f, ordered))
      && multiset(combined.rows) == multiset(Lists.FlatMap(RowsOf, ordered))
  {
    ServedOrder(leq, f, selected);
    CombinedReports(leq, Lists.Map(OnGroups(f), selected));
    RowsKept(f);
    FlatMapSame(RowsOf, f, Sorting.Sort(RunOrder(leq), Flat(selected)));
  }

  lemma ShownAllNamed(entries: seq<IndexEntry>, f: Bundle -> Bundle, ordered: seq<Bundle>)
    requires ChangesCatalogs(f) && DistinctEntries(entries)
    ensures
      var runs := Lists.Map(Shown(entries), Lists.Map(Summarize, Lists.Map(f, ordered)));
      |runs| == |ordered| && forall i :: 0 <= i < |ordered| ==> NamedBy(entries, ordered[i], runs[i])
  {
    var runs := Lists.Map(Shown(entries), Lists.Map(Summarize, Lists.Map(f, ordered)));
    forall i | 0 <= i < |ordered|
      ensures NamedBy(entries, ordered[i], runs[i])
    {
      assert runs[i] == Shown(entries)(Summarize(f(ordered[i])));
      ShownNamed(entries, f, ordered[i]);
    }
  }

  lemma RowsTaken(ordered: seq<Bundle>, rows: seq<Row>)
    requires multiset(rows) == multiset(Lists.FlatMap(RowsOf, ordered)) && forall b :: b in ordered ==> Parses(b)
    ensures RowsReport(ordered, rows)
  {
    Lists.SameElements(rows, Lists.FlatMap(RowsOf, ordered));
    RowsAreMeasurements(ordered);
  }

  lemma VersionOffered(leq: Order, bundles: seq<Bundle>, v: nat)
    requires TotalOrder(leq) && Acceptable(bundles)
    ensures v in VersionsIn(HistoriesOf(leq, bundles)) <==> HasVersion(bundles, v)
  {
    var groups := HistoriesOf(leq, bundles);
    var versions := VersionsIn(groups);
    if v in versions {
      var i :| 0 <= i < |versions| && versions[i] == v;
      GroupsAreHistories(leq, bundles, groups[i]);
      assert groups[i][0] in groups[i];
    }
    if b :| b in bundles && b.benchmark.version == v {
      EveryRunGrouped(leq, bundles, b);
      var g :| g in groups && b in g;
      GroupsAreHistories(leq, bundles, g);
      var i :| 0 <= i < |groups| && groups[i] == g;
      assert versions[i] == v;
    }
  }

  lemma VersionsOffered(leq: Order, bundles: seq<Bundle>)
    requires TotalOrder(leq) && Acceptable(bundles)
    ensures OffersVersions(leq, bundles, VersionsIn(HistoriesOf(leq, bundles)))
  {
    var versions := VersionsIn(HistoriesOf(leq, bundles));
    forall v
      ensures v in versions <==> HasVersion(bundles, v)
    {
      VersionOffered(leq, bundles, v);
    }
    forall i, j | 0 <= i < j < |versions|
      ensures versions[i] != versions[j] && NewerVersion(leq, bundles, versions[i], versions[j])
    {
      VersionsDescend(leq, bundles, i, j);
    }
  }

  lemma LastIsNewest(leq: Order, g: seq<Bundle>, h: seq<Bundle>, c: Bundle)
    requires TotalOrder(leq) && Ascending(leq, h) && g != [] && h != [] && c in h && Before(leq, Last(h), Last(g))
    ensures Before(leq, c, Last(g))
  {
    var k :| 0 <= k < |h| && h[k] == c;
    if k < |h| - 1 {
      assert Before(leq, h[k], h[|h| - 1]);
      BeforeTransitive(leq, c, Last(h), Last(g));
    }
  }

  lemma BeforeTransitive(leq: Order, a: Bundle, b: Bundle, c: Bundle)
    requires TotalOrder(leq) && Before(leq, a, b) && Before(leq, b, c)
    ensures Before(leq, a, c)
  {
    RunKeyInjective(RunIdOf(a), RunIdOf(b));
    RunKeyInjective(RunIdOf(b), RunIdOf(c));
    RunKeyInjective(RunIdOf(a), RunIdOf(c));
  }

  lemma VersionsDescend(leq: Order, bundles: seq<Bundle>, i: nat, j: nat)
    requires TotalOrder(leq) && Acceptable(bundles) && i < j < |HistoriesOf(leq, bundles)|
    ensures
      var versions := VersionsIn(HistoriesOf(leq, bundles));
      versions[i] != versions[j] && NewerVersion(leq, bundles, versions[i], versions[j])
  {
    var groups := HistoriesOf(leq, bundles);
    var g, h := groups[i], groups[j];
    HistoriesDescend(leq, bundles, i, j);
    HistoriesPartition(leq, bundles);
    GroupsAreHistories(leq, bundles, g);
    GroupsAreHistories(leq, bundles, h);
    assert VersionOf(g) != VersionOf(h);
    assert Last(g) in g;
    forall c | c in bundles && c.benchmark.version == h[0].benchmark.version
      ensures Before(leq, c, Last(g))
    {
      LastIsNewest(leq, g, h, c);
    }
  }

  /** A view of selected histories, whose catalogs may have been rewritten. */
  lemma SelectionReports(leq: Order, f: Bundle -> Bundle, bundles: seq<Bundle>, index: SiteIndex,
                         versions: Option<seq<Text>>, selectedRun: Option<Text>, view: View)
    returns (ordered: seq<Bundle>)
    requires TotalOrder(leq) && Acceptable(bundles) && bundles != [] && ChangesCatalogs(f)
    requires forall b :: b in bundles ==> Parses(b)
    requires DistinctEntries(index.runs)
    requires versions.Some? ==> versions.value != [] && GoodRequest(HistoriesOf(leq, bundles), versions.value)
    requires HistoriesOf(leq, bundles) != []
    requires
      var groups := HistoriesOf(leq, bundles);
      var selected := Selection(groups, index, versions, selectedRun);
      && selected != []
      && view == ViewOf(leq, index, Lists.Map(OnGroups(f), groups), Lists.Map(OnGroups(f), selected))
    ensures Chosen(leq, bundles, versions, selectedRun, PendingOf(index), view.shown)
    ensures OffersVersions(leq, bundles, view.histories) && view.preview == index.preview
    ensures RunsOfVersions(leq, bundles, view.shown, ordered) && ViewReports(index.runs, ordered, view)
  {
    var groups := HistoriesOf(leq, bundles);
    var selected := Selection(groups, index, versions, selectedRun);
    SelectionSelected(leq, bundles, index, versions, selectedRun);
    SelectedInOrder(leq, bundles, versions, selectedRun, PendingOf(index), selected);
    VersionsMap(f, groups);
    VersionsMap(f, selected);
    VersionsOffered(leq, bundles);
    ordered := Sorting.Sort(RunOrder(leq), Flat(selected));
    HistoriesReport(leq, f, bundles, index, selected, view);
  }

  lemma HistoriesReport(leq: Order, f: Bundle -> Bundle, bundles: seq<Bundle>, index: SiteIndex,
                        selected: seq<seq<Bundle>>, view: View)
    requires TotalOrder(leq) && Acceptable(bundles) && ChangesCatalogs(f) && selected != []
    requires forall b :: b in bundles ==> Parses(b)
    requires DistinctEntries(index.runs)
    requires forall i :: 0 <= i < |selected| ==>
      selected[i] in HistoriesOf(leq, bundles) && HistoryOfVersion(leq, bundles, selected[i])
    requires view.dataset ==
      var combined := Combined(leq, Lists.Map(OnGroups(f), selected));
      combined.(runs := Lists.Map(Shown(index.runs), combined.runs))
    ensures ViewReports(index.runs, Sorting.Sort(RunOrder(leq), Flat(selected)), view)
  {
    HistoriesInOrder(leq, bundles, selected);
    FlatHolds(leq, bundles, selected);
    OrderedReports(leq, f, index, selected, view);
    SourceReported(leq, f, bundles, selected);
    Sorting.SortElements(RunOrder(leq), Flat(selected));
  }

  lemma OrderedReports(leq: Order, f: Bundle -> Bundle, index: SiteIndex, selected: seq<seq<Bundle>>, view: View)
    requires ChangesCatalogs(f) && selected != [] && InOrder(leq, selected) && DistinctEntries(index.runs)
    requires forall b :: b in Flat(selected) ==> Parses(b)
    requires view.dataset ==
      var combined := Combined(leq, Lists.Map(OnGroups(f), selected));
      combined.(runs := Lists.Map(Shown(index.runs), combined.runs))
    ensures
      var ordered := Sorting.Sort(RunOrder(leq), Flat(selected));
      && |view.dataset.runs| == |ordered|
      && (forall i :: 0 <= i < |ordered| ==> NamedBy(index.runs, ordered[i], view.dataset.runs[i]))
      && RowsReport(ordered, view.dataset.rows)
  {
    var ordered := Sorting.Sort(RunOrder(leq), Flat(selected));
    Sorting.SortElements(RunOrder(leq), Flat(selected));
    ServedReports(leq, f, selected);
    ShownAllNamed(index.runs, f, ordered);
    RowsTaken(ordered, view.dataset.rows);
  }

  lemma SourceReported(leq: Order, f: Bundle -> Bundle, bundles: seq<Bundle>, selected: seq<seq<Bundle>>)
    requires ChangesCatalogs(f) && selected != [] && InOrder(leq, selected) && SameSource(bundles)
    requires forall b :: b in selected[0] ==> b in bundles
    ensures forall b :: b in bundles ==> Combined(leq, Lists.Map(OnGroups(f), selected)).source == b.source
  {
    InOrderMap(leq, f, selected);
    CombinedSource(leq, Lists.Map(OnGroups(f), selected));
    assert selected[0][0] in selected[0];
  }

  lemma MapItself(groups: seq<seq<Bundle>>)
    ensures Lists.Map(OnGroups(SameBundle), groups) == groups
  {
    forall i | 0 <= i < |groups|
      ensures OnGroups(SameBundle)(groups[i]) == groups[i]
    {
    }
  }

  /** Every run of the index was fetched, complete and under its own name, no run twice, and the pending run
      of a preview is one of them and belongs to that preview's pull request and revision. */
  lemma LoadedRunsFit(leq: Order, data: SiteData, versions: Option<seq<Text>>)
    requires Loadable(leq, data, versions) && data.index.runs != []
    ensures forall i, j :: 0 <= i < j < |data.index.runs| ==> data.index.runs[i].run != data.index.runs[j].run
    ensures forall e :: e in data.index.runs ==>
      && e.run in data.runs && Complete(data.runs[e.run]) && data.runs[e.run].source != Synthetic
      && RunIdOf(data.runs[e.run]) == e.run
    ensures data.index.preview.Some? && data.index.preview.value.pending.Some? ==>
      var preview := data.index.preview.value;
      && preview.pending.value in data.runs
      && var pr := data.runs[preview.pending.value].run.pullRequest;
         pr.Some? && pr.value.number == preview.number && pr.value.head == preview.head
  {
    forall i, j | 0 <= i < j < |data.index.runs|
      ensures data.index.runs[i].run != data.index.runs[j].run
    {
      assert EntryRun(data.index.runs[i]) != EntryRun(data.index.runs[j]);
    }
    forall e | e in data.index.runs
      ensures Fetchable(data, e.run)
    {
      var i :| 0 <= i < |data.index.runs| && data.index.runs[i] == e;
    }
  }

  /** Whatever is loaded, the view chooses its versions as it should, and reports exactly their runs, in
      order and under the names of the index, and exactly the rows of their measurements. */
  lemma LoadedViewReports(leq: Order, data: SiteData, versions: Option<seq<Text>>, selectedRun: Option<Text>,
                          view: View)
    returns (ordered: seq<Bundle>)
    requires TotalOrder(leq) && Loadable(leq, data, versions) && data.index.runs != []
    requires versions.Some? ==> versions.value != []
    requires ShowsSelection(leq, data.index, HistoriesOf(leq, Fetched(data)), versions, selectedRun, view)
    ensures Chosen(leq, Fetched(data), versions, selectedRun, PendingOf(data.index), view.shown)
    ensures OffersVersions(leq, Fetched(data), view.histories) && view.preview == data.index.preview
    ensures RunsOfVersions(leq, Fetched(data), view.shown, ordered) && ViewReports(data.index.runs, ordered, view)
  {
    var bundles := Fetched(data);
    var groups := HistoriesOf(leq, bundles);
    FetchedParse(data);
    MapItself(groups);
    MapItself(Selection(groups, data.index, versions, selectedRun));
    ordered := SelectionReports(leq, SameBundle, bundles, data.index, versions, selectedRun, view);
  }

  lemma CombinedLists(leq: Order, selected: seq<seq<Bundle>>)
    requires selected != [] && InOrder(leq, selected)
    ensures
      var ordered, combined := Sorting.Sort(RunOrder(leq), Flat(selected)), Combined(leq, selected);
      && ordered != []
      && combined.runtimes == DatasetInOrder(ordered).runtimes
      && combined.platforms == DatasetInOrder(ordered).platforms
      && combined.metrics == DatasetInOrder(ordered).metrics
  {
    if |selected| == 1 {
      assert selected == [selected[0]];
      FlatOne(selected[0]);
    } else {
      CombinedLikeOneHistory(leq, selected);
    }
  }

  /** Runs that share a metric agree on its unit and its direction. */
  ghost predicate MetricsComparable(ordered: seq<Bundle>) {
    forall a, b, e, f ::
      a in ordered && b in ordered && e in a.catalog.metrics && f in b.catalog.metrics && e.id == f.id ==>
        e.definition.unit == f.definition.unit && e.definition.direction == f.definition.direction
  }

  lemma OneVersionComparable(bundles: seq<Bundle>, version: nat, ordered: seq<Bundle>)
    requires Acceptable(bundles)
    requires forall b :: b in ordered ==> b in bundles && b.benchmark.version == version
    ensures MetricsComparable(ordered)
  {
    forall a, b | a in ordered && b in ordered
      ensures AgreeOn(Whole<MetricDefinition>(), a.catalog.metrics, b.catalog.metrics)
    {
      assert Compatible(a, b);
    }
  }

  lemma UnitsComparable(flat: seq<Bundle>, ordered: seq<Bundle>)
    requires UnitsAgree(flat) && forall b :: b in ordered ==> b in flat
    ensures MetricsComparable(ordered)
  {
    forall a, b, e, f | a in ordered && b in ordered && e in a.catalog.metrics && f in b.catalog.metrics && e.id == f.id
      ensures Units(e.definition) == Units(f.definition)
    {
      assert AgreeOn(Units, MetricsOf(a), MetricsOf(b));
    }
  }

  lemma SelectionComparable(leq: Order, bundles: seq<Bundle>, index: SiteIndex, versions: Option<seq<Text>>,
                            selectedRun: Option<Text>, ordered: seq<Bundle>)
    requires TotalOrder(leq) && Acceptable(bundles) && HistoriesOf(leq, bundles) != []
    requires CanShow(HistoriesOf(leq, bundles), versions) && (versions.Some? ==> versions.value != [])
    requires
      var selected := Selection(HistoriesOf(leq, bundles), index, versions, selectedRun);
      (forall b :: b in ordered <==> b in Flat(selected)) && RunsOfVersions(leq, bundles, VersionsIn(selected), ordered)
    ensures MetricsComparable(ordered)
  {
    var selected := Selection(HistoriesOf(leq, bundles), index, versions, selectedRun);
    if versions.Some? && |versions.value| > 1 {
      UnitsComparable(Flat(selected), ordered);
    } else {
      assert |VersionsIn(selected)| == 1;
      OneVersionComparable(bundles, VersionsIn(selected)[0], ordered);
    }
  }

  /** Whatever is loaded, the view lists for every identifier the entry of the latest shown run that names
      it, and the shown runs agree on the unit and direction of every metric. */
  lemma LoadedListsReport(leq: Order, data: SiteData, versions: Option<seq<Text>>, selectedRun: Option<Text>,
                          view: View)
    returns (ordered: seq<Bundle>)
    requires TotalOrder(leq) && Loadable(leq, data, versions) && data.index.runs != []
    requires versions.Some? ==> versions.value != []
    requires ShowsSelection(leq, data.index, HistoriesOf(leq, Fetched(data)), versions, selectedRun, view)
    ensures RunsOfVersions(leq, Fetched(data), view.shown, ordered) && MetricsComparable(ordered)
    ensures ShowsLatest(RuntimesOf, ordered, view.dataset.runtimes)
    ensures ShowsLatest(PlatformsOf, ordered, view.dataset.platforms)
    ensures ShowsLatest(MetricsOf, ordered, view.dataset.metrics)
  {
    var bundles, groups := Fetched(data), HistoriesOf(leq, Fetched(data));
    var selected := Selection(groups, data.index, versions, selectedRun);
    FetchedParse(data);
    SelectionSelected(leq, bundles, data.index, versions, selectedRun);
    SelectedInOrder(leq, bundles, versions, selectedRun, PendingOf(data.index), selected);
    HistoriesInOrder(leq, bundles, selected);
    ordered := Sorting.Sort(RunOrder(leq), Flat(selected));
    Sorting.SortElements(RunOrder(leq), Flat(selected));
    SelectionComparable(leq, bundles, data.index, versions, selectedRun, ordered);
    CombinedLists(leq, selected);
    CatalogsReported(ordered);
  }

  lemma FetchedParse(data: SiteData)
    requires AllFetchable(data)
    ensures forall b :: b in Fetched(data) ==> Parses(b)
  {
    var bundles := Fetched(data);
    forall b | b in bundles
      ensures Parses(b)
    {
      var i :| 0 <= i < |bundles| && bundles[i] == b;
      assert Fetchable(data, data.index.runs[i].run);
    }
  }

  // ---------------------------------------------------------------- what a visitor of a site sees

  /** The first line of a message, without its end. */
  ghost predicate IsFirstLine(line: Text, message: Text) {
    line <= message && NEWLINE !in line && (|line| < |message| ==> message[|line|] == NEWLINE)
  }

  lemma {:induction false} FirstLineIs(message: Text)
    ensures IsFirstLine(FirstLine(message), message)
  {
    if message != [] && message[0] != NEWLINE {
      FirstLineIs(message[1..]);
      assert message == [message[0]] + message[1..];
    }
  }

  ghost predicate InIndex(files: Files, run: RunId) {
    exists e :: e in IndexOf(files) && e.run == run
  }

  /** A run that the index publishes goes under the commit that its publication record merged, any other
      run under the commit that was measured. */
  ghost predicate NamedByRecord(files: Files, b: Bundle, s: Summary) {
    && s.id == RunKey(RunIdOf(b)) && s.date == b.run.createdAt && s.runners == b.runners
    && if InIndex(files, RunIdOf(b)) && b.run.pullRequest.Some? &&
          b.run.pullRequest.value.number in files.publications
       then
         var p := files.publications[b.run.pullRequest.value.number];
         && IsShort(s.commit, p.merge.sha) && IsFirstLine(s.message, p.merge.message)
         && s.commitUrl == Some(CommitUrl(p.pullRequest, p.merge.sha))
       else
         && IsShort(s.commit, b.run.commit.sha) && s.message == b.run.commit.message
         && s.commitUrl == b.run.commit.url
  }

  lemma IncludedIff(files: Files, run: RunId)
    ensures Included(IndexOf(files), run) <==> InIndex(files, run)
  {
    if Included(IndexOf(files), run) {
      var i :| 0 <= i < |IndexOf(files)| && IndexOf(files)[i].run == run;
      assert IndexOf(files)[i] in IndexOf(files);
    }
    if e :| e in IndexOf(files) && e.run == run {
      var i :| 0 <= i < |IndexOf(files)| && IndexOf(files)[i] == e;
    }
  }

  lemma RecordNames(files: Files, bundles: seq<Bundle>, preview: Option<Preview>, b: Bundle, s: Summary)
    requires b in bundles && NamedBy(IndexFor(files, bundles, preview).runs, b, s)
    ensures NamedByRecord(files, b, s)
  {
    var i :| 0 <= i < |bundles| && bundles[i] == b;
    var entries, e := IndexFor(files, bundles, preview).runs, EntryFor(files)(b);
    assert entries[i] == e && e in entries;
    IncludedIff(files, RunIdOf(b));
    if e.display.Some? {
      FirstLineIs(RecordOf(files, b).value.merge.message);
    }
  }

  lemma RecordsName(files: Files, bundles: seq<Bundle>, preview: Option<Preview>, ordered: seq<Bundle>,
                    runs: seq<Summary>)
    requires |runs| == |ordered| && forall b :: b in ordered ==> b in bundles
    requires forall i :: 0 <= i < |ordered| ==> NamedBy(IndexFor(files, bundles, preview).runs, ordered[i], runs[i])
    ensures forall i :: 0 <= i < |ordered| ==> NamedByRecord(files, ordered[i], runs[i])
  {
    forall i | 0 <= i < |ordered|
      ensures NamedByRecord(files, ordered[i], runs[i])
    {
      assert ordered[i] in ordered;
      RecordNames(files, bundles, preview, ordered[i], runs[i]);
    }
  }

  /** On an assembled site a visitor sees the versions that were requested, or that of the selected, pending
      or newest run. They see exactly the runs of these versions in the order of their creation, each under
      the commit that was merged, or measured if it is not published, and exactly the rows of the successful
      measurements of these runs. */
  lemma VisitorSees(leq: Order, files: Files, bundles: seq<Bundle>, preview: Option<Preview>,
                    versions: Option<seq<Text>>, selectedRun: Option<Text>, view: View)
    returns (ordered: seq<Bundle>)
    requires TotalOrder(leq) && Servable(bundles, preview) && bundles != []
    requires CanShow(HistoriesOf(leq, bundles), versions) && (versions.Some? ==> versions.value != [])
    requires
      var data := DataFor(leq, files, bundles, preview);
      AllFetchable(data) ==>
        ShowsSelection(leq, data.index, HistoriesOf(leq, Fetched(data)), versions, selectedRun, view)
    ensures
      var pending := if preview.Some? then preview.value.pending else None;
      Chosen(leq, bundles, versions, selectedRun, pending, view.shown)
    ensures OffersVersions(leq, bundles, view.histories) && view.preview == preview
    ensures RunsOfVersions(leq, bundles, view.shown, ordered)
    ensures |view.dataset.runs| == |ordered|
    ensures forall i :: 0 <= i < |ordered| ==> NamedByRecord(files, ordered[i], view.dataset.runs[i])
    ensures RowsReport(ordered, view.dataset.rows) && forall b :: b in ordered ==> view.dataset.source == b.source
  {
    var index, f, groups := IndexFor(files, bundles, preview), Rewriting(leq, bundles), HistoriesOf(leq, bundles);
    DataFetched(leq, files, bundles, preview);
    ServedHistories(leq, bundles);
    HistoriesNewestFirst(leq, bundles);
    GoodIndexFor(files, bundles, preview);
    SelectionMap(f, groups, index, versions, selectedRun);
    SelectionNonempty(groups, index, versions, selectedRun);
    ordered := SelectionReports(leq, f, bundles, index, versions, selectedRun, view);
    RecordsName(files, bundles, preview, ordered, view.dataset.runs);
  }

  lemma SelectionNonempty(groups: seq<seq<Bundle>>, index: SiteIndex, versions: Option<seq<Text>>,
                          selectedRun: Option<Text>)
    requires groups != [] && (versions.Some? ==> versions.value != [])
    ensures Selection(groups, index, versions, selectedRun) != []
  {
  }

  /** When one version is shown, its history also has the catalog lists of the store's own bundles: for
      every identifier the entry of the latest run that names it. */
  lemma VisitorSeesStore(leq: Order, files: Files, bundles: seq<Bundle>, preview: Option<Preview>,
                         versions: Option<seq<Text>>, selectedRun: Option<Text>, view: View)
    returns (g: seq<Bundle>)
    requires TotalOrder(leq) && Servable(bundles, preview) && bundles != []
    requires CanShow(HistoriesOf(leq, bundles), versions) && (versions.Some? ==> |versions.value| == 1)
    requires
      var data := DataFor(leq, files, bundles, preview);
      AllFetchable(data) ==>
        ShowsSelection(leq, data.index, HistoriesOf(leq, Fetched(data)), versions, selectedRun, view)
    ensures HistoryOfVersion(leq, bundles, g) && view.shown == [g[0].benchmark.version]
    ensures ShowsHistory(leq, HistoriesOf(leq, bundles), g, view) && Reports(g, DatasetOf(leq, g))
    ensures ShowsLatest(RuntimesOf, g, view.dataset.runtimes) && ShowsLatest(PlatformsOf, g, view.dataset.platforms)
    ensures ShowsLatest(MetricsOf, g, view.dataset.metrics)
  {
    var groups := HistoriesOf(leq, bundles);
    OneVersionSeen(leq, files, bundles, preview, versions, selectedRun, view);
    g := if versions.Some? then WithVersion(groups, versions.value[0]).GetOr([])
         else DefaultGroup(groups, selectedRun, PendingOf(IndexFor(files, bundles, preview)));
    GroupsAreHistories(leq, bundles, g);
    GroupGood(leq, bundles, g);
    InOrderReports(g);
  }
}
