/** The datasets of the dashboard: one row for every successful measurement. */
module Datasets {
  import opened Texts
  import opened Bundles
  import opened Catalogs
  import opened Histories
  import opened Grouping
  import Lists
  import Sorting

  datatype Row = Row(
    run: Text, runtimeId: Text, platformId: Text, runnerId: Text, strategy: Strategy, values: map<Text, real>)

  datatype Summary = Summary(
    id: Text, commit: Text, message: Text, date: Text, commitUrl: Option<Text>, runners: seq<Runner>, bundle: Bundle)

  datatype Dataset = Dataset(
    source: Source, runtimes: seq<Runtime>, platforms: seq<Platform>, metrics: seq<Metric>,
    runs: seq<Summary>, rows: seq<Row>)

  function ShortSha(sha: Text): Text {
    if |sha| <= 7 then sha else sha[..7]
  }

  const Summarize: Bundle -> Summary := (b: Bundle) =>
    Summary(KeyOfRun(b), ShortSha(b.run.commit.sha), b.run.commit.message, b.run.createdAt, b.run.commit.url,
            b.runners, b)

  /** The row of a measurement, if it succeeded. */
  function RowOf(b: Bundle, m: Measurement): seq<Row> {
    match m.outcome
    case Success(values) =>
      (match FindRunner(b.runners, m.runnerId)
       case Some(runner) => [Row(KeyOfRun(b), m.runtimeId, runner.platformId, runner.id, m.strategy, values)]
       case None => [])
    case Failed(_, _) => []
    case Skipped(_, _) => []
  }

  function RowIn(b: Bundle): Measurement -> seq<Row> {
    (m: Measurement) => RowOf(b, m)
  }

  const RowsOf: Bundle -> seq<Row> := (b: Bundle) => Lists.FlatMap(RowIn(b), b.measurements)

  /** The dataset of a list of bundles that is already in order. */
  function DatasetInOrder(bundles: seq<Bundle>): Dataset
    requires bundles != []
  {
    var h := HistoryOf(bundles);
    Dataset(h.source, h.runtimes, h.platforms, h.metrics, Lists.Map(Summarize, bundles), Lists.FlatMap(RowsOf, bundles))
  }

  /** What is shown when there are no runs. */
  const NO_DATASET := Dataset(Published, [], [], [], [], [])

  function DatasetOf(leq: Order, history: seq<Bundle>): Dataset {
    var ordered := Sorting.Sort(RunOrder(leq), history);
    if ordered == [] then NO_DATASET else DatasetInOrder(ordered)
  }

  ghost predicate GoodHistory(leq: Order, history: seq<Bundle>) {
    && history != []
    && (forall b :: b in history ==> Parses(b))
    && ValidHistory(Sorting.Sort(RunOrder(leq), history))
  }

  method DatasetFromBundles(leq: Order, inputs: seq<Bundle>) returns (r: Result<Dataset>)
    ensures r.Ok? <==> GoodHistory(leq, inputs)
    ensures r.Ok? ==> r.value == DatasetOf(leq, inputs)
  {
    var parsed := ParseAll(inputs);
    if !parsed {
      return Err(InvalidBundle);
    }
    Sorting.SortLength(RunOrder(leq), inputs);
    var ordered := Sorting.Sort(RunOrder(leq), inputs);
    var valid := ValidateHistory(ordered);
    if valid.Err? {
      return Err(valid.error);
    }
    var h := valid.value;
    return Ok(Dataset(h.source, h.runtimes, h.platforms, h.metrics, Lists.Map(Summarize, ordered),
                      Lists.FlatMap(RowsOf, ordered)));
  }

  // ---------------------------------------------------------------- what a dataset reports

  /** A row of a successful measurement, with the platform of the runner that made it. */
  ghost predicate RowFrom(b: Bundle, m: Measurement, r: Row) {
    && m.outcome.Success? && r.run == RunKey(RunIdOf(b)) && r.runtimeId == m.runtimeId
    && r.runnerId == m.runnerId && r.strategy == m.strategy && r.values == m.outcome.values
    && exists runner :: runner in b.runners && runner.id == m.runnerId && runner.platformId == r.platformId
  }

  /** The rows are those of the successful measurements, and no others. */
  ghost predicate RowsReport(bundles: seq<Bundle>, rows: seq<Row>) {
    forall r :: r in rows <==> exists b, m :: b in bundles && m in b.measurements && RowFrom(b, m, r)
  }

  lemma RunnerFound(b: Bundle, runner: Runner)
    requires GoodRunners(b) && runner in b.runners
    ensures FindRunner(b.runners, runner.id) == Some(runner)
  {
    FindRunnerFinds(b.runners, runner.id);
    Lists.DistinctByMeans(RunnerId, b.runners);
    var found := FindRunner(b.runners, runner.id).value;
    assert RunnerId(found) == RunnerId(runner);
  }

  lemma RowOfIff(b: Bundle, m: Measurement, r: Row)
    requires GoodRunners(b)
    ensures r in RowOf(b, m) <==> RowFrom(b, m, r)
  {
    FindRunnerFinds(b.runners, m.runnerId);
    if RowFrom(b, m, r) {
      var runner :| runner in b.runners && runner.id == m.runnerId && runner.platformId == r.platformId;
      RunnerFound(b, runner);
    }
  }

  /** Every row comes from a successful measurement, with its runner and that runner's platform, and every
      successful measurement has its row. */
  lemma RowsAreMeasurements(bundles: seq<Bundle>)
    requires forall b :: b in bundles ==> Parses(b)
    ensures RowsReport(bundles, Lists.FlatMap(RowsOf, bundles))
  {
    forall r
      ensures r in Lists.FlatMap(RowsOf, bundles) <==>
        exists b, m :: b in bundles && m in b.measurements && RowFrom(b, m, r)
    {
      Lists.FlatMapIn(RowsOf, bundles, r);
      if r in Lists.FlatMap(RowsOf, bundles) {
        var i :| 0 <= i < |bundles| && r in RowsOf(bundles[i]);
        assert bundles[i] in bundles;
        RowsOfMeans(bundles[i], r);
        var m :| m in bundles[i].measurements && r in RowOf(bundles[i], m);
        RowOfIff(bundles[i], m, r);
      }
      if b, m :| b in bundles && m in b.measurements && RowFrom(b, m, r) {
        var i :| 0 <= i < |bundles| && bundles[i] == b;
        RowOfIff(b, m, r);
        RowsOfMeans(b, r);
      }
    }
  }

  /** The first seven units of a hash, or all of a shorter one. */
  ghost predicate IsShort(short: Text, sha: Text) {
    short <= sha && |short| <= 7 && (|short| < 7 ==> short == sha)
  }

  ghost predicate Describes(b: Bundle, s: Summary) {
    && s.id == RunKey(RunIdOf(b)) && s.date == b.run.createdAt && s.runners == b.runners && s.bundle == b
    && IsShort(s.commit, b.run.commit.sha) && s.message == b.run.commit.message && s.commitUrl == b.run.commit.url
  }

  lemma SummarizeDescribes(b: Bundle)
    ensures Describes(b, Summarize(b))
  {
  }

  /** Catalog lists that hold, for every identifier, the entry of the latest run that names it. */
  ghost predicate ShowsLatest<D(!new)>(get: Bundle -> seq<Entry<D>>, ordered: seq<Bundle>, entries: seq<Entry<D>>) {
    DistinctIds(entries) && forall id :: Get(entries, id) == LatestEntry(get, ordered, id)
  }

  /** What a dataset says about a list of runs in the order of their creation. */
  ghost predicate Reports(ordered: seq<Bundle>, d: Dataset) {
    && |d.runs| == |ordered| && (forall i :: 0 <= i < |ordered| ==> Describes(ordered[i], d.runs[i]))
    && RowsReport(ordered, d.rows)
    && (forall b :: b in ordered ==> d.source == b.source)
    && ShowsLatest(RuntimesOf, ordered, d.runtimes) && ShowsLatest(PlatformsOf, ordered, d.platforms)
    && ShowsLatest(MetricsOf, ordered, d.metrics)
  }

  lemma LatestShown<D(!new)>(get: Bundle -> seq<Entry<D>>, ordered: seq<Bundle>)
    requires forall b :: b in ordered ==> DistinctIds(get(b))
    ensures ShowsLatest(get, ordered, Union(get, ordered))
  {
    AbsorbMeans([], Gather(get, ordered));
    forall id
      ensures Get(Union(get, ordered), id) == LatestEntry(get, ordered, id)
    {
      GetUnion(get, ordered, id);
    }
  }

  lemma ParsedDistinct(bundles: seq<Bundle>)
    requires forall b :: b in bundles ==> Parses(b)
    ensures forall b :: b in bundles ==> DistinctIds(RuntimesOf(b))
    ensures forall b :: b in bundles ==> DistinctIds(PlatformsOf(b))
    ensures forall b :: b in bundles ==> DistinctIds(MetricsOf(b))
  {
  }

  lemma CatalogsReported(ordered: seq<Bundle>)
    requires ordered != [] && forall b :: b in ordered ==> Parses(b)
    ensures
      var d := DatasetInOrder(ordered);
      && ShowsLatest(RuntimesOf, ordered, d.runtimes) && ShowsLatest(PlatformsOf, ordered, d.platforms)
      && ShowsLatest(MetricsOf, ordered, d.metrics)
  {
    ParsedDistinct(ordered);
    LatestShown(RuntimesOf, ordered);
    LatestShown(PlatformsOf, ordered);
    LatestShown(MetricsOf, ordered);
  }

  lemma RunsDescribed(ordered: seq<Bundle>)
    ensures forall i :: 0 <= i < |ordered| ==> Describes(ordered[i], Lists.Map(Summarize, ordered)[i])
  {
    forall i | 0 <= i < |ordered|
      ensures Describes(ordered[i], Summarize(ordered[i]))
    {
      SummarizeDescribes(ordered[i]);
    }
  }

  lemma SourceShared(ordered: seq<Bundle>)
    requires ordered != [] && ValidHistory(ordered)
    ensures forall b :: b in ordered ==> DatasetInOrder(ordered).source == b.source
  {
  }

  lemma InOrderReports(ordered: seq<Bundle>)
    requires ordered != [] && ValidHistory(ordered) && forall b :: b in ordered ==> Parses(b)
    ensures Reports(ordered, DatasetInOrder(ordered))
  {
    RowsAreMeasurements(ordered);
    CatalogsReported(ordered);
    RunsDescribed(ordered);
    SourceShared(ordered);
  }

  /** The same runs in strict order of their creation. */
  ghost predicate OrderedBy(leq: Order, inputs: seq<Bundle>, ordered: seq<Bundle>) {
    multiset(ordered) == multiset(inputs) && Ascending(leq, ordered)
  }

  /** The dataset of a list of runs reports them in the order of their creation. */
  lemma DatasetReports(leq: Order, inputs: seq<Bundle>) returns (ordered: seq<Bundle>)
    requires TotalOrder(leq) && GoodHistory(leq, inputs)
    ensures OrderedBy(leq, inputs, ordered) && Reports(ordered, DatasetOf(leq, inputs))
  {
    ordered := Sorting.Sort(RunOrder(leq), inputs);
    Sorting.SortElements(RunOrder(leq), inputs);
    OrdersSort(leq);
    Sorting.SortSorted(RunOrder(leq), inputs);
    SortedStrictly(leq, ordered);
    InOrderReports(ordered);
  }

  // ---------------------------------------------------------------- rows have a key

  datatype RowKey = RowKey(run: Text, cell: Cell)

  const KeyOfRow: Row -> RowKey := (r: Row) => RowKey(r.run, Cell(r.runtimeId, r.platformId, r.strategy))

  lemma RowOfMeans(b: Bundle, m: Measurement)
    ensures forall r :: r in RowOf(b, m) <==>
      && m.outcome.Success? && FindRunner(b.runners, m.runnerId).Some?
      && RowOf(b, m) == [r]
    ensures forall r :: r in RowOf(b, m) ==>
      && r.run == KeyOfRun(b) && r.values == m.outcome.values
      && MeasuredCell(b.runners, m) == Some(KeyOfRow(r).cell)
    ensures m.outcome.Success? && MeasuredCell(b.runners, m).Some? ==> RowOf(b, m) != []
  {
  }

  lemma RowsOfMeans(b: Bundle, r: Row)
    ensures r in RowsOf(b) <==> exists m :: m in b.measurements && r in RowOf(b, m)
  {
    Lists.FlatMapIn(RowIn(b), b.measurements, r);
    if r in RowsOf(b) {
      var i :| 0 <= i < |b.measurements| && r in RowIn(b)(b.measurements[i]);
      assert b.measurements[i] in b.measurements && r in RowOf(b, b.measurements[i]);
    }
    if m :| m in b.measurements && r in RowOf(b, m) {
      var i :| 0 <= i < |b.measurements| && b.measurements[i] == m;
      assert r in RowIn(b)(b.measurements[i]);
    }
  }

  /** The rows of one complete bundle: exactly one for every expected configuration. */
  lemma CompleteRows(b: Bundle)
    requires Complete(b)
    ensures Lists.DistinctBy(KeyOfRow, RowsOf(b))
    ensures forall r :: r in RowsOf(b) ==> r.run == KeyOfRun(b) && ExpectedCell(b, KeyOfRow(r).cell)
    ensures forall c :: c in b.benchmark.expectedConfigurations ==>
      exists r :: r in RowsOf(b) && KeyOfRow(r).cell == CellOf(c)
  {
    var all := b.measurements;
    forall i, j, x, y | 0 <= i < j < |all| && x in RowIn(b)(all[i]) && y in RowIn(b)(all[j])
      ensures KeyOfRow(x) != KeyOfRow(y)
    {
      RowOfMeans(b, all[i]);
      RowOfMeans(b, all[j]);
      assert CellIn(b.runners)(all[i]) != CellIn(b.runners)(all[j]);
    }
    Lists.FlatMapKeyed(RowIn(b), KeyOfRow, all);
    forall r | r in RowsOf(b)
      ensures r.run == KeyOfRun(b) && ExpectedCell(b, KeyOfRow(r).cell)
    {
      RowsOfMeans(b, r);
      var m :| m in all && r in RowOf(b, m);
      RowOfMeans(b, m);
      assert GoodMeasurement(b, m);
    }
    forall c | c in b.benchmark.expectedConfigurations
      ensures exists r :: r in RowsOf(b) && KeyOfRow(r).cell == CellOf(c)
    {
      RowFor(b, c);
    }
  }

  lemma RowFor(b: Bundle, c: Configuration)
    requires Complete(b) && c in b.benchmark.expectedConfigurations
    ensures exists r :: r in RowsOf(b) && KeyOfRow(r).cell == CellOf(c)
  {
    assert Succeeded(b, CellOf(c));
    var m :| m in b.measurements && m.outcome.Success? && MeasuredCell(b.runners, m) == Some(CellOf(c));
    RowOfMeans(b, m);
    var r := RowOf(b, m)[0];
    assert r in RowOf(b, m);
    RowsOfMeans(b, r);
  }

  ghost predicate RowExpected(bundles: seq<Bundle>, key: RowKey) {
    exists b, c :: b in bundles && c in b.benchmark.expectedConfigurations && key == RowKey(KeyOfRun(b), CellOf(c))
  }

  /** Run, runtime, platform and strategy are a key of the rows of complete runs with distinct run keys,
      and the rows are exactly those of the expected configurations. */
  lemma RowsAreKeyed(bundles: seq<Bundle>)
    requires DistinctRuns(bundles) && forall b :: b in bundles ==> Complete(b)
    ensures Lists.DistinctBy(KeyOfRow, Lists.FlatMap(RowsOf, bundles))
    ensures forall key :: (exists r :: r in Lists.FlatMap(RowsOf, bundles) && KeyOfRow(r) == key) <==>
      RowExpected(bundles, key)
  {
    forall i | 0 <= i < |bundles|
      ensures Lists.DistinctBy(KeyOfRow, RowsOf(bundles[i]))
      ensures forall r :: r in RowsOf(bundles[i]) ==> r.run == KeyOfRun(bundles[i])
    {
      assert bundles[i] in bundles;
      CompleteRows(bundles[i]);
    }
    forall i, j, x, y | 0 <= i < j < |bundles| && x in RowsOf(bundles[i]) && y in RowsOf(bundles[j])
      ensures KeyOfRow(x) != KeyOfRow(y)
    {
      RunKeyInjective(RunIdOf(bundles[i]), RunIdOf(bundles[j]));
      assert RunOf(bundles[i]) != RunOf(bundles[j]);
    }
    Lists.FlatMapKeyed(RowsOf, KeyOfRow, bundles);
    forall key
      ensures (exists r :: r in Lists.FlatMap(RowsOf, bundles) && KeyOfRow(r) == key) <==> RowExpected(bundles, key)
    {
      if r :| r in Lists.FlatMap(RowsOf, bundles) && KeyOfRow(r) == key {
        RowIsExpected(bundles, r);
      }
      if RowExpected(bundles, key) {
        var r := ExpectedIsRow(bundles, key);
      }
    }
  }

  lemma RowIsExpected(bundles: seq<Bundle>, r: Row)
    requires (forall b :: b in bundles ==> Complete(b)) && r in Lists.FlatMap(RowsOf, bundles)
    ensures RowExpected(bundles, KeyOfRow(r))
  {
    Lists.FlatMapIn(RowsOf, bundles, r);
    var i :| 0 <= i < |bundles| && r in RowsOf(bundles[i]);
    assert bundles[i] in bundles;
    CompleteRows(bundles[i]);
    var c :| c in bundles[i].benchmark.expectedConfigurations && CellOf(c) == KeyOfRow(r).cell;
  }

  lemma ExpectedIsRow(bundles: seq<Bundle>, key: RowKey) returns (r: Row)
    requires (forall b :: b in bundles ==> Complete(b)) && RowExpected(bundles, key)
    ensures r in Lists.FlatMap(RowsOf, bundles) && KeyOfRow(r) == key
  {
    var b, c :| b in bundles && c in b.benchmark.expectedConfigurations && key == RowKey(KeyOfRun(b), CellOf(c));
    CompleteRows(b);
    r :| r in RowsOf(b) && KeyOfRow(r).cell == CellOf(c);
    var i :| 0 <= i < |bundles| && bundles[i] == b;
    Lists.FlatMapIn(RowsOf, bundles, r);
  }
}
