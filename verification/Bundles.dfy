/** Run bundles: the records that the collectors write, the store keeps and the dashboard reads, with
    the cross-field checks that make a parsed record valid and a valid one complete. */
module Bundles {
  import opened Texts
  import Lists
  import CanonicalJson

  type Value = CanonicalJson.Value

  datatype Option<+T> = None | Some(value: T) {
    function GetOr(default: T): T {
      if Some? then value else default
    }
  }

  datatype Result<+T> = Ok(value: T) | Err(error: Error)

  /** The failures that the source reports by throwing. */
  datatype Error =
    | InvalidBundle
    | MissingConfigurations
    | NotMeasured
    | PolicyMismatch
    | SkuMismatch
    | DuplicateRun
    | SourcesDiffer
    | IncompatibleDefinitions
    | IncompatibleHistory
    | DefinitionChanged
    | EmptyHistory
    | NothingToMerge
    | InvalidAttempt
    | WrongRun
    | ShardsDiffer
    | AttemptTooHigh
    | WorkflowDiffers
    | NotFound
    | InvalidIndex
    | DifferentRun
    | DifferentRevisions
    | DifferentTree
    | DifferentUrls
    | DifferentPublication
    | UnrecordedPublication
    | ConflictingRecord
    | StoreLocked
    | UnexpectedPreview
    | DuplicatePreview
    | PendingDiffers
    | MissingPullRequest
    | UnknownVersion
    | IncompatibleVersions

  const MAX_SAFE_INTEGER: nat := 0x1F_FFFF_FFFF_FFFF

  const EMPTY: Value := CanonicalJson.VObj(map[])

  // ---------------------------------------------------------------- records

  datatype Source = Synthetic | Published | Local

  datatype Strategy = Reload | Reuse | New

  datatype Execution = Host | Native | WasmJit | WasmAot | WasmPulley

  datatype Direction = Higher | Lower

  /** A catalog entry: its identifier, the part that must not change within a benchmark version, and
      everything else. */
  datatype Entry<D> = Entry(id: Text, definition: D, rest: Value)

  datatype RuntimeDefinition = RuntimeDefinition(engine: Text, execution: Execution)

  datatype PlatformDefinition = PlatformDefinition

  datatype MetricDefinition = MetricDefinition(unit: Text, direction: Direction, methodVersion: nat)

  type Runtime = Entry<RuntimeDefinition>
  type Platform = Entry<PlatformDefinition>
  type Metric = Entry<MetricDefinition>

  datatype Catalog = Catalog(runtimes: seq<Runtime>, platforms: seq<Platform>, metrics: seq<Metric>, rest: Value)

  datatype Configuration = Configuration(runtimeId: Text, platformId: Text, strategy: Strategy, rest: Value)

  datatype Benchmark = Benchmark(
    id: Text, version: nat, settings: Value, metricIds: seq<Text>,
    expectedConfigurations: seq<Configuration>, rest: Value)

  datatype Runner = Runner(
    id: Text, platformId: Text, sku: Text, expectedSku: Text, region: Option<Text>,
    osVersion: Option<Text>, cpuModel: Option<Text>, cores: Option<nat>, threadsPerCore: Option<nat>,
    tools: map<Text, Text>, dependencies: map<Text, Text>, rest: Value)

  /** Failed and skipped results are records that keep unknown fields, so they can carry stray values. */
  datatype Outcome =
    | Success(values: map<Text, real>)
    | Failed(reason: Text, strayValues: bool)
    | Skipped(reason: Text, strayValues: bool)

  datatype OutputFormat = JsonFormat | TextFormat

  datatype RawOutput = RawOutput(format: OutputFormat, content: Value, rest: Value)

  datatype Measurement = Measurement(
    id: Text, runnerId: Text, runtimeId: Text, strategy: Strategy, outcome: Outcome,
    rawOutputs: seq<RawOutput>, rest: Value)

  datatype PullRequest = PullRequest(repository: Text, number: nat, head: Text, base: Text)

  datatype Commit = Commit(sha: Text, tree: Text, message: Text, url: Option<Text>, rest: Value)

  datatype Workflow = Workflow(name: Text, url: Option<Text>, rest: Value)

  datatype Run = Run(
    id: Text, attempt: nat, createdAt: Text, workflow: Workflow, commit: Commit,
    pullRequest: Option<PullRequest>, rest: Value)

  datatype Bundle = Bundle(
    source: Source, run: Run, catalog: Catalog, benchmark: Benchmark,
    runners: seq<Runner>, measurements: seq<Measurement>)

  /** What identifies a run, and the file that holds it. */
  datatype RunId = RunId(id: Text, attempt: nat)

  function RunIdOf(b: Bundle): RunId {
    RunId(b.run.id, b.run.attempt)
  }

  // ---------------------------------------------------------------- identifiers and keys

  predicate IdentifierUnit(c: CodeUnit) {
    IsDigit(c) || 0x61 <= c <= 0x7A || c == FULL_STOP || c == UNDERSCORE || c == HYPHEN
  }

  predicate Identifier(t: Text) {
    t != [] && (IsDigit(t[0]) || 0x61 <= t[0] <= 0x7A) && forall c <- t :: IdentifierUnit(c)
  }

  predicate PositiveInteger(n: nat) {
    1 <= n <= MAX_SAFE_INTEGER
  }

  function RunKey(id: RunId): Text {
    id.id + [FULL_STOP] + Decimal(id.attempt)
  }

  function KeyOfRun(b: Bundle): Text {
    RunKey(RunIdOf(b))
  }

  /** A run key determines the run, although identifiers may contain full stops. */
  lemma RunKeyInjective(a: RunId, b: RunId)
    ensures RunKey(a) == RunKey(b) <==> a == b
  {
    if RunKey(a) == RunKey(b) {
      SplitAtLast(a.id, Decimal(a.attempt), b.id, Decimal(b.attempt), FULL_STOP);
      DecimalInjective(a.attempt, b.attempt);
    }
  }

  function StrategyText(s: Strategy): Text {
    match s
    case Reload => [0x72, 0x65, 0x6C, 0x6F, 0x61, 0x64]
    case Reuse => [0x72, 0x65, 0x75, 0x73, 0x65]
    case New => [0x6E, 0x65, 0x77]
  }

  /** The runtime, platform and strategy that a measurement or an expected configuration is about. */
  datatype Cell = Cell(runtimeId: Text, platformId: Text, strategy: Strategy)

  function CellOf(c: Configuration): Cell {
    Cell(c.runtimeId, c.platformId, c.strategy)
  }

  function CellKey(c: Cell): Text {
    c.runtimeId + [SLASH] + (c.platformId + [SLASH] + StrategyText(c.strategy))
  }

  predicate Identified(c: Cell) {
    Identifier(c.runtimeId) && Identifier(c.platformId)
  }

  /** A configuration key determines the configuration, because identifiers exclude the separator. */
  lemma CellKeyInjective(a: Cell, b: Cell)
    requires Identified(a) && Identified(b)
    ensures CellKey(a) == CellKey(b) <==> a == b
  {
    if CellKey(a) == CellKey(b) {
      var x, y := a.platformId + [SLASH] + StrategyText(a.strategy), b.platformId + [SLASH] + StrategyText(b.strategy);
      SplitAtFirst(a.runtimeId, x, b.runtimeId, y, SLASH);
      SplitAtFirst(a.platformId, StrategyText(a.strategy), b.platformId, StrategyText(b.strategy), SLASH);
      assert StrategyText(a.strategy)[0] == StrategyText(b.strategy)[0];
      assert |StrategyText(a.strategy)| == |StrategyText(b.strategy)|;
    }
  }

  lemma CellKeyNames(a: Cell)
    requires Identified(a)
    ensures forall b: Cell :: Identified(b) ==> (CellKey(b) == CellKey(a) <==> b == a)
  {
    forall b: Cell | Identified(b)
      ensures CellKey(b) == CellKey(a) <==> b == a
    {
      CellKeyInjective(b, a);
    }
  }

  /** A separator inside an identifier would let two configurations share a key. */
  lemma CellKeyNeedsIdentifiers()
    ensures exists a, b :: a != b && CellKey(a) == CellKey(b)
  {
    var a := Cell([0x61], [0x62, SLASH, 0x63], New);
    var b := Cell([0x61, SLASH, 0x62], [0x63], New);
    assert CellKey(a) == CellKey(b);
  }

  // ---------------------------------------------------------------- the schema's field checks

  predicate IdentifiedEntries<D(==)>(entries: seq<Entry<D>>) {
    entries != [] && forall e <- entries :: Identifier(e.id)
  }

  predicate WellTypedConfiguration(c: Configuration) {
    Identifier(c.runtimeId) && Identifier(c.platformId)
  }

  predicate WellTypedBenchmark(benchmark: Benchmark) {
    && Identifier(benchmark.id)
    && PositiveInteger(benchmark.version)
    && benchmark.metricIds != [] && (forall m <- benchmark.metricIds :: Identifier(m))
    && benchmark.expectedConfigurations != []
    && (forall c <- benchmark.expectedConfigurations :: WellTypedConfiguration(c))
  }

  predicate WellTypedCatalog(catalog: Catalog) {
    IdentifiedEntries(catalog.runtimes) && IdentifiedEntries(catalog.platforms) && IdentifiedEntries(catalog.metrics)
  }

  predicate WellTyped(b: Bundle) {
    && Identifier(b.run.id) && PositiveInteger(b.run.attempt)
    && WellTypedCatalog(b.catalog)
    && WellTypedBenchmark(b.benchmark)
    && b.runners != [] && (forall r <- b.runners :: Identifier(r.id) && Identifier(r.platformId))
    && (forall m <- b.measurements :: Identifier(m.id) && Identifier(m.runnerId) && Identifier(m.runtimeId))
  }

  // ---------------------------------------------------------------- the cross-field checks

  const Itself: Text -> Text := (t: Text) => t
  const RunnerId: Runner -> Text := (r: Runner) => r.id
  const MeasurementId: Measurement -> Text := (m: Measurement) => m.id
  const ConfigurationCell: Configuration -> Cell := (c: Configuration) => CellOf(c)

  function EntryId<D>(): Entry<D> -> Text {
    (e: Entry<D>) => e.id
  }

  ghost predicate DistinctIds<D>(entries: seq<Entry<D>>) {
    Lists.DistinctBy(EntryId<D>(), entries)
  }

  ghost predicate HasId<D>(entries: seq<Entry<D>>, id: Text) {
    exists i :: 0 <= i < |entries| && entries[i].id == id
  }

  ghost predicate KnownIds<D>(entries: seq<Entry<D>>, ids: set<Text>) {
    forall id :: id in ids <==> HasId(entries, id)
  }

  function FindRunner(runners: seq<Runner>, id: Text): Option<Runner> {
    if runners == [] then None
    else if runners[0].id == id then Some(runners[0])
    else FindRunner(runners[1..], id)
  }

  lemma {:induction false} FindRunnerFinds(runners: seq<Runner>, id: Text)
    ensures
      match FindRunner(runners, id)
      case Some(r) => r in runners && r.id == id
      case None => forall r :: r in runners ==> r.id != id
  {
    if runners != [] {
      FindRunnerFinds(runners[1..], id);
    }
  }

  /** The configuration that a measurement is about: its runner supplies the platform. */
  function MeasuredCell(runners: seq<Runner>, m: Measurement): Option<Cell> {
    match FindRunner(runners, m.runnerId)
    case None => None
    case Some(runner) => Some(Cell(m.runtimeId, runner.platformId, m.strategy))
  }

  function CellIn(runners: seq<Runner>): Measurement -> Option<Cell> {
    (m: Measurement) => MeasuredCell(runners, m)
  }

  /** The one identifier that every record inherits a property for. */
  const CONSTRUCTOR: Text := [0x63, 0x6F, 0x6E, 0x73, 0x74, 0x72, 0x75, 0x63, 0x74, 0x6F, 0x72]

  /** The source tests membership with `in`, which also sees inherited properties. */
  predicate HasValue(values: map<Text, real>, metric: Text) {
    metric in values || metric == CONSTRUCTOR
  }

  predicate GoodOutcome(metricIds: seq<Text>, outcome: Outcome) {
    match outcome
    case Success(values) =>
      (forall m <- metricIds :: HasValue(values, m)) && (forall m <- values.Keys :: m in metricIds)
    case Failed(_, stray) => !stray
    case Skipped(_, stray) => !stray
  }

  predicate GoodOutputs(outputs: seq<RawOutput>) {
    forall o <- outputs :: o.format == TextFormat ==> o.content.VStr?
  }

  ghost predicate ExpectedCell(b: Bundle, cell: Cell) {
    exists c :: c in b.benchmark.expectedConfigurations && CellOf(c) == cell
  }

  ghost predicate ExpectedKeys(b: Bundle, keys: set<Text>) {
    forall cell: Cell :: Identified(cell) ==> (CellKey(cell) in keys <==> ExpectedCell(b, cell))
  }

  ghost predicate GoodMeasurement(b: Bundle, m: Measurement) {
    && MeasuredCell(b.runners, m).Some?
    && HasId(b.catalog.runtimes, m.runtimeId)
    && ExpectedCell(b, MeasuredCell(b.runners, m).value)
    && GoodOutcome(b.benchmark.metricIds, m.outcome)
    && GoodOutputs(m.rawOutputs)
  }

  ghost predicate GoodRunner(b: Bundle, r: Runner) {
    && HasId(b.catalog.platforms, r.platformId)
    && r.sku == r.expectedSku
    && (b.source == Published ==>
      && r.region.Some? && r.cpuModel.Some? && r.cores.Some? && r.threadsPerCore.Some? && r.osVersion.Some?
      && r.tools != map[] && r.dependencies != map[])
  }

  ghost predicate GoodDefinitions(b: Bundle) {
    && DistinctIds(b.catalog.runtimes) && DistinctIds(b.catalog.platforms) && DistinctIds(b.catalog.metrics)
    && Lists.DistinctBy(Itself, b.benchmark.metricIds)
    && (forall m :: m in b.benchmark.metricIds ==> HasId(b.catalog.metrics, m))
    && Lists.DistinctBy(ConfigurationCell, b.benchmark.expectedConfigurations)
    && (forall c :: c in b.benchmark.expectedConfigurations ==>
      HasId(b.catalog.runtimes, c.runtimeId) && HasId(b.catalog.platforms, c.platformId))
  }

  ghost predicate GoodRunners(b: Bundle) {
    Lists.DistinctBy(RunnerId, b.runners) && forall r :: r in b.runners ==> GoodRunner(b, r)
  }

  ghost predicate GoodMeasurements(b: Bundle) {
    && Lists.DistinctBy(MeasurementId, b.measurements)
    && (forall m :: m in b.measurements ==> GoodMeasurement(b, m))
    && Lists.DistinctBy(CellIn(b.runners), b.measurements)
  }

  /** What the schema's refinement accepts. */
  ghost predicate Refined(b: Bundle) {
    && GoodDefinitions(b)
    && GoodRunners(b)
    && GoodMeasurements(b)
    && (b.source == Published ==> b.run.workflow.url.Some? && b.run.commit.url.Some?)
  }

  /** What `parseRunBundle` accepts. */
  ghost predicate Parses(b: Bundle) {
    WellTyped(b) && Refined(b)
  }

  // ---------------------------------------------------------------- the refinement as it is computed

  method Unique(values: seq<Text>) returns (seen: set<Text>, ok: bool)
    ensures forall v :: v in seen <==> v in values
    ensures ok <==> Lists.DistinctBy(Itself, values)
  {
    seen, ok := {}, true;
    for i := 0 to |values|
      invariant forall v :: v in seen <==> v in values[..i]
      invariant ok <==> forall j, k :: 0 <= j < k < i ==> values[j] != values[k]
    {
      if values[i] in seen {
        ok := false;
      }
      seen := seen + {values[i]};
      assert values[..i + 1] == values[..i] + [values[i]];
    }
    assert values[..|values|] == values;
  }

  method UniqueIds<D>(entries: seq<Entry<D>>) returns (seen: set<Text>, ok: bool)
    ensures KnownIds(entries, seen)
    ensures ok <==> DistinctIds(entries)
  {
    var ids := Lists.Map(EntryId<D>(), entries);
    seen, ok := Unique(ids);
    forall v
      ensures v in seen <==> HasId(entries, v)
    {
      if HasId(entries, v) {
        var i :| 0 <= i < |entries| && entries[i].id == v;
        assert ids[i] == v;
      }
    }
  }

  method CheckExpected(b: Bundle, runtimes: set<Text>, platforms: set<Text>) returns (expected: set<Text>, ok: bool)
    requires WellTyped(b)
    requires KnownIds(b.catalog.runtimes, runtimes)
    requires KnownIds(b.catalog.platforms, platforms)
    ensures ExpectedKeys(b, expected)
    ensures ok <==>
      && Lists.DistinctBy(ConfigurationCell, b.benchmark.expectedConfigurations)
      && forall c :: c in b.benchmark.expectedConfigurations ==>
        HasId(b.catalog.runtimes, c.runtimeId) && HasId(b.catalog.platforms, c.platformId)
  {
    var all := b.benchmark.expectedConfigurations;
    var keys := Lists.Map((c: Configuration) => CellKey(CellOf(c)), all);
    expected, ok := Unique(keys);
    forall i, j | 0 <= i < |all| && 0 <= j < |all|
      ensures keys[i] == keys[j] <==> CellOf(all[i]) == CellOf(all[j])
    {
      assert WellTypedConfiguration(all[i]) && WellTypedConfiguration(all[j]);
      CellKeyInjective(CellOf(all[i]), CellOf(all[j]));
    }
    forall cell: Cell | Identified(cell)
      ensures CellKey(cell) in expected <==> ExpectedCell(b, cell)
    {
      forall i | 0 <= i < |all|
        ensures keys[i] == CellKey(cell) <==> CellOf(all[i]) == cell
      {
        assert WellTypedConfiguration(all[i]);
        CellKeyInjective(CellOf(all[i]), cell);
      }
      if ExpectedCell(b, cell) {
        var c :| c in all && CellOf(c) == cell;
        var i :| 0 <= i < |all| && all[i] == c;
        assert keys[i] in keys;
      }
    }
    for i := 0 to |all|
      invariant ok <==>
        && Lists.DistinctBy(ConfigurationCell, all)
        && forall j :: 0 <= j < i ==>
          HasId(b.catalog.runtimes, all[j].runtimeId) && HasId(b.catalog.platforms, all[j].platformId)
    {
      if all[i].runtimeId !in runtimes {
        ok := false;
      }
      if all[i].platformId !in platforms {
        ok := false;
      }
    }
  }

  method CheckRunners(b: Bundle, platforms: set<Text>) returns (ok: bool)
    requires KnownIds(b.catalog.platforms, platforms)
    ensures ok <==> GoodRunners(b)
  {
    var ids := Lists.Map(RunnerId, b.runners);
    var _, distinct := Unique(ids);
    ok := distinct;
    for i := 0 to |b.runners|
      invariant ok <==> distinct && forall j :: 0 <= j < i ==> GoodRunner(b, b.runners[j])
    {
      var r := b.runners[i];
      if r.platformId !in platforms || r.sku != r.expectedSku {
        ok := false;
      }
      if b.source == Published {
        if r.region.None? || r.cpuModel.None? || r.cores.None? || r.threadsPerCore.None? || r.osVersion.None? {
          ok := false;
        }
        if r.tools == map[] || r.dependencies == map[] {
          ok := false;
        }
      }
    }
  }

  method CheckMeasurement(b: Bundle, m: Measurement, runtimes: set<Text>, expected: set<Text>) returns (ok: bool)
    requires WellTyped(b) && m in b.measurements
    requires KnownIds(b.catalog.runtimes, runtimes)
    requires ExpectedKeys(b, expected)
    ensures ok <==> GoodMeasurement(b, m)
  {
    ok := true;
    var cell := MeasuredCell(b.runners, m);
    if cell.None? || m.runtimeId !in runtimes {
      ok := false;
    }
    if cell.Some? {
      MeasuredIdentifiers(b, m);
      if CellKey(cell.value) !in expected {
        ok := false;
      }
    }
    if !GoodOutcome(b.benchmark.metricIds, m.outcome) || !GoodOutputs(m.rawOutputs) {
      ok := false;
    }
  }

  method CheckMeasurements(b: Bundle, runtimes: set<Text>, expected: set<Text>) returns (ok: bool)
    requires WellTyped(b)
    requires KnownIds(b.catalog.runtimes, runtimes)
    requires ExpectedKeys(b, expected)
    ensures ok <==>
      && (forall m :: m in b.measurements ==> GoodMeasurement(b, m))
      && Lists.DistinctBy(CellIn(b.runners), b.measurements)
  {
    ghost var cells := MeasuredCells(b);
    var good, apart := true, true;
    var configurations: set<Text> := {};
    for i := 0 to |b.measurements|
      invariant configurations == KeysOf(cells[..i])
      invariant good <==> GoodUpTo(b, i)
      invariant apart <==> KeysApart(cells[..i])
    {
      var m := b.measurements[i];
      var ok1 := CheckMeasurement(b, m, runtimes, expected);
      good := good && ok1;
      var cell := MeasuredCell(b.runners, m);
      assert cells[..i + 1] == cells[..i] + [cell];
      if cell.Some? {
        if CellKey(cell.value) in configurations {
          apart := false;
        }
        configurations := configurations + {CellKey(cell.value)};
      }
    }
    assert cells[..|cells|] == cells;
    GoodUpToMeans(b, |b.measurements|);
    MeasuredCellsApart(b);
    ok := good && apart;
  }

  ghost predicate GoodUpTo(b: Bundle, i: nat)
    requires i <= |b.measurements|
  {
    i > 0 ==> GoodUpTo(b, i - 1) && GoodMeasurement(b, b.measurements[i - 1])
  }

  lemma {:induction false} GoodUpToMeans(b: Bundle, i: nat)
    requires i <= |b.measurements|
    ensures GoodUpTo(b, i) <==> forall j :: 0 <= j < i ==> GoodMeasurement(b, b.measurements[j])
  {
    if i > 0 {
      GoodUpToMeans(b, i - 1);
    }
  }

  ghost function MeasuredCells(b: Bundle): seq<Option<Cell>> {
    Lists.Map(CellIn(b.runners), b.measurements)
  }

  /** The keys of the configurations in a list. */
  ghost function KeysOf(cells: seq<Option<Cell>>): set<Text> {
    if cells == [] then {}
    else
      match cells[|cells| - 1]
      case None => KeysOf(cells[..|cells| - 1])
      case Some(cell) => KeysOf(cells[..|cells| - 1]) + {CellKey(cell)}
  }

  /** No key repeats an earlier one. */
  ghost predicate KeysApart(cells: seq<Option<Cell>>) {
    cells != [] ==>
      && KeysApart(cells[..|cells| - 1])
      && match cells[|cells| - 1]
         case None => true
         case Some(cell) => CellKey(cell) !in KeysOf(cells[..|cells| - 1])
  }

  ghost predicate AllIdentified(cells: seq<Option<Cell>>) {
    forall i :: 0 <= i < |cells| && cells[i].Some? ==> Identified(cells[i].value)
  }

  lemma {:induction false} KeysOfNames(cells: seq<Option<Cell>>, cell: Cell)
    requires AllIdentified(cells) && Identified(cell)
    ensures CellKey(cell) in KeysOf(cells) <==> Some(cell) in cells
  {
    if cells != [] {
      var rest, last := cells[..|cells| - 1], cells[|cells| - 1];
      assert cells == rest + [last];
      KeysOfNames(rest, cell);
      if last.Some? {
        CellKeyInjective(cell, last.value);
      }
    }
  }

  lemma {:induction false} KeysApartMeans(cells: seq<Option<Cell>>)
    requires AllIdentified(cells) && forall i :: 0 <= i < |cells| ==> cells[i].Some?
    ensures KeysApart(cells) <==> forall i, j :: 0 <= i < j < |cells| ==> cells[i] != cells[j]
  {
    if cells != [] {
      var rest, last := cells[..|cells| - 1], cells[|cells| - 1];
      assert cells == rest + [last];
      KeysApartMeans(rest);
      KeysOfNames(rest, last.value);
      assert last in rest <==> exists i :: 0 <= i < |rest| && cells[i] == last;
    }
  }

  lemma MeasuredCellsApart(b: Bundle)
    requires WellTyped(b)
    ensures (forall m :: m in b.measurements ==> GoodMeasurement(b, m)) ==>
      (KeysApart(MeasuredCells(b)) <==> Lists.DistinctBy(CellIn(b.runners), b.measurements))
  {
    if forall m :: m in b.measurements ==> GoodMeasurement(b, m) {
      var cells := MeasuredCells(b);
      forall i | 0 <= i < |cells|
        ensures cells[i].Some? && Identified(cells[i].value)
      {
        assert GoodMeasurement(b, b.measurements[i]);
        MeasuredIdentifiers(b, b.measurements[i]);
      }
      KeysApartMeans(cells);
    }
  }

  lemma MeasuredIdentifiers(b: Bundle, m: Measurement)
    requires WellTyped(b) && m in b.measurements && MeasuredCell(b.runners, m).Some?
    ensures Identified(MeasuredCell(b.runners, m).value)
  {
    FindRunnerFinds(b.runners, m.runnerId);
  }

  /** The refinement of the schema, which records an issue for every failing check. */
  method CheckBundle(b: Bundle) returns (ok: bool)
    requires WellTyped(b)
    ensures ok <==> Refined(b)
  {
    var runtimes, ok1 := UniqueIds(b.catalog.runtimes);
    var platforms, ok2 := UniqueIds(b.catalog.platforms);
    var metrics, ok3 := UniqueIds(b.catalog.metrics);
    var required, ok4 := Unique(b.benchmark.metricIds);
    var known := forall m <- b.benchmark.metricIds :: m in metrics;
    var expected, ok5 := CheckExpected(b, runtimes, platforms);
    var ok6 := CheckRunners(b, platforms);
    var _, ok7 := Unique(Lists.Map(MeasurementId, b.measurements));
    var ok8 := CheckMeasurements(b, runtimes, expected);
    var ok9 := b.source == Published ==> b.run.workflow.url.Some? && b.run.commit.url.Some?;
    ok := ok1 && ok2 && ok3 && ok4 && known && ok5 && ok6 && ok7 && ok8 && ok9;
  }

  method ParseAll(bundles: seq<Bundle>) returns (ok: bool)
    ensures ok <==> forall b :: b in bundles ==> Parses(b)
  {
    for i := 0 to |bundles|
      invariant forall j :: 0 <= j < i ==> Parses(bundles[j])
    {
      assert bundles[i] in bundles;
      if !WellTyped(bundles[i]) {
        assert !Parses(bundles[i]);
        return false;
      }
      ok := CheckBundle(bundles[i]);
      if !ok {
        return false;
      }
    }
    return true;
  }

  // ---------------------------------------------------------------- complete runs

  ghost predicate SucceededIn(b: Bundle, measurements: seq<Measurement>, cell: Cell) {
    exists m :: m in measurements && m.outcome.Success? && MeasuredCell(b.runners, m) == Some(cell)
  }

  ghost predicate Succeeded(b: Bundle, cell: Cell) {
    SucceededIn(b, b.measurements, cell)
  }

  /** What `validateCompleteRun` accepts: a valid bundle with a success for every expected configuration. */
  ghost predicate Complete(b: Bundle) {
    && Parses(b)
    && forall c :: c in b.benchmark.expectedConfigurations ==> Succeeded(b, CellOf(c))
  }

  method ValidateCompleteRun(b: Bundle) returns (r: Result<Bundle>)
    ensures r.Ok? <==> Complete(b)
    ensures r.Ok? ==> r.value == b
  {
    if !WellTyped(b) {
      return Err(InvalidBundle);
    }
    var valid := CheckBundle(b);
    if !valid {
      return Err(InvalidBundle);
    }
    var successful: set<Text> := {};
    for i := 0 to |b.measurements|
      invariant forall cell: Cell :: Identified(cell) ==>
        (CellKey(cell) in successful <==> SucceededIn(b, b.measurements[..i], cell))
    {
      var m := b.measurements[i];
      assert b.measurements[..i + 1] == b.measurements[..i] + [m];
      assert GoodMeasurement(b, m);
      if m.outcome.Success? {
        var cell := MeasuredCell(b.runners, m).value;
        MeasuredIdentifiers(b, m);
        CellKeyNames(cell);
        successful := successful + {CellKey(cell)};
      }
    }
    assert b.measurements[..|b.measurements|] == b.measurements;
    for i := 0 to |b.benchmark.expectedConfigurations|
      invariant forall j :: 0 <= j < i ==> Succeeded(b, CellOf(b.benchmark.expectedConfigurations[j]))
    {
      var c := b.benchmark.expectedConfigurations[i];
      assert WellTypedConfiguration(c);
      if CellKey(CellOf(c)) !in successful {
        return Err(MissingConfigurations);
      }
    }
    return Ok(b);
  }

  /** The measurements of a valid bundle that stand for a configuration. */
  ghost predicate Measures(b: Bundle, m: Measurement, c: Configuration) {
    m in b.measurements && c in b.benchmark.expectedConfigurations && MeasuredCell(b.runners, m) == Some(CellOf(c))
  }

  /** Measurements and expected configurations match one to one. */
  ghost predicate ExactCover(b: Bundle) {
    && (forall c :: c in b.benchmark.expectedConfigurations ==> exists m :: Measures(b, m, c))
    && (forall m :: m in b.measurements ==> exists c :: Measures(b, m, c))
    && (forall m, n, c :: Measures(b, m, c) && Measures(b, n, c) ==> m == n)
    && (forall m, c, d :: Measures(b, m, c) && Measures(b, m, d) ==> c == d)
  }

  lemma ValidMeasurementsMatchOnce(b: Bundle)
    requires Parses(b)
    ensures forall m :: m in b.measurements ==> exists c :: Measures(b, m, c)
    ensures forall m, n, c :: Measures(b, m, c) && Measures(b, n, c) ==> m == n
    ensures forall m, c, d :: Measures(b, m, c) && Measures(b, m, d) ==> c == d
  {
    Lists.DistinctByMeans(CellIn(b.runners), b.measurements);
    Lists.DistinctByMeans(ConfigurationCell, b.benchmark.expectedConfigurations);
    forall m | m in b.measurements
      ensures exists c :: Measures(b, m, c)
    {
      assert GoodMeasurement(b, m);
      var c :| c in b.benchmark.expectedConfigurations && CellOf(c) == MeasuredCell(b.runners, m).value;
      assert Measures(b, m, c);
    }
  }

  /** A valid bundle is complete exactly when its measurements match its expected configurations one
      to one and all of them succeeded: no measurement of a complete bundle failed or was skipped. */
  lemma CompleteIffExactCover(b: Bundle)
    requires Parses(b)
    ensures Complete(b) <==> ExactCover(b) && forall m :: m in b.measurements ==> m.outcome.Success?
  {
    ValidMeasurementsMatchOnce(b);
    if Complete(b) {
      forall c | c in b.benchmark.expectedConfigurations
        ensures exists m :: Measures(b, m, c) && m.outcome.Success?
      {
        assert Succeeded(b, CellOf(c));
        var m :| m in b.measurements && m.outcome.Success? && MeasuredCell(b.runners, m) == Some(CellOf(c));
        assert Measures(b, m, c);
      }
      forall m | m in b.measurements
        ensures m.outcome.Success?
      {
        var c :| Measures(b, m, c);
        var n :| Measures(b, n, c) && n.outcome.Success?;
      }
    }
    if ExactCover(b) && forall m :: m in b.measurements ==> m.outcome.Success? {
      forall c | c in b.benchmark.expectedConfigurations
        ensures Succeeded(b, CellOf(c))
      {
        var m :| Measures(b, m, c);
      }
    }
  }

  /** Every success in a valid bundle carries exactly the required metrics, except that a required
      metric called `constructor` is never missed. */
  lemma MetricCoverage(b: Bundle, m: Measurement)
    requires Parses(b) && m in b.measurements && m.outcome.Success?
    ensures m.outcome.values.Keys - {CONSTRUCTOR} == (set x | x in b.benchmark.metricIds) - {CONSTRUCTOR}
    ensures m.outcome.values.Keys == (set x | x in b.benchmark.metricIds) <==>
      (CONSTRUCTOR in b.benchmark.metricIds ==> CONSTRUCTOR in m.outcome.values)
  {
  }

  /** What is asked of a measurement, once the runners are good: a known runner and runtime, an expected
      configuration on that runner's platform, values for the required metrics and no others exactly when
      it succeeded, and texts as the content of textual outputs. */
  lemma GoodMeasurementIff(b: Bundle, m: Measurement)
    requires GoodRunners(b)
    ensures GoodMeasurement(b, m) <==>
      && (exists r :: r in b.runners && r.id == m.runnerId && PlatformExpected(b, m, r.platformId))
      && (exists e :: e in b.catalog.runtimes && e.id == m.runtimeId)
      && (match m.outcome
          case Success(values) =>
            && (forall x :: x in b.benchmark.metricIds && x != CONSTRUCTOR ==> x in values)
            && forall x :: x in values ==> x in b.benchmark.metricIds
          case Failed(_, stray) => !stray
          case Skipped(_, stray) => !stray)
      && forall o :: o in m.rawOutputs && o.format == TextFormat ==> o.content.VStr?
  {
    FindRunnerFinds(b.runners, m.runnerId);
    forall r | r in b.runners && r.id == m.runnerId
      ensures FindRunner(b.runners, m.runnerId) == Some(r)
    {
      Lists.DistinctByMeans(RunnerId, b.runners);
      assert RunnerId(FindRunner(b.runners, m.runnerId).value) == RunnerId(r);
    }
    if HasId(b.catalog.runtimes, m.runtimeId) {
      var i :| 0 <= i < |b.catalog.runtimes| && b.catalog.runtimes[i].id == m.runtimeId;
      assert b.catalog.runtimes[i] in b.catalog.runtimes;
    }
    if e :| e in b.catalog.runtimes && e.id == m.runtimeId {
      var i :| 0 <= i < |b.catalog.runtimes| && b.catalog.runtimes[i] == e;
    }
  }

  ghost predicate PlatformExpected(b: Bundle, m: Measurement, platform: Text) {
    exists c :: c in b.benchmark.expectedConfigurations &&
      c.runtimeId == m.runtimeId && c.platformId == platform && c.strategy == m.strategy
  }
}
