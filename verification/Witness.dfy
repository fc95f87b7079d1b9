/** Concrete stores and bundles. A store in which two pull requests can be promoted shows that the
    assumptions of the results about promotions, and of the protocol that makes them, can be met together.
    The other witnesses are inputs at which something that one might expect does not hold: a promotion that
    another one has made impossible, a version whose set of runtimes and metrics changes, and a success
    without a required metric. */
module Witness {
  import opened Texts
  import opened Bundles
  import opened Policies
  import opened Grouping
  import opened Store
  import opened Promotion
  import opened Protocol
  import opened Recovery
  import opened Pending
  import opened Overlap
  import opened Histories
  import opened Catalogs
  import CanonicalJson
  import Dashboard
  import Lists
  import Serving
  import Sorting
  import Together
  import Viewing

  const A: Text := [0x61]
  const B: Text := [0x62]

  function RequestOf(number: nat): PullRequest {
    PullRequest(A, number, A, B)
  }

  // ---------------------------------------------------------------- bundles

  function MetricOf(id: Text): Metric {
    Entry(id, MetricDefinition(A, Higher, 1), EMPTY)
  }

  function RuntimeOf(id: Text): Runtime {
    Entry(id, RuntimeDefinition(A, Native), EMPTY)
  }

  function CatalogOf(runtimes: seq<Runtime>, metrics: seq<Metric>): Catalog {
    Catalog(runtimes, [Entry(A, PlatformDefinition, EMPTY)], metrics, EMPTY)
  }

  const CATALOG := CatalogOf([RuntimeOf(A)], [MetricOf(A)])

  const CONFIGURATION := Configuration(A, A, New, EMPTY)

  function BenchmarkOf(id: Text, metric: Text): Benchmark {
    Benchmark(id, 1, EMPTY, [metric], [CONFIGURATION], EMPTY)
  }

  const RUNNER := Runner(A, A, A, A, Some(A), Some(A), Some(A), Some(1), Some(1), map[A := A], map[A := A], EMPTY)

  function PolicyOf(benchmark: Benchmark): Policy {
    Policy(CATALOG, benchmark, map[A := A])
  }

  const POLICY := PolicyOf(BenchmarkOf(A, A))

  function RunWith(id: Text, number: nat, catalog: Catalog, benchmark: Benchmark, values: map<Text, real>): Bundle {
    var pr := RequestOf(number);
    Bundle(
      Published,
      Run(id, 1, A, Workflow(A, Some(WorkflowUrl(pr, RunId(id, 1))), EMPTY),
          Commit(A, A, A, Some(CommitUrl(pr, A)), EMPTY), Some(pr), EMPTY),
      catalog, benchmark, [RUNNER], [Measurement(A, A, A, New, Success(values), [], EMPTY)])
  }

  function RunOn(id: Text, number: nat, benchmark: Benchmark): Bundle {
    RunWith(id, number, CATALOG, benchmark, map[A := 1.0])
  }

  function RunFor(id: Text, number: nat): Bundle {
    RunOn(id, number, BenchmarkOf(A, A))
  }

  function PublicationFor(id: Text, number: nat): Publication {
    CandidatePublication(RunFor(id, number), RequestOf(number))
  }

  lemma Identifiers()
    ensures Identifier(A) && Identifier(B)
  {
  }

  lemma Identified(id: Text, number: nat, runtimes: seq<Runtime>, metrics: seq<Metric>, benchmark: Benchmark,
                   values: map<Text, real>)
    requires DistinctIds(runtimes) && DistinctIds(metrics) && HasId(runtimes, A)
    requires benchmark.expectedConfigurations == [CONFIGURATION]
    requires |benchmark.metricIds| == 1 && HasId(metrics, benchmark.metricIds[0])
    ensures GoodDefinitions(RunWith(id, number, CatalogOf(runtimes, metrics), benchmark, values))
  {
    var b := RunWith(id, number, CatalogOf(runtimes, metrics), benchmark, values);
    assert b.catalog.platforms[0].id == A;
    assert HasId(b.catalog.platforms, A);
  }

  lemma Measured(id: Text, number: nat, runtimes: seq<Runtime>, metrics: seq<Metric>, benchmark: Benchmark,
                 values: map<Text, real>)
    requires HasId(runtimes, A) && benchmark.expectedConfigurations == [CONFIGURATION]
    requires GoodOutcome(benchmark.metricIds, Success(values))
    ensures
      var b := RunWith(id, number, CatalogOf(runtimes, metrics), benchmark, values);
      GoodRunners(b) && GoodMeasurements(b) && Succeeded(b, CellOf(CONFIGURATION))
  {
    var b := RunWith(id, number, CatalogOf(runtimes, metrics), benchmark, values);
    var m := b.measurements[0];
    assert b.catalog.platforms[0].id == A && HasId(b.catalog.platforms, A);
    assert A in RUNNER.tools && A in RUNNER.dependencies;
    assert GoodRunner(b, RUNNER);
    assert MeasuredCell(b.runners, m) == Some(CellOf(CONFIGURATION));
    assert CONFIGURATION in b.benchmark.expectedConfigurations;
    assert ExpectedCell(b, CellOf(CONFIGURATION));
    assert m in b.measurements;
    assert GoodMeasurement(b, m);
  }

  lemma RunComplete(id: Text, number: nat, runtimes: seq<Runtime>, metrics: seq<Metric>, benchmark: Benchmark,
                    values: map<Text, real>)
    requires Identifier(id) && IdentifiedEntries(runtimes) && IdentifiedEntries(metrics)
    requires DistinctIds(runtimes) && DistinctIds(metrics) && HasId(runtimes, A)
    requires WellTypedBenchmark(benchmark) && benchmark.expectedConfigurations == [CONFIGURATION]
    requires |benchmark.metricIds| == 1 && HasId(metrics, benchmark.metricIds[0])
    requires GoodOutcome(benchmark.metricIds, Success(values))
    ensures Complete(RunWith(id, number, CatalogOf(runtimes, metrics), benchmark, values))
  {
    Identifiers();
    Identified(id, number, runtimes, metrics, benchmark, values);
    Measured(id, number, runtimes, metrics, benchmark, values);
  }

  lemma RunPublishable(id: Text, number: nat, benchmark: Text)
    requires Identifier(id) && Identifier(benchmark)
    ensures Publishable(RunOn(id, number, BenchmarkOf(benchmark, A)), PolicyOf(BenchmarkOf(benchmark, A)))
  {
    Identifiers();
    RunOnComplete(id, number, benchmark);
  }

  lemma RunOnComplete(id: Text, number: nat, benchmark: Text)
    requires Identifier(id) && Identifier(benchmark)
    ensures Complete(RunOn(id, number, BenchmarkOf(benchmark, A)))
  {
    Identifiers();
    assert CATALOG.runtimes[0].id == A && CATALOG.metrics[0].id == A;
    RunComplete(id, number, CATALOG.runtimes, CATALOG.metrics, BenchmarkOf(benchmark, A), map[A := 1.0]);
  }

  // ---------------------------------------------------------------- a store with two stored runs

  /** Two stored runs, nothing published. The second one is of the given benchmark. */
  function TwoRuns(benchmark: Text): Files {
    NO_FILES.(runs := map[RunId(A, 1) := RunFor(A, 1), RunId(B, 1) := RunOn(B, 2, BenchmarkOf(benchmark, A))])
  }

  function SecondPublication(benchmark: Text): Publication {
    CandidatePublication(RunOn(B, 2, BenchmarkOf(benchmark, A)), RequestOf(2))
  }

  lemma RunReadable(files: Files, id: Text, number: nat, benchmark: Text)
    requires Identifier(id) && Identifier(benchmark) && PositiveInteger(number)
    requires RunId(id, 1) in files.runs && files.runs[RunId(id, 1)] == RunOn(id, number, BenchmarkOf(benchmark, A))
    ensures Readable(files, RunId(id, 1))
    ensures
      var p := CandidatePublication(RunOn(id, number, BenchmarkOf(benchmark, A)), RequestOf(number));
      RunVouches(files, p, PolicyOf(BenchmarkOf(benchmark, A))) && WellTypedPublication(p)
  {
    RunPublishable(id, number, benchmark);
  }

  lemma StoreFiled(benchmark: Text)
    requires Identifier(benchmark)
    ensures RunsFiled(TwoRuns(benchmark))
  {
    Identifiers();
    RunReadable(TwoRuns(benchmark), A, 1, A);
    RunReadable(TwoRuns(benchmark), B, 2, benchmark);
  }

  lemma StoreIntact(benchmark: Text)
    requires Identifier(benchmark)
    ensures Intact(TwoRuns(benchmark))
  {
    StoreFiled(benchmark);
    assert IndexOf(TwoRuns(benchmark)) == [];
  }

  lemma OneAccepted(b: Bundle)
    requires Complete(b)
    ensures Acceptable([b])
  {
  }

  lemma FirstAllowed(files: Files, p: Publication)
    requires files.publications == map[] && IndexOf(files) == [] && Readable(files, p.entry.run)
    ensures IndexAllows(files, p)
  {
    assert NextEntries([], p) == [p.entry];
    assert BundlesAt(files, [p.entry]) == [files.runs[p.entry.run]];
    OneAccepted(files.runs[p.entry.run]);
  }

  lemma PossibleFirst(benchmark: Text, number: nat, p: Publication, policy: Policy)
    requires Identifier(benchmark) && p.pullRequest.number == number && RunVouches(TwoRuns(benchmark), p, policy)
    ensures CanPromote(TwoRuns(benchmark), p, policy)
  {
    FirstAllowed(TwoRuns(benchmark), p);
  }

  lemma BothAccepted()
    ensures Acceptable([RunFor(A, 1), RunFor(B, 2)])
  {
  }

  lemma TwoAccepted(files: Files, e: IndexEntry, f: IndexEntry)
    requires files.runs == TwoRuns(A).runs && e.run == RunId(A, 1) && f.run == RunId(B, 1)
    ensures AcceptableIndex(files, [e, f])
  {
    BothReadable(files);
    assert A[0] != B[0];
    assert BundlesAt(files, [e, f]) == [RunFor(A, 1), RunFor(B, 2)];
    BothAccepted();
  }

  lemma SecondAccepted(leq: Order)
    requires TotalOrder(leq)
    ensures
      var p, q := PublicationFor(A, 1), PublicationFor(B, 2);
      AcceptableIndex(Promoted(leq, TwoRuns(A), p), [p.entry, q.entry])
  {
    var p, q := PublicationFor(A, 1), PublicationFor(B, 2);
    TwoAccepted(Promoted(leq, TwoRuns(A), p), p.entry, q.entry);
  }

  lemma BothReadable(files: Files)
    requires files.runs == TwoRuns(A).runs
    ensures Readable(files, RunId(A, 1)) && Readable(files, RunId(B, 1))
  {
    Identifiers();
    RunReadable(files, A, 1, A);
    RunReadable(files, B, 2, A);
  }

  lemma FirstIndex(leq: Order, files: Files, p: Publication)
    requires IndexOf(files) == []
    ensures IndexOf(Promoted(leq, files, p)) == [p.entry]
  {
    assert NextEntries([], p) == [p.entry];
    assert Sorting.Sort(EntryOrder(leq), [p.entry][1..]) == [];
  }

  lemma AllowedSecond(files: Files, e: IndexEntry, p: Publication)
    requires IndexOf(files) == [e] && e.run != p.entry.run && RecordFree(files, p)
    requires AcceptableIndex(files, [e, p.entry])
    ensures IndexAllows(files, p)
  {
    assert NextEntries([e], p) == [e, p.entry];
    assert e in [e, p.entry];
  }

  lemma SecondAllowed(leq: Order)
    requires TotalOrder(leq)
    ensures IndexAllows(Promoted(leq, TwoRuns(A), PublicationFor(A, 1)), PublicationFor(B, 2))
  {
    var p, q := PublicationFor(A, 1), PublicationFor(B, 2);
    SecondAccepted(leq);
    assert A[0] != B[0];
    FirstIndex(leq, TwoRuns(A), p);
    AllowedSecond(Promoted(leq, TwoRuns(A), p), p.entry, q);
  }

  /** After the first promotion the second one is possible too. */
  lemma SecondPossible(leq: Order)
    requires TotalOrder(leq)
    ensures CanPromote(Promoted(leq, TwoRuns(A), PublicationFor(A, 1)), PublicationFor(B, 2), POLICY)
  {
    Identifiers();
    RunReadable(Promoted(leq, TwoRuns(A), PublicationFor(A, 1)), B, 2, A);
    SecondAllowed(leq);
  }

  /** The assumptions of `PromotionsCommute` and of the runs of the protocol hold of this store. */
  lemma PromotionsPossible(leq: Order)
    requires TotalOrder(leq)
    ensures
      var files, p, q := TwoRuns(A), PublicationFor(A, 1), PublicationFor(B, 2);
      && Quiet(State(files, map[], None, map[]))
      && CanPromote(files, p, POLICY) && CanPromote(Promoted(leq, files, p), q, POLICY)
      && p.pullRequest.number != q.pullRequest.number
  {
    Identifiers();
    StoreIntact(A);
    RunReadable(TwoRuns(A), A, 1, A);
    PossibleFirst(A, 1, PublicationFor(A, 1), POLICY);
    SecondPossible(leq);
  }

  // ---------------------------------------------------------------- a retry that comes too late

  /** The two runs share a version but not a definition, so at most one of them can be published. */
  lemma ExcludesOther(leq: Order)
    requires TotalOrder(leq)
    ensures !CanPromote(Promoted(leq, TwoRuns(B), SecondPublication(B)), PublicationFor(A, 1), POLICY)
  {
    var p, q := PublicationFor(A, 1), SecondPublication(B);
    var after := Promoted(leq, TwoRuns(B), q);
    assert A[0] != B[0];
    FirstIndex(leq, TwoRuns(B), q);
    assert NextEntries([q.entry], p) == [q.entry, p.entry];
    Unacceptable(after, q.entry, p.entry);
  }

  lemma Unacceptable(files: Files, e: IndexEntry, f: IndexEntry)
    requires e.run in files.runs && f.run in files.runs && !Compatible(files.runs[e.run], files.runs[f.run])
    ensures !AcceptableIndex(files, [e, f])
  {
    var bundles := BundlesAt(files, [e, f]);
    assert bundles[0] in bundles && bundles[1] in bundles;
  }

  lemma CrashedUnderLock(leq: Order, files: Files, job: Job) returns (actions: seq<Action>)
    requires ValidJob(job) && job.PromoteJob?
    ensures
      var s := State(files, map[], None, map[]);
      && CanRun(leq, s, actions)
      && RunAll(leq, s, actions) == State(files, map[], Some(0), map[0 := Process(job, Crashed)])
  {
    var s := State(files, map[], None, map[]);
    var spawned := Apply(leq, s, Spawn(0, job));
    var locked := Apply(leq, spawned, Advance(0, 0));
    actions := FirstAction(leq, locked, Crash(0), []);
    actions := FirstAction(leq, spawned, Advance(0, 0), actions);
    actions := FirstAction(leq, s, Spawn(0, job), actions);
  }

  /** One job takes the lock and crashes, the lock is cleared, and another job begins. */
  lemma CrashedOnce(leq: Order, files: Files, first: Job, second: Job)
    returns (actions: seq<Action>, t: State)
    requires ValidJob(first) && ValidJob(second) && first.PromoteJob?
    ensures
      var s := State(files, map[], None, map[]);
      CanRun(leq, s, actions) && RunAll(leq, s, actions) == t
    ensures t == State(files, map[], None, map[0 := Process(first, Crashed), 1 := Process(second, Locking)])
  {
    var s := State(files, map[], None, map[]);
    var before := CrashedUnderLock(leq, files, first);
    var crashed := RunAll(leq, s, before);
    var cleared := Apply(leq, crashed, ClearLock);
    t := Apply(leq, cleared, Spawn(1, second));
    actions := FirstAction(leq, cleared, Spawn(1, second), []);
    actions := FirstAction(leq, crashed, ClearLock, actions);
    RunJoined(leq, s, before, actions);
    actions := before + actions;
  }

  lemma FirstAction(leq: Order, s: State, a: Action, rest: seq<Action>) returns (actions: seq<Action>)
    requires Enabled(s, a) && CanRun(leq, Apply(leq, s, a), rest)
    ensures CanRun(leq, s, actions) && RunAll(leq, s, actions) == RunAll(leq, Apply(leq, s, a), rest)
  {
    actions := [a] + rest;
    assert actions[0] == a && actions[1..] == rest;
  }

  /** A promotion that is possible takes the lock and crashes. The lock is cleared and another promotion
      publishes another definition of the same version. From then on a retry of the first one fails. */
  lemma RetryBlocked(leq: Order) returns (actions: seq<Action>)
    requires TotalOrder(leq)
    ensures
      var s, p := State(TwoRuns(B), map[], None, map[]), PublicationFor(A, 1);
      && Quiet(s) && CanPromote(s.files, p, POLICY) && CanRun(leq, s, actions)
      && var t := RunAll(leq, s, actions);
         && t.lock.None?
         && t.processes == map[
           0 := Process(PromoteJob(p, POLICY), Crashed),
           1 := Process(PromoteJob(SecondPublication(B), PolicyOf(BenchmarkOf(B, A))), Done)]
         && !CanPromote(t.files, p, POLICY)
  {
    EitherPossible();
    ExcludesOther(leq);
    actions := CrashedThenCompleted(
      leq, TwoRuns(B), PromoteJob(PublicationFor(A, 1), POLICY),
      PromoteJob(SecondPublication(B), PolicyOf(BenchmarkOf(B, A))));
  }

  lemma EitherPossible()
    ensures Intact(TwoRuns(B)) && CanPromote(TwoRuns(B), PublicationFor(A, 1), POLICY)
    ensures CanPromote(TwoRuns(B), SecondPublication(B), PolicyOf(BenchmarkOf(B, A)))
    ensures WellTypedPublication(PublicationFor(A, 1)) && WellTypedPublication(SecondPublication(B))
  {
    Identifiers();
    StoreIntact(B);
    RunReadable(TwoRuns(B), A, 1, A);
    RunReadable(TwoRuns(B), B, 2, B);
    PossibleFirst(B, 1, PublicationFor(A, 1), POLICY);
    PossibleFirst(B, 2, SecondPublication(B), PolicyOf(BenchmarkOf(B, A)));
  }

  lemma CompletedAlone(leq: Order, s: State, pid: Pid) returns (actions: seq<Action>)
    requires pid in s.processes && s.processes[pid].job.PromoteJob? && s.processes[pid].phase.Locking?
    requires s.lock.None? && s.temporaries == map[]
    requires CanPromote(s.files, s.processes[pid].job.publication, s.processes[pid].job.policy)
    ensures CanRun(leq, s, actions)
    ensures RunAll(leq, s, actions) == State(
      Promoted(leq, s.files, s.processes[pid].job.publication), map[], None,
      s.processes[pid := s.processes[pid].(phase := Done)])
  {
    PromotionAloneRefinesCommand(leq, s, pid, 0);
    var files := Promoted(leq, s.files, s.processes[pid].job.publication);
    var t := State(files, map[], None, s.processes[pid := s.processes[pid].(phase := Done)]);
    var steps: nat :| ReachesIn(leq, s, pid, 0, steps, t);
    actions := Alone(pid, 0, steps);
  }

  lemma CrashedThenCompleted(leq: Order, files: Files, first: Job, second: Job) returns (actions: seq<Action>)
    requires ValidJob(first) && ValidJob(second) && first.PromoteJob? && second.PromoteJob?
    requires CanPromote(files, second.publication, second.policy)
    ensures
      var s := State(files, map[], None, map[]);
      && CanRun(leq, s, actions)
      && RunAll(leq, s, actions) == State(
        Promoted(leq, files, second.publication), map[], None,
        map[0 := Process(first, Crashed), 1 := Process(second, Done)])
  {
    var before, t := CrashedOnce(leq, files, first, second);
    var alone := CompletedAlone(leq, t, 1);
    RunJoined(leq, State(files, map[], None, map[]), before, alone);
    actions := before + alone;
  }

  // ---------------------------------------------------------------- a pointer that is lost

  /** Archival of a run of the first pull request, with its creation text. */
  function ArchivalOf(id: Text): Job {
    ArchiveJob(RunFor(id, 1), POLICY, 1, id)
  }

  lemma ArchivalValid(id: Text)
    requires Identifier(id)
    ensures ValidJob(ArchivalOf(id))
  {
    Identifiers();
    RunPublishable(id, 1, A);
  }

  const BOTH: map<Pid, Job> := map[0 := ArchivalOf(A), 1 := ArchivalOf(B)]

  lemma BothPossible()
    ensures AllArchivable(NO_FILES, BOTH) && Archivals(1, BOTH)
  {
    BothValid();
    BothForOne();
    BothFit();
  }

  lemma BothValid()
    ensures AllValid(BOTH)
  {
    Identifiers();
    forall pid | pid in BOTH
      ensures ValidJob(BOTH[pid])
    {
      ArchivalValid(if pid == 0 then A else B);
    }
  }

  lemma BothForOne()
    ensures Archivals(1, BOTH)
  {
  }

  lemma BothFit()
    ensures AllFit(NO_FILES, BOTH) && OwnDocumentsOnly(BOTH)
  {
    assert A[0] != B[0];
  }

  /** In order, the later run would have kept the pointer. */
  lemma LaterWouldStay()
    ensures Latest([Offering(ArchivalOf(A)), Offering(ArchivalOf(B))]) == Some(Offering(ArchivalOf(B)))
  {
    var p, q := Offering(ArchivalOf(A)), Offering(ArchivalOf(B));
    assert Less(A, B);
    LatestAppended([], p);
    LatestAppended([p], q);
    assert [] + [p] == [p] && [p] + [q] == [p, q];
  }

  /** Archival of an earlier run and archival of a later one overlap, both succeed, and the pointer ends at
      the earlier run. */
  lemma PointerLost(leq: Order) returns (actions: seq<Action>)
    ensures
      var first, second := ArchivalOf(A), ArchivalOf(B);
      && Leaves(leq, State(NO_FILES, map[], None, map[]), actions, 1, BOTH, Some(Offering(first)))
      && Latest([Offering(first), Offering(second)]) == Some(Offering(second))
  {
    BothPossible();
    LaterWouldStay();
    ChainOfOne(None, BOTH, 0);
    actions := ChainLeaves(leq, State(NO_FILES, map[], None, map[]), 1, BOTH, [0]);
  }

  // ---------------------------------------------------------------- bundles that one might not expect

  function RuntimeIds(b: Bundle): set<Text> {
    set e | e in b.catalog.runtimes :: e.id
  }

  function MetricIds(b: Bundle): set<Text> {
    set e | e in b.catalog.metrics :: e.id
  }

  /** A run with one more runtime and one more metric in its catalog, and with that metric required. */
  function WiderRun(id: Text, number: nat): Bundle {
    RunWith(id, number, CatalogOf([RuntimeOf(A), RuntimeOf(B)], [MetricOf(A), MetricOf(B)]), BenchmarkOf(A, B),
            map[B := 1.0])
  }

  lemma WiderComplete(id: Text, number: nat)
    requires Identifier(id)
    ensures Complete(WiderRun(id, number))
  {
    Identifiers();
    assert A[0] != B[0];
    var runtimes, metrics := [RuntimeOf(A), RuntimeOf(B)], [MetricOf(A), MetricOf(B)];
    assert runtimes[0].id == A && metrics[1].id == B;
    RunComplete(id, number, runtimes, metrics, BenchmarkOf(A, B), map[B := 1.0]);
  }

  /** All runtimes have one definition, and all metrics have one. */
  ghost predicate Uniform(b: Bundle) {
    && (forall e :: e in b.catalog.runtimes ==> e.definition == RuntimeDefinition(A, Native))
    && (forall e :: e in b.catalog.metrics ==> e.definition == MetricDefinition(A, Higher, 1))
  }

  lemma UniformCompatible(a: Bundle, b: Bundle)
    requires Uniform(a) && Uniform(b) && DefinitionOf(a) == DefinitionOf(b)
    ensures Compatible(a, b)
  {
  }

  lemma AcceptableTwo(a: Bundle, b: Bundle)
    requires RunIdOf(a) != RunIdOf(b) && a.source == b.source
    requires Compatible(a, a) && Compatible(a, b) && Compatible(b, a) && Compatible(b, b)
    ensures Acceptable([a, b])
  {
  }

  lemma WiderAccepted()
    ensures Acceptable([RunFor(A, 1), WiderRun(B, 2)])
  {
    var b, c := RunFor(A, 1), WiderRun(B, 2);
    assert A[0] != B[0];
    UniformCompatible(b, b);
    UniformCompatible(b, c);
    UniformCompatible(c, b);
    UniformCompatible(c, c);
    AcceptableTwo(b, c);
  }

  lemma WiderDiffers()
    ensures RuntimeIds(RunFor(A, 1)) != RuntimeIds(WiderRun(B, 2))
    ensures MetricIds(RunFor(A, 1)) != MetricIds(WiderRun(B, 2))
    ensures BenchmarkOf(A, A).metricIds != BenchmarkOf(A, B).metricIds
  {
    var c := WiderRun(B, 2);
    assert A[0] != B[0];
    assert c.catalog.runtimes[1].id == B && c.catalog.metrics[1].id == B;
    assert B in RuntimeIds(c) && B in MetricIds(c);
  }

  /** Runs of one version are accepted together although their sets of runtimes, of metrics and of
      required metrics differ: no version bump is enforced for that. */
  lemma VersionMayChangeSets()
    ensures
      var b, c := RunFor(A, 1), WiderRun(B, 2);
      && Complete(b) && Complete(c) && Acceptable([b, c])
      && b.benchmark.version == c.benchmark.version
      && RuntimeIds(b) != RuntimeIds(c) && MetricIds(b) != MetricIds(c)
      && b.benchmark.metricIds != c.benchmark.metricIds
  {
    Identifiers();
    RunOnComplete(A, 1, A);
    WiderComplete(B, 2);
    WiderAccepted();
    WiderDiffers();
  }

  /** A run that is complete although its one required metric is missing from its one success. */
  function Unmeasured(): Bundle {
    RunWith(A, 1, CatalogOf([RuntimeOf(A)], [MetricOf(CONSTRUCTOR)]), BenchmarkOf(A, CONSTRUCTOR), map[])
  }

  lemma RequiredMetricMissed()
    ensures
      var b := Unmeasured();
      && Complete(b) && CONSTRUCTOR in b.benchmark.metricIds
      && b.measurements[0].outcome == Success(map[])
  {
    Identifiers();
    var runtimes, metrics := [RuntimeOf(A)], [MetricOf(CONSTRUCTOR)];
    assert runtimes[0].id == A && metrics[0].id == CONSTRUCTOR;
    RunComplete(A, 1, runtimes, metrics, BenchmarkOf(A, CONSTRUCTOR), map[]);
  }

  // ---------------------------------------------------------------- versions shown together

  /** A run of a version with a creation text and metrics of its own. */
  function DatedRun(id: Text, version: nat, createdAt: Text, metrics: seq<Metric>): Bundle {
    var b := RunWith(id, 1, CatalogOf([RuntimeOf(A)], metrics), BenchmarkOf(A, A).(version := version), map[A := 1.0]);
    b.(run := b.run.(createdAt := createdAt))
  }

  const C: Text := [0x63]

  /** The metric B of the first version, which carries a note. */
  const NOTED: Metric := MetricOf(B).(rest := CanonicalJson.VNull)

  function First(x: Text): Bundle { DatedRun(A, 1, x, [MetricOf(A), NOTED]) }

  function Second(y: Text): Bundle { DatedRun(B, 2, y, [MetricOf(A), MetricOf(B)]) }

  function Third(z: Text): Bundle { DatedRun(C, 1, z, [MetricOf(A)]) }

  lemma DatedComplete(id: Text, version: nat, createdAt: Text, metrics: seq<Metric>)
    requires Identifier(id) && PositiveInteger(version)
    requires IdentifiedEntries(metrics) && DistinctIds(metrics) && HasId(metrics, A)
    ensures Complete(DatedRun(id, version, createdAt, metrics))
  {
    Identifiers();
    var runtimes := [RuntimeOf(A)];
    assert runtimes[0].id == A;
    var benchmark := BenchmarkOf(A, A).(version := version);
    RunComplete(id, 1, runtimes, metrics, benchmark, map[A := 1.0]);
    RedatedComplete(RunWith(id, 1, CatalogOf(runtimes, metrics), benchmark, map[A := 1.0]), createdAt);
  }

  lemma RedatedComplete(b: Bundle, createdAt: Text)
    requires Complete(b)
    ensures Complete(b.(run := b.run.(createdAt := createdAt)))
  {
    var after := b.(run := b.run.(createdAt := createdAt));
    forall c | c in after.benchmark.expectedConfigurations
      ensures Succeeded(after, CellOf(c))
    {
      assert Succeeded(b, CellOf(c));
    }
  }

  lemma FirstComplete(x: Text)
    ensures Complete(First(x))
  {
    var metrics := [MetricOf(A), NOTED];
    Identifiers();
    assert A[0] != B[0];
    assert metrics[0].id == A;
    DatedComplete(A, 1, x, metrics);
  }

  lemma SecondComplete(y: Text)
    ensures Complete(Second(y))
  {
    var metrics := [MetricOf(A), MetricOf(B)];
    Identifiers();
    assert A[0] != B[0];
    assert metrics[0].id == A;
    DatedComplete(B, 2, y, metrics);
  }

  lemma ThirdComplete(z: Text)
    ensures Complete(Third(z))
  {
    var metrics := [MetricOf(A)];
    Identifiers();
    assert metrics[0].id == A;
    DatedComplete(C, 1, z, metrics);
  }

  lemma ThreeComplete(x: Text, y: Text, z: Text)
    ensures Complete(First(x)) && Complete(Second(y)) && Complete(Third(z))
  {
    FirstComplete(x);
    SecondComplete(y);
    ThirdComplete(z);
  }

  ghost predicate Plain(metrics: seq<Metric>) {
    forall e :: e in metrics ==> e.definition == MetricDefinition(A, Higher, 1)
  }

  lemma PlainCompatible(id: Text, other: Text, version: nat, x: Text, y: Text, a: seq<Metric>, b: seq<Metric>)
    requires Plain(a) && Plain(b)
    ensures Compatible(DatedRun(id, version, x, a), DatedRun(other, version, y, b))
  {
  }

  lemma AcceptableThree(a: Bundle, b: Bundle, c: Bundle)
    requires RunIdOf(a) != RunIdOf(b) && RunIdOf(a) != RunIdOf(c) && RunIdOf(b) != RunIdOf(c)
    requires a.source == b.source == c.source
    requires b.benchmark.version != a.benchmark.version && b.benchmark.version != c.benchmark.version
    requires Compatible(a, a) && Compatible(b, b) && Compatible(c, c) && Compatible(a, c) && Compatible(c, a)
    ensures Acceptable([a, b, c])
  {
  }

  lemma ThreeAcceptable(x: Text, y: Text, z: Text)
    ensures Acceptable([First(x), Second(y), Third(z)])
  {
    var a, b, c := [MetricOf(A), NOTED], [MetricOf(A), MetricOf(B)], [MetricOf(A)];
    assert A[0] != B[0] && A[0] != C[0] && B[0] != C[0];
    PlainCompatible(A, A, 1, x, x, a, a);
    PlainCompatible(B, B, 2, y, y, b, b);
    PlainCompatible(C, C, 1, z, z, c, c);
    PlainCompatible(A, C, 1, x, z, a, c);
    PlainCompatible(C, A, 1, z, x, c, a);
    AcceptableThree(First(x), Second(y), Third(z));
  }

  ghost predicate Apart(leq: Order, x: Text, y: Text, z: Text) {
    leq(x, y) && leq(y, z) && x != y && y != z
  }

  lemma ThreeSorted(leq: Order, x: Text, y: Text, z: Text)
    requires TotalOrder(leq) && Apart(leq, x, y, z)
    ensures Sorting.Sorted(RunOrder(leq), [First(x), Second(y), Third(z)])
  {
    assert x != z;
  }

  lemma ThreeInOrder(leq: Order, x: Text, y: Text, z: Text)
    requires TotalOrder(leq) && Apart(leq, x, y, z)
    ensures
      var a, b, c := First(x), Second(y), Third(z);
      && Sorting.Sort(RunOrder(leq), [a, b, c]) == [a, b, c]
      && Sorting.Sort(RunOrder(leq), [a, c, b]) == [a, b, c]
  {
    ThreeSorted(leq, x, y, z);
    ThreeAcceptable(x, y, z);
    SortedEitherWay(leq, First(x), Second(y), Third(z));
  }

  lemma SortedEitherWay(leq: Order, a: Bundle, b: Bundle, c: Bundle)
    requires TotalOrder(leq) && DistinctRuns([a, b, c]) && Sorting.Sorted(RunOrder(leq), [a, b, c])
    ensures Sorting.Sort(RunOrder(leq), [a, b, c]) == [a, b, c]
    ensures Sorting.Sort(RunOrder(leq), [a, c, b]) == [a, b, c]
  {
    OrdersSort(leq);
    RunsSeparated(leq, [a, b, c]);
    Sorting.SortOfSorted(RunOrder(leq), [a, b, c]);
    Sorting.SortIffSameElements(RunOrder(leq), [a, b, c], [a, c, b]);
  }

  lemma FilterThree(p: Bundle -> bool, a: Bundle, b: Bundle, c: Bundle)
    ensures Lists.Filter(p, [a, b, c]) ==
      (if p(a) then [a] else []) + (if p(b) then [b] else []) + if p(c) then [c] else []
  {
    Lists.FilterAppend(p, [], a);
    Lists.FilterAppend(p, [a], b);
    Lists.FilterAppend(p, [a, b], c);
    assert [] + [a] == [a] && [a] + [b] == [a, b] && [a, b] + [c] == [a, b, c];
  }

  lemma ThreeGroups(x: Text, y: Text, z: Text)
    ensures
      var a, b, c := First(x), Second(y), Third(z);
      && GroupOf([a, b, c], DefinitionOf(a)) == [a, c]
      && GroupOf([a, b, c], DefinitionOf(b)) == [b]
      && GroupOf([a, b, c], DefinitionOf(c)) == [a, c]
  {
    var a, b, c := First(x), Second(y), Third(z);
    FilterThree(HasDefinition(DefinitionOf(a)), a, b, c);
    FilterThree(HasDefinition(DefinitionOf(b)), a, b, c);
  }

  lemma UnionOfTwo(a: Bundle, b: Bundle)
    ensures Union(MetricsOf, [a, b]) == Absorb([], a.catalog.metrics + b.catalog.metrics)
  {
    var bundles := [a, b];
    Lists.FlatMapStep(MetricsOf, bundles, 0);
    Lists.FlatMapStep(MetricsOf, bundles, 1);
    assert bundles[..0] == [] && bundles[..2] == bundles;
    assert Gather(MetricsOf, bundles[..1]) == [] + a.catalog.metrics == a.catalog.metrics;
  }

  lemma UnionOfThree(a: Bundle, b: Bundle, c: Bundle)
    ensures Union(MetricsOf, [a, b, c]) == Absorb([], a.catalog.metrics + b.catalog.metrics + c.catalog.metrics)
  {
    var bundles := [a, b, c];
    Lists.FlatMapStep(MetricsOf, bundles, 0);
    Lists.FlatMapStep(MetricsOf, bundles, 1);
    Lists.FlatMapStep(MetricsOf, bundles, 2);
    assert bundles[..0] == [] && bundles[..3] == bundles;
    assert Gather(MetricsOf, bundles[..1]) == [] + a.catalog.metrics == a.catalog.metrics;
    assert Gather(MetricsOf, bundles[..2]) == a.catalog.metrics + b.catalog.metrics;
  }

  lemma AbsorbNext(entries: seq<Metric>, e: Metric)
    ensures Absorb([], entries + [e]) == Put(Absorb([], entries), e)
  {
    assert (entries + [e])[..|entries|] == entries;
  }

  /** Later entries replace earlier ones in their place. */
  lemma AbsorbedFirst()
    ensures
      var a, noted, b := MetricOf(A), NOTED, MetricOf(B);
      Absorb([], [a, noted] + [a]) == [a, noted] && Absorb([], [a, noted] + [a, b]) == [a, b]
  {
    var a, noted, b := MetricOf(A), NOTED, MetricOf(B);
    assert A[0] != B[0];
    AbsorbNext([], a);
    assert [] + [a] == [a];
    AbsorbNext([a], noted);
    assert [a] + [noted] == [a, noted];
    assert Put([a], noted) == [a] + Put([a][1..], noted) == [a, noted];
    AbsorbNext([a, noted], a);
    assert Put([a, noted], a) == [a] + [a, noted][1..] == [a, noted];
    AbsorbNext([a, noted] + [a], b);
    assert Put([a, noted], b) == [a] + Put([a, noted][1..], b) == [a, b];
    assert [a, noted] + [a] + [b] == [a, noted] + [a, b];
  }

  lemma Absorbed()
    ensures
      var a, noted, b := MetricOf(A), NOTED, MetricOf(B);
      && Absorb([], [a, noted] + [a]) == [a, noted]
      && Absorb([], [a, noted] + [a, b] + [a]) == [a, b]
      && Absorb([], [a, noted] + [a, b] + [a, noted]) == [a, noted]
  {
    var a, noted, b := MetricOf(A), NOTED, MetricOf(B);
    assert A[0] != B[0];
    AbsorbedFirst();
    AbsorbNext([a, noted] + [a, b], a);
    assert Put([a, b], a) == [a] + [a, b][1..] == [a, b];
    AbsorbNext([a, noted] + [a, b] + [a], noted);
    assert Put([a, b], noted) == [a] + Put([a, b][1..], noted) == [a, noted];
    assert [a, noted] + [a, b] + [a] + [noted] == [a, noted] + [a, b] + [a, noted];
  }

  lemma ThreeGroupsIn(leq: Order, x: Text, y: Text, z: Text)
    requires TotalOrder(leq) && Apart(leq, x, y, z)
    ensures
      var a, b, c := First(x), Second(y), Third(z);
      && Serving.GroupIn(leq, [a, b, c], a) == [a, c]
      && Serving.GroupIn(leq, [a, b, c], b) == [b]
      && Serving.GroupIn(leq, [a, b, c], c) == [a, c]
  {
    ThreeInOrder(leq, x, y, z);
    ThreeGroups(x, y, z);
  }

  lemma SecondUnion(b: Bundle)
    requires b.catalog.metrics == [MetricOf(A), MetricOf(B)]
    ensures Union(MetricsOf, [b]) == [MetricOf(A), MetricOf(B)]
  {
    assert A[0] != B[0];
    Serving.ConstantUnion(MetricsOf, [b], [MetricOf(A), MetricOf(B)]);
  }

  lemma ThreeRewritten(leq: Order, x: Text, y: Text, z: Text)
    requires TotalOrder(leq) && Apart(leq, x, y, z)
    ensures
      var a, b, c := First(x), Second(y), Third(z);
      var f := Serving.Rewriting(leq, [a, b, c]);
      && f(a).catalog.metrics == [MetricOf(A), NOTED]
      && f(b).catalog.metrics == [MetricOf(A), MetricOf(B)]
      && f(c).catalog.metrics == [MetricOf(A), NOTED]
  {
    var a, b, c := First(x), Second(y), Third(z);
    ThreeGroupsIn(leq, x, y, z);
    UnionOfTwo(a, c);
    Absorbed();
    SecondUnion(b);
  }

  /** Served, the combined view of two versions can show another entry of a metric than the store's own
      bundles would: the newest run carries the entry of an older run of its version, which replaces the
      one of a run in between. Units and directions agree all the same. */
  lemma CombinedEntriesDiffer(leq: Order, x: Text, y: Text, z: Text)
    requires TotalOrder(leq) && Apart(leq, x, y, z)
    ensures
      var a, b, c := First(x), Second(y), Third(z);
      var bundles, selected := [a, b, c], [[a, c], [b]];
      var f := Serving.Rewriting(leq, bundles);
      && Complete(a) && Complete(b) && Complete(c) && Acceptable(bundles)
      && selected[0] in HistoriesOf(leq, bundles) && selected[1] in HistoriesOf(leq, bundles)
      && Dashboard.UnitsAgree(bundles)
      && Dashboard.Combined(leq, selected).metrics == [MetricOf(A), MetricOf(B)]
      && Dashboard.Combined(leq, Lists.Map(Serving.OnGroups(f), selected)).metrics == [MetricOf(A), NOTED]
      && !Together.NewestAgree(leq, bundles, MetricsOf, Dashboard.Flat(selected))
  {
    ThreeComplete(x, y, z);
    ThreeAcceptable(x, y, z);
    ThreeHistories(leq, x, y, z);
    ThreeCombined(leq, x, y, z);
    ThreeUnits(x, y, z);
    ThreeDisagree(leq, x, y, z);
  }

  /** The condition of `CombinedEntriesIff` fails for these runs. */
  lemma ThreeDisagree(leq: Order, x: Text, y: Text, z: Text)
    requires TotalOrder(leq) && Apart(leq, x, y, z)
    ensures
      var a, b, c := First(x), Second(y), Third(z);
      !Together.NewestAgree(leq, [a, b, c], MetricsOf, Dashboard.Flat([[a, c], [b]]))
  {
    ThreeParse(x, y, z);
    ThreeSelected(leq, x, y, z);
    ThreeShownApart(leq, x, y, z);
    Together.MetricsDisagree(leq, [First(x), Second(y), Third(z)], [[First(x), Third(z)], [Second(y)]]);
  }

  lemma ThreeSelected(leq: Order, x: Text, y: Text, z: Text)
    requires TotalOrder(leq) && Apart(leq, x, y, z)
    ensures
      var a, b, c := First(x), Second(y), Third(z);
      forall i :: 0 <= i < |[[a, c], [b]]| ==> [[a, c], [b]][i] in HistoriesOf(leq, [a, b, c])
  {
    ThreeHistories(leq, x, y, z);
  }

  lemma ThreeShownApart(leq: Order, x: Text, y: Text, z: Text)
    requires TotalOrder(leq) && Apart(leq, x, y, z)
    ensures
      var a, b, c := First(x), Second(y), Third(z);
      var selected, f := [[a, c], [b]], Serving.Rewriting(leq, [a, b, c]);
      !Together.SameEntries(
        Dashboard.Combined(leq, Lists.Map(Serving.OnGroups(f), selected)).metrics,
        Dashboard.Combined(leq, selected).metrics)
  {
    ThreeCombined(leq, x, y, z);
    NotedApart();
  }

  lemma ThreeParse(x: Text, y: Text, z: Text)
    ensures forall b :: b in [First(x), Second(y), Third(z)] ==> Parses(b)
  {
    ThreeComplete(x, y, z);
  }

  lemma NotedApart()
    ensures !Together.SameEntries([MetricOf(A), NOTED], [MetricOf(A), MetricOf(B)])
  {
    assert A[0] != B[0];
    assert Get([MetricOf(A), NOTED][1..], B) == Some(NOTED);
    assert Get([MetricOf(A), MetricOf(B)][1..], B) == Some(MetricOf(B));
    assert Get([MetricOf(A), NOTED], B) != Get([MetricOf(A), MetricOf(B)], B);
  }

  lemma ThreeHistories(leq: Order, x: Text, y: Text, z: Text)
    requires TotalOrder(leq) && Apart(leq, x, y, z)
    ensures
      var a, b, c := First(x), Second(y), Third(z);
      [a, c] in HistoriesOf(leq, [a, b, c]) && [b] in HistoriesOf(leq, [a, b, c])
  {
    var a, b, c := First(x), Second(y), Third(z);
    ThreeInOrder(leq, x, y, z);
    ThreeGroups(x, y, z);
    HistoriesMembers(leq, [a, b, c]);
    assert a in [a, b, c] && b in [a, b, c];
  }

  lemma ThreeUnits(x: Text, y: Text, z: Text)
    ensures Dashboard.UnitsAgree([First(x), Second(y), Third(z)])
  {
    PlainUnits([First(x), Second(y), Third(z)]);
  }

  lemma PlainUnits(bundles: seq<Bundle>)
    requires forall b :: b in bundles ==> Plain(b.catalog.metrics)
    ensures Dashboard.UnitsAgree(bundles)
  {
  }

  lemma CombinedMetrics(leq: Order, selected: seq<seq<Bundle>>)
    requires |selected| == 2
    ensures Dashboard.Combined(leq, selected).metrics ==
      Union(MetricsOf, Sorting.Sort(RunOrder(leq), Dashboard.Flat(selected)))
  {
  }

  lemma ServedInOrder(leq: Order, f: Bundle -> Bundle, a: Bundle, b: Bundle, c: Bundle)
    requires Serving.ChangesCatalogs(f) && Sorting.Sort(RunOrder(leq), [a, c, b]) == [a, b, c]
    ensures Sorting.Sort(RunOrder(leq), Dashboard.Flat([[a, c], [b]])) == [a, b, c]
    ensures Sorting.Sort(RunOrder(leq), Dashboard.Flat(Lists.Map(Serving.OnGroups(f), [[a, c], [b]]))) ==
      [f(a), f(b), f(c)]
  {
    FlatPair([a, c], [b]);
    Viewing.FlatMapOnGroups(f, [[a, c], [b]]);
    Serving.SortRunsMap(leq, f, [a, c, b]);
    assert [a, c] + [b] == [a, c, b];
    assert Lists.Map(f, [a, b, c]) == [f(a), f(b), f(c)];
  }

  lemma ThreeCombined(leq: Order, x: Text, y: Text, z: Text)
    requires TotalOrder(leq) && Apart(leq, x, y, z)
    ensures
      var a, b, c := First(x), Second(y), Third(z);
      var selected, f := [[a, c], [b]], Serving.Rewriting(leq, [a, b, c]);
      && Dashboard.Combined(leq, selected).metrics == [MetricOf(A), MetricOf(B)]
      && Dashboard.Combined(leq, Lists.Map(Serving.OnGroups(f), selected)).metrics == [MetricOf(A), NOTED]
  {
    var a, b, c := First(x), Second(y), Third(z);
    var selected, f := [[a, c], [b]], Serving.Rewriting(leq, [a, b, c]);
    ThreeInOrder(leq, x, y, z);
    ThreeRewritten(leq, x, y, z);
    ServedInOrder(leq, f, a, b, c);
    CombinedMetrics(leq, selected);
    CombinedMetrics(leq, Lists.Map(Serving.OnGroups(f), selected));
    UnionOfThree(a, b, c);
    UnionOfThree(f(a), f(b), f(c));
    Absorbed();
  }

  lemma FlatPair(g: seq<Bundle>, h: seq<Bundle>)
    ensures Dashboard.Flat([g, h]) == g + h
  {
    Lists.FlatMapStep(Dashboard.Members, [g, h], 0);
    Lists.FlatMapStep(Dashboard.Members, [g, h], 1);
    assert [g, h][..0] == [] && [g, h][..2] == [g, h] && [] + g == g;
  }
}
