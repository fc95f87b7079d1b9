/** `mergeBundles`: shards of one collection become one run. */
module Merging {
  import opened Texts
  import opened Bundles
  import opened Policies
  import Lists
  import Store

  // ---------------------------------------------------------------- what a merge is

  const RunnersOf: Bundle -> seq<Runner> := (b: Bundle) => b.runners
  const MeasurementsOf: Bundle -> seq<Measurement> := (b: Bundle) => b.measurements

  function AllRunners(shards: seq<Bundle>): seq<Runner> {
    Lists.FlatMap(RunnersOf, shards)
  }

  function AllMeasurements(shards: seq<Bundle>): seq<Measurement> {
    Lists.FlatMap(MeasurementsOf, shards)
  }

  /** The running minimum of the creation texts. */
  function Earliest(first: Text, shards: seq<Bundle>): Text {
    if shards == [] then first
    else
      var earliest, createdAt := Earliest(first, shards[..|shards| - 1]), shards[|shards| - 1].run.createdAt;
      if Less(createdAt, earliest) then createdAt else earliest
  }

  function HighestAttempt(shards: seq<Bundle>): nat {
    if shards == [] then 0
    else
      var highest, attempt := HighestAttempt(shards[..|shards| - 1]), shards[|shards| - 1].run.attempt;
      if highest < attempt then attempt else highest
  }

  /** What has to be equal in all shards. */
  function ShardDefinition(b: Bundle): Bundle {
    b.(run := b.run.(attempt := 0, createdAt := [], workflow := b.run.workflow.(url := None)), runners := [],
       measurements := [])
  }

  /** A missing pull request prints as `undefined`. */
  function ShardUrl(b: Bundle, attempt: nat): Text {
    var run := RunId(b.run.id, attempt);
    match b.run.pullRequest
    case Some(pr) => Store.WorkflowUrl(pr, run)
    case None =>
      Plain("https://github.com/undefined/actions/runs/") + run.id + Plain("/attempts/") + Decimal(run.attempt)
  }

  predicate GoodShard(first: Bundle, attempt: nat, b: Bundle) {
    && ShardDefinition(b) == ShardDefinition(first)
    && b.run.attempt <= attempt
    && (b.source == Published ==> b.run.workflow.url == Some(ShardUrl(b, b.run.attempt)))
  }

  function CollectionAttempt(shards: seq<Bundle>, attempt: Option<int>): int {
    attempt.GetOr(HighestAttempt(shards))
  }

  /** The merged run, before it is validated. */
  function Merged(shards: seq<Bundle>, attempt: nat): Bundle
    requires shards != []
  {
    var first := shards[0];
    var url := if first.source == Published then Some(ShardUrl(first, attempt)) else first.run.workflow.url;
    first.(
    run := first.run.(
    attempt := attempt,
    createdAt := Earliest(first.run.createdAt, shards),
    workflow := first.run.workflow.(url := url)),
    runners := AllRunners(shards),
    measurements := AllMeasurements(shards))
  }

  predicate SafeAttempt(attempt: int) {
    1 <= attempt <= MAX_SAFE_INTEGER
  }

  ghost predicate GoodShards(shards: seq<Bundle>, attempt: nat) {
    shards != [] && forall b :: b in shards ==> Parses(b) && GoodShard(shards[0], attempt, b)
  }

  /** When a merge succeeds. */
  ghost predicate Mergeable(shards: seq<Bundle>, attempt: Option<int>, runId: Option<Text>, policy: Policy) {
    var collection := CollectionAttempt(shards, attempt);
    && SafeAttempt(collection)
    && GoodShards(shards, collection)
    && (runId.Some? ==> shards[0].run.id == runId.value)
    && (shards[0].source == Published ==> shards[0].run.pullRequest.Some?)
    && Publishable(Merged(shards, collection), policy)
  }

  // ---------------------------------------------------------------- the computation

  lemma AppendShard(shards: seq<Bundle>, first: Text, i: nat)
    requires i < |shards|
    ensures AllRunners(shards[..i + 1]) == AllRunners(shards[..i]) + shards[i].runners
    ensures AllMeasurements(shards[..i + 1]) == AllMeasurements(shards[..i]) + shards[i].measurements
    ensures Earliest(first, shards[..i + 1]) ==
      if Less(shards[i].run.createdAt, Earliest(first, shards[..i])) then shards[i].run.createdAt
      else Earliest(first, shards[..i])
    ensures HighestAttempt(shards[..i + 1]) ==
      if HighestAttempt(shards[..i]) < shards[i].run.attempt then shards[i].run.attempt else HighestAttempt(shards[..i])
  {
    Lists.FlatMapStep(RunnersOf, shards, i);
    Lists.FlatMapStep(MeasurementsOf, shards, i);
    assert shards[..i + 1][..i] == shards[..i];
  }

  /** The run that the loop builds up. */
  function Collected(shards: seq<Bundle>, i: nat): Bundle
    requires shards != [] && i <= |shards|
  {
    shards[0].(
    run := shards[0].run.(createdAt := Earliest(shards[0].run.createdAt, shards[..i])),
    runners := AllRunners(shards[..i]),
    measurements := AllMeasurements(shards[..i]))
  }

  lemma CollectNext(shards: seq<Bundle>, i: nat)
    requires i < |shards|
    ensures
      var before, b := Collected(shards, i), shards[i];
      Collected(shards, i + 1) == before.(
        run :=
          if Less(b.run.createdAt, before.run.createdAt) then before.run.(createdAt := b.run.createdAt)
          else before.run,
        runners := before.runners + b.runners,
        measurements := before.measurements + b.measurements)
  {
    AppendShard(shards, shards[0].run.createdAt, i);
  }

  method CollectShards(shards: seq<Bundle>, collection: nat) returns (r: Result<Bundle>)
    requires shards != []
    ensures r.Ok? <==> forall b :: b in shards ==> GoodShard(shards[0], collection, b)
    ensures r.Ok? ==> r.value == Collected(shards, |shards|)
  {
    var merged := shards[0].(runners := [], measurements := []);
    for i := 0 to |shards|
      invariant merged == Collected(shards, i)
      invariant forall j :: 0 <= j < i ==> GoodShard(shards[0], collection, shards[j])
    {
      var b := shards[i];
      CollectNext(shards, i);
      assert b in shards;
      if ShardDefinition(b) != ShardDefinition(shards[0]) {
        return Err(ShardsDiffer);
      }
      if b.run.attempt > collection {
        return Err(AttemptTooHigh);
      }
      if b.source == Published && b.run.workflow.url != Some(ShardUrl(b, b.run.attempt)) {
        return Err(WorkflowDiffers);
      }
      if Less(b.run.createdAt, merged.run.createdAt) {
        merged := merged.(run := merged.run.(createdAt := b.run.createdAt));
      }
      merged := merged.(runners := merged.runners + b.runners, measurements := merged.measurements + b.measurements);
    }
    return Ok(merged);
  }

  lemma CollectedAll(shards: seq<Bundle>)
    requires shards != []
    ensures shards[..|shards|] == shards
  {
  }

  method MergeBundles(leq: Order, shards: seq<Bundle>, attempt: Option<int>, runId: Option<Text>, policy: Policy)
    returns (r: Result<Bundle>)
    requires TotalOrder(leq)
    ensures r.Ok? <==> Mergeable(shards, attempt, runId, policy)
    ensures r.Ok? ==> r.value == Merged(shards, CollectionAttempt(shards, attempt))
  {
    if shards == [] {
      return Err(NothingToMerge);
    }
    var parsed := ParseAll(shards);
    if !parsed {
      return Err(InvalidBundle);
    }
    var collection := CollectionAttempt(shards, attempt);
    if !SafeAttempt(collection) {
      return Err(InvalidAttempt);
    }
    if runId.Some? && shards[0].run.id != runId.value {
      return Err(WrongRun);
    }
    r := CollectShards(shards, collection);
    if r.Err? {
      return;
    }
    CollectedAll(shards);
    var merged := r.value.(run := r.value.run.(attempt := collection));
    if merged.source == Published {
      if merged.run.pullRequest.None? {
        return Err(MissingPullRequest);
      }
      var workflow := merged.run.workflow.(url := Some(ShardUrl(merged, collection)));
      merged := merged.(run := merged.run.(workflow := workflow));
    }
    assert merged == Merged(shards, collection);
    r := ValidatePublishableRun(leq, merged, policy);
  }

  // ---------------------------------------------------------------- nothing is lost or invented

  lemma ShardsHold(shards: seq<Bundle>)
    ensures forall r :: r in AllRunners(shards) <==> exists b :: b in shards && r in b.runners
    ensures forall m :: m in AllMeasurements(shards) <==> exists b :: b in shards && m in b.measurements
  {
    forall r
      ensures r in AllRunners(shards) <==> exists b :: b in shards && r in b.runners
    {
      Lists.FlatMapIn(RunnersOf, shards, r);
      if r in AllRunners(shards) {
        var i :| 0 <= i < |shards| && r in RunnersOf(shards[i]);
        assert shards[i] in shards;
      }
    }
    forall m
      ensures m in AllMeasurements(shards) <==> exists b :: b in shards && m in b.measurements
    {
      Lists.FlatMapIn(MeasurementsOf, shards, m);
      if m in AllMeasurements(shards) {
        var i :| 0 <= i < |shards| && m in MeasurementsOf(shards[i]);
        assert shards[i] in shards;
      }
    }
  }

  lemma DistinctParts(a: seq<Measurement>, b: seq<Measurement>, m: Measurement, n: Measurement)
    requires Lists.DistinctBy(MeasurementId, a + b)
    ensures Lists.DistinctBy(MeasurementId, a) && Lists.DistinctBy(MeasurementId, b)
    ensures m in a && n in b ==> m.id != n.id
  {
    var all := a + b;
    assert forall k :: 0 <= k < |a| ==> all[k] == a[k];
    assert forall k :: 0 <= k < |b| ==> all[|a| + k] == b[k];
    if m in a && n in b {
      var k :| 0 <= k < |a| && a[k] == m;
      var l :| 0 <= l < |b| && b[l] == n;
      assert MeasurementId(all[k]) != MeasurementId(all[|a| + l]);
    }
  }

  /** Distinct measurement identifiers in the merged run keep the shards apart. */
  lemma {:induction false} ShardsApart(shards: seq<Bundle>, i: nat, j: nat, m: Measurement, n: Measurement)
    requires Lists.DistinctBy(MeasurementId, AllMeasurements(shards))
    requires i < |shards| && j < |shards| && m in shards[i].measurements && n in shards[j].measurements
    requires m.id == n.id
    ensures i == j && m == n
  {
    var front, last := shards[..|shards| - 1], shards[|shards| - 1];
    ShardsHold(front);
    DistinctParts(AllMeasurements(front), last.measurements, m, n);
    DistinctParts(AllMeasurements(front), last.measurements, n, m);
    assert i < |front| ==> front[i] in front && m in front[i].measurements;
    assert j < |front| ==> front[j] in front && n in front[j].measurements;
    if i < |front| && j < |front| {
      ShardsApart(front, i, j, m, n);
    } else if i == |front| && j == |front| {
      Lists.DistinctByMeans(MeasurementId, last.measurements);
      assert MeasurementId(m) == MeasurementId(n);
    }
  }

  lemma FindDistinct(runners: seq<Runner>, r: Runner)
    requires Lists.DistinctBy(RunnerId, runners) && r in runners
    ensures FindRunner(runners, r.id) == Some(r)
  {
  }

  /** A measurement is about the same configuration in its shard and in the merged run. */
  lemma SameCell(shards: seq<Bundle>, b: Bundle, m: Measurement)
    requires Lists.DistinctBy(RunnerId, AllRunners(shards)) && b in shards && MeasuredCell(b.runners, m).Some?
    ensures MeasuredCell(AllRunners(shards), m) == MeasuredCell(b.runners, m)
  {
    FindRunnerFinds(b.runners, m.runnerId);
    ShardsHold(shards);
    FindDistinct(AllRunners(shards), FindRunner(b.runners, m.runnerId).value);
  }

  ghost predicate ShardMeasures(shards: seq<Bundle>, i: nat, m: Measurement, c: Configuration) {
    && i < |shards| && m in shards[i].measurements
    && MeasuredCell(shards[i].runners, m) == Some(CellOf(c))
  }

  lemma ShardMeasuresMeans(shards: seq<Bundle>, attempt: nat, i: nat, m: Measurement, c: Configuration)
    requires GoodShards(shards, attempt) && Parses(Merged(shards, attempt))
    requires c in shards[0].benchmark.expectedConfigurations
    requires ShardMeasures(shards, i, m, c)
    ensures Measures(Merged(shards, attempt), m, c)
  {
    ShardsHold(shards);
    assert shards[i] in shards;
    SameCell(shards, shards[i], m);
  }

  lemma MeasuredBySomeShard(shards: seq<Bundle>, attempt: nat, m: Measurement, c: Configuration)
    requires GoodShards(shards, attempt) && Parses(Merged(shards, attempt)) && Measures(Merged(shards, attempt), m, c)
    ensures exists i :: ShardMeasures(shards, i, m, c)
  {
    ShardsHold(shards);
    var b :| b in shards && m in b.measurements;
    var i :| 0 <= i < |shards| && shards[i] == b;
    assert GoodMeasurement(b, m);
    SameCell(shards, b, m);
    assert ShardMeasures(shards, i, m, c);
  }

  ghost predicate CoveredOnce(shards: seq<Bundle>, c: Configuration) {
    && (exists i, m :: ShardMeasures(shards, i, m, c) && m.outcome.Success?)
    && forall i, j, m, n :: ShardMeasures(shards, i, m, c) && ShardMeasures(shards, j, n, c) ==> i == j && m == n
  }

  /** Whenever a merge succeeds, every expected configuration comes from exactly one measurement of
      exactly one shard, which succeeded, and every measurement of a shard is in the result. */
  lemma MergeCoversOnce(shards: seq<Bundle>, attempt: Option<int>, runId: Option<Text>, policy: Policy)
    requires Mergeable(shards, attempt, runId, policy)
    ensures forall c :: c in shards[0].benchmark.expectedConfigurations ==> CoveredOnce(shards, c)
    ensures
      var merged := Merged(shards, CollectionAttempt(shards, attempt));
      && (forall m :: m in merged.measurements <==> exists b :: b in shards && m in b.measurements)
      && (forall r :: r in merged.runners <==> exists b :: b in shards && r in b.runners)
  {
    var collection := CollectionAttempt(shards, attempt);
    var merged := Merged(shards, collection);
    ShardsHold(shards);
    forall c | c in shards[0].benchmark.expectedConfigurations
      ensures CoveredOnce(shards, c)
    {
      CoverOne(shards, collection, c);
    }
  }

  lemma CoverOne(shards: seq<Bundle>, attempt: nat, c: Configuration)
    requires GoodShards(shards, attempt) && Complete(Merged(shards, attempt))
    requires c in shards[0].benchmark.expectedConfigurations
    ensures CoveredOnce(shards, c)
  {
    var merged := Merged(shards, attempt);
    assert Succeeded(merged, CellOf(c));
    var m :| m in merged.measurements && m.outcome.Success? && MeasuredCell(merged.runners, m) == Some(CellOf(c));
    assert Measures(merged, m, c);
    MeasuredBySomeShard(shards, attempt, m, c);
    ValidMeasurementsMatchOnce(merged);
    forall i, j, m, n | ShardMeasures(shards, i, m, c) && ShardMeasures(shards, j, n, c)
      ensures i == j && m == n
    {
      ShardMeasuresMeans(shards, attempt, i, m, c);
      ShardMeasuresMeans(shards, attempt, j, n, c);
      ShardsApart(shards, i, j, m, n);
    }
  }
}
