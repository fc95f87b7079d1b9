/** The order of the shards does not matter to a merge, and merging undoes splitting. */
module MergeOrder {
  import opened Texts
  import opened Bundles
  import opened Policies
  import opened Merging
  import Lists
  import Store

  // ---------------------------------------------------------------- reordered runs

  /** The same run with its runners and measurements in another order. */
  ghost predicate Reordered(a: Bundle, b: Bundle) {
    && b == a.(runners := b.runners, measurements := b.measurements)
    && multiset(a.runners) == multiset(b.runners)
    && multiset(a.measurements) == multiset(b.measurements)
  }

  lemma SameRunnerFound(runners: seq<Runner>, others: seq<Runner>, id: Text)
    requires Lists.DistinctBy(RunnerId, runners) && multiset(runners) == multiset(others)
    ensures FindRunner(others, id) == FindRunner(runners, id)
  {
    Lists.SameElements(runners, others);
    Lists.DistinctByPermuted(RunnerId, runners, others);
    FindRunnerFinds(runners, id);
    FindRunnerFinds(others, id);
    var found := FindRunner(runners, id);
    if found.Some? {
      FindDistinct(others, found.value);
    }
  }

  lemma ReorderedCells(a: Bundle, b: Bundle)
    requires Reordered(a, b) && GoodRunners(a)
    ensures forall m :: MeasuredCell(b.runners, m) == MeasuredCell(a.runners, m)
  {
    forall m: Measurement
      ensures MeasuredCell(b.runners, m) == MeasuredCell(a.runners, m)
    {
      SameRunnerFound(a.runners, b.runners, m.runnerId);
    }
  }

  lemma ReorderedRunners(a: Bundle, b: Bundle)
    requires Reordered(a, b) && GoodRunners(a)
    ensures GoodRunners(b)
  {
    Lists.SameElements(a.runners, b.runners);
    Lists.DistinctByPermuted(RunnerId, a.runners, b.runners);
    forall r | r in b.runners
      ensures GoodRunner(b, r)
    {
      assert GoodRunner(a, r);
    }
  }

  lemma ReorderedMeasurements(a: Bundle, b: Bundle)
    requires Reordered(a, b) && GoodRunners(a) && GoodMeasurements(a)
    ensures GoodMeasurements(b)
  {
    Lists.SameElements(a.measurements, b.measurements);
    Lists.DistinctByPermuted(MeasurementId, a.measurements, b.measurements);
    Lists.DistinctByPermuted(CellIn(a.runners), a.measurements, b.measurements);
    ReorderedCells(a, b);
    forall m | m in b.measurements
      ensures GoodMeasurement(b, m)
    {
      assert GoodMeasurement(a, m);
      var cell := MeasuredCell(a.runners, m).value;
      var c :| c in a.benchmark.expectedConfigurations && CellOf(c) == cell;
      assert ExpectedCell(b, cell);
    }
    forall i, j | 0 <= i < j < |b.measurements|
      ensures CellIn(b.runners)(b.measurements[i]) != CellIn(b.runners)(b.measurements[j])
    {
      assert CellIn(a.runners)(b.measurements[i]) != CellIn(a.runners)(b.measurements[j]);
    }
  }

  lemma ReorderedParses(a: Bundle, b: Bundle)
    requires Reordered(a, b) && Parses(a)
    ensures Parses(b)
  {
    Lists.SameElements(a.runners, b.runners);
    Lists.SameElements(a.measurements, b.measurements);
    ReorderedRunners(a, b);
    ReorderedMeasurements(a, b);
    assert GoodDefinitions(b);
  }

  lemma ReorderedComplete(a: Bundle, b: Bundle)
    requires Reordered(a, b) && Complete(a)
    ensures Complete(b)
  {
    ReorderedParses(a, b);
    ReorderedCells(a, b);
    Lists.SameElements(a.measurements, b.measurements);
    forall c | c in b.benchmark.expectedConfigurations
      ensures Succeeded(b, CellOf(c))
    {
      assert Succeeded(a, CellOf(c));
      var m :| m in a.measurements && m.outcome.Success? && MeasuredCell(a.runners, m) == Some(CellOf(c));
      assert m in b.measurements;
    }
  }

  lemma ReorderedPublishable(a: Bundle, b: Bundle, policy: Policy)
    requires Reordered(a, b) && Publishable(a, policy)
    ensures Publishable(b, policy)
  {
    ReorderedComplete(a, b);
    Lists.SameElements(a.runners, b.runners);
  }

  // ---------------------------------------------------------------- reordered shards

  /** The minimum by code units of the creation texts. */
  lemma {:induction false} EarliestMeans(first: Text, shards: seq<Bundle>)
    ensures !Less(first, Earliest(first, shards))
    ensures forall b :: b in shards ==> !Less(b.run.createdAt, Earliest(first, shards))
    ensures Earliest(first, shards) == first || exists b :: b in shards && b.run.createdAt == Earliest(first, shards)
  {
    LessTrichotomy(first, first);
    if shards != [] {
      var front, last := shards[..|shards| - 1], shards[|shards| - 1];
      assert shards == front + [last];
      EarliestMeans(first, front);
      var before, after := Earliest(first, front), Earliest(first, shards);
      LessTrichotomy(after, last.run.createdAt);
      forall t | !Less(t, before)
        ensures !Less(t, after)
      {
        if Less(t, after) && Less(after, before) {
          LessTransitive(t, after, before);
        }
      }
      if after == last.run.createdAt {
        assert last in shards;
      } else if before != first {
        var b :| b in front && b.run.createdAt == before;
        assert b in shards;
      }
    }
  }

  lemma {:induction false} HighestBounds(shards: seq<Bundle>)
    ensures forall i :: 0 <= i < |shards| ==> shards[i].run.attempt <= HighestAttempt(shards)
  {
    if shards != [] {
      HighestBounds(shards[..|shards| - 1]);
    }
  }

  lemma {:induction false} HighestReached(shards: seq<Bundle>) returns (i: nat)
    requires shards != []
    ensures i < |shards| && shards[i].run.attempt == HighestAttempt(shards)
  {
    i := |shards| - 1;
    if shards[i].run.attempt != HighestAttempt(shards) && i > 0 {
      i := HighestReached(shards[..i]);
    }
  }

  lemma HighestMeans(shards: seq<Bundle>)
    ensures forall b :: b in shards ==> b.run.attempt <= HighestAttempt(shards)
    ensures shards != [] ==> exists b :: b in shards && b.run.attempt == HighestAttempt(shards)
  {
    HighestBounds(shards);
    if shards != [] {
      var i := HighestReached(shards);
      assert shards[i] in shards;
    }
  }

  lemma SameExtremes(shards: seq<Bundle>, others: seq<Bundle>)
    requires multiset(shards) == multiset(others) && shards != [] && others != []
    ensures Earliest(shards[0].run.createdAt, shards) == Earliest(others[0].run.createdAt, others)
    ensures HighestAttempt(shards) == HighestAttempt(others)
  {
    Lists.SameElements(shards, others);
    HighestMeans(shards);
    HighestMeans(others);
    EarliestMeans(shards[0].run.createdAt, shards);
    EarliestMeans(others[0].run.createdAt, others);
    assert shards[0] in shards && others[0] in others;
    LessTrichotomy(Earliest(shards[0].run.createdAt, shards), Earliest(others[0].run.createdAt, others));
  }

  lemma GoodShardsPermuted(shards: seq<Bundle>, others: seq<Bundle>, attempt: nat)
    requires multiset(shards) == multiset(others) && GoodShards(shards, attempt)
    ensures GoodShards(others, attempt)
  {
    Lists.SameElements(shards, others);
    assert others[0] in shards;
    assert GoodShard(shards[0], attempt, others[0]);
  }

  /** Shards that can be merged differ only in attempt, creation text, workflow link, runners and
      measurements. */
  lemma ShardDefinitionMeans(a: Bundle, b: Bundle)
    ensures ShardDefinition(a) == ShardDefinition(b) <==>
      b == a.(
        run := a.run.(attempt := b.run.attempt, createdAt := b.run.createdAt,
                      workflow := a.run.workflow.(url := b.run.workflow.url)),
        runners := b.runners,
        measurements := b.measurements)
  {
  }

  lemma MergedReordered(shards: seq<Bundle>, others: seq<Bundle>, attempt: nat)
    requires multiset(shards) == multiset(others) && GoodShards(shards, attempt) && shards[0].source == Published
    ensures others != [] && Reordered(Merged(shards, attempt), Merged(others, attempt))
  {
    Lists.SameElements(shards, others);
    Lists.FlatMapPermuted(RunnersOf, shards, others);
    Lists.FlatMapPermuted(MeasurementsOf, shards, others);
    SameExtremes(shards, others);
    assert GoodShard(shards[0], attempt, others[0]);
    ShardDefinitionMeans(shards[0], others[0]);
  }

  /** Whenever a merge succeeds, it succeeds for the shards in any order, with the same attempt, the same
      creation text (the earliest of all) and the same runners and measurements up to order. */
  lemma MergeIgnoresOrder(shards: seq<Bundle>, others: seq<Bundle>, attempt: Option<int>, runId: Option<Text>,
                          policy: Policy)
    requires multiset(shards) == multiset(others) && Mergeable(shards, attempt, runId, policy)
    ensures Mergeable(others, attempt, runId, policy)
    ensures CollectionAttempt(others, attempt) == CollectionAttempt(shards, attempt)
    ensures Reordered(Merged(shards, CollectionAttempt(shards, attempt)),
                      Merged(others, CollectionAttempt(others, attempt)))
  {
    var collection := CollectionAttempt(shards, attempt);
    GoodShardsPermuted(shards, others, collection);
    SameExtremes(shards, others);
    MergedReordered(shards, others, collection);
    ReorderedPublishable(Merged(shards, collection), Merged(others, collection), policy);
  }

  /** The attempt of a merged run is the given one, or the highest of the shards if none is given. */
  ghost predicate AttemptOf(shards: seq<Bundle>, attempt: Option<int>, merged: Bundle) {
    && (forall b :: b in shards ==> b.run.attempt <= merged.run.attempt)
    && match attempt
       case Some(n) => merged.run.attempt == n
       case None => exists b :: b in shards && b.run.attempt == merged.run.attempt
  }

  /** What all shards share, the merged run has too. */
  ghost predicate SharedBy(b: Bundle, merged: Bundle) {
    && merged.source == b.source && merged.catalog == b.catalog && merged.benchmark == b.benchmark
    && merged.run.id == b.run.id && merged.run.commit == b.run.commit && merged.run.pullRequest == b.run.pullRequest
    && merged.run.workflow.name == b.run.workflow.name
  }

  /** A merge that succeeds has the attempt it was asked for and the workflow link of that attempt, which no
      shard exceeds, and everything that its shards share. */
  lemma MergedIdentity(shards: seq<Bundle>, attempt: Option<int>, runId: Option<Text>, policy: Policy)
    requires Mergeable(shards, attempt, runId, policy)
    ensures
      var merged := Merged(shards, CollectionAttempt(shards, attempt));
      && AttemptOf(shards, attempt, merged)
      && (runId.Some? ==> merged.run.id == runId.value)
      && merged.run.pullRequest.Some?
      && merged.run.workflow.url ==
        Some(Store.WorkflowUrl(merged.run.pullRequest.value, RunId(merged.run.id, merged.run.attempt)))
      && forall b :: b in shards ==>
        && SharedBy(b, merged)
        && b.run.workflow.url == Some(Store.WorkflowUrl(merged.run.pullRequest.value, RunIdOf(b)))
  {
    HighestMeans(shards);
    forall b | b in shards
      ensures SharedBy(b, Merged(shards, CollectionAttempt(shards, attempt)))
    {
      ShardDefinitionMeans(b, shards[0]);
    }
  }

  /** The creation text of the merged run is the earliest of its shards. */
  lemma MergedCreation(shards: seq<Bundle>, attempt: nat)
    requires shards != []
    ensures exists b :: b in shards && b.run.createdAt == Merged(shards, attempt).run.createdAt
    ensures forall b :: b in shards ==> AtMost(Merged(shards, attempt).run.createdAt, b.run.createdAt)
  {
    EarliestMeans(shards[0].run.createdAt, shards);
    assert shards[0] in shards;
  }

  // ---------------------------------------------------------------- splitting

  /** Shards that divide a run between them, each with the runners of its measurements. */
  ghost predicate Splits(b: Bundle, shards: seq<Bundle>) {
    && shards != []
    && AllRunners(shards) == b.runners && AllMeasurements(shards) == b.measurements
    && forall s :: s in shards ==>
      && s == b.(runners := s.runners, measurements := s.measurements)
      && s.runners != []
      && forall m :: m in s.measurements ==> FindRunner(s.runners, m.runnerId).Some?
  }

  lemma ShardWellTyped(b: Bundle, shards: seq<Bundle>, s: Bundle)
    requires Splits(b, shards) && s in shards && WellTyped(b)
    ensures WellTyped(s)
  {
    ShardsHold(shards);
    assert forall r :: r in s.runners ==> r in b.runners;
    assert forall m :: m in s.measurements ==> m in b.measurements;
  }

  lemma ShardRunners(b: Bundle, shards: seq<Bundle>, s: Bundle)
    requires Splits(b, shards) && s in shards && GoodRunners(b)
    ensures GoodRunners(s)
  {
    ShardsHold(shards);
    var i :| 0 <= i < |shards| && shards[i] == s;
    Lists.FlatMapDistinct(RunnersOf, RunnerId, shards, i);
    forall r | r in s.runners
      ensures GoodRunner(s, r)
    {
      assert r in b.runners && GoodRunner(b, r);
    }
  }

  lemma ShardMeasurements(b: Bundle, shards: seq<Bundle>, s: Bundle)
    requires Splits(b, shards) && s in shards && GoodRunners(b) && GoodMeasurements(b)
    ensures GoodMeasurements(s)
  {
    ShardsHold(shards);
    var i :| 0 <= i < |shards| && shards[i] == s;
    Lists.FlatMapDistinct(MeasurementsOf, MeasurementId, shards, i);
    Lists.FlatMapDistinct(MeasurementsOf, CellIn(b.runners), shards, i);
    forall m | m in s.measurements
      ensures MeasuredCell(s.runners, m) == MeasuredCell(b.runners, m)
      ensures GoodMeasurement(s, m)
    {
      SameCell(shards, s, m);
      assert m in b.measurements && GoodMeasurement(b, m);
      assert ExpectedCell(s, MeasuredCell(s.runners, m).value);
    }
    forall j, k | 0 <= j < k < |s.measurements|
      ensures CellIn(s.runners)(s.measurements[j]) != CellIn(s.runners)(s.measurements[k])
    {
      assert CellIn(b.runners)(s.measurements[j]) != CellIn(b.runners)(s.measurements[k]);
    }
  }

  lemma ShardsParse(b: Bundle, shards: seq<Bundle>)
    requires Splits(b, shards) && Parses(b)
    ensures forall s :: s in shards ==> Parses(s)
  {
    forall s | s in shards
      ensures Parses(s)
    {
      ShardWellTyped(b, shards, s);
      ShardRunners(b, shards, s);
      ShardMeasurements(b, shards, s);
      assert GoodDefinitions(s);
    }
  }

  lemma SplitMerged(b: Bundle, shards: seq<Bundle>)
    requires Splits(b, shards) && b.source == Published
    requires b.run.workflow.url == Some(ShardUrl(b, b.run.attempt))
    ensures HighestAttempt(shards) == b.run.attempt && Merged(shards, b.run.attempt) == b
    ensures forall s :: s in shards ==> GoodShard(shards[0], b.run.attempt, s)
  {
    HighestMeans(shards);
    EarliestMeans(shards[0].run.createdAt, shards);
    assert shards[0] in shards;
  }

  /** A run at another attempt, with the link of that attempt. */
  function AtAttempt(b: Bundle, attempt: nat): Bundle {
    b.(run := b.run.(attempt := attempt, workflow := b.run.workflow.(url := Some(ShardUrl(b, attempt)))))
  }

  /** Merging undoes splitting: a publishable run, however it is divided, merges into itself. With a given
      attempt, which must not be lower, it merges into itself at that attempt. */
  lemma MergeUndoesSplitting(b: Bundle, shards: seq<Bundle>, attempt: Option<int>, runId: Option<Text>, policy: Policy)
    requires Publishable(b, policy) && Splits(b, shards) && b.run.pullRequest.Some?
    requires b.run.workflow.url == Some(ShardUrl(b, b.run.attempt))
    requires attempt.Some? ==> b.run.attempt <= attempt.value && SafeAttempt(attempt.value)
    requires runId.Some? ==> runId.value == b.run.id
    ensures Mergeable(shards, attempt, runId, policy)
    ensures Merged(shards, CollectionAttempt(shards, attempt)) ==
      if attempt.Some? then AtAttempt(b, attempt.value) else b
  {
    ShardsParse(b, shards);
    SplitMerged(b, shards);
    assert shards[0] in shards;
    if attempt.Some? {
      AtAttemptPublishable(b, attempt.value, policy);
    }
  }

  lemma AtAttemptPublishable(b: Bundle, attempt: nat, policy: Policy)
    requires Publishable(b, policy) && SafeAttempt(attempt)
    ensures Publishable(AtAttempt(b, attempt), policy)
  {
    var after := AtAttempt(b, attempt);
    forall c | c in after.benchmark.expectedConfigurations
      ensures Succeeded(after, CellOf(c))
    {
      assert Succeeded(b, CellOf(c));
    }
  }
}
