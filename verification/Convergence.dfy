/** Interrupted promotions converge. */
module Convergence {
  import opened Texts
  import opened Bundles
  import opened Policies
  import opened Histories
  import opened Grouping
  import opened Store
  import opened Promotion
  import opened Protocol
  import opened Recovery
  import Lists
  import Sorting

  // Promotions may crash anywhere, be retried any number of times and overlap with any other jobs: what is
  // left in the end is what uninterrupted promotions leave.

  // ---------------------------------------------------------------- uninterrupted promotions

  ghost function PromotedAll(leq: Order, files: Files, ps: seq<Publication>): Files
    decreases |ps|
  {
    if ps == [] then files else PromotedAll(leq, Promoted(leq, files, ps[0]), ps[1..])
  }

  /** What `CanPromote` asks, apart from the policy. */
  ghost predicate Admits(files: Files, p: Publication) {
    && IndexAllows(files, p)
    && Readable(files, p.entry.run) && Vouches(files.runs[p.entry.run], p)
  }

  /** Each promotion is possible when its turn comes. */
  ghost predicate PossibleInTurn(leq: Order, files: Files, ps: seq<Publication>)
    decreases |ps|
  {
    ps != [] ==> Admits(files, ps[0]) && PossibleInTurn(leq, Promoted(leq, files, ps[0]), ps[1..])
  }

  ghost predicate IndexSorted(leq: Order, files: Files) {
    Sorting.Sorted(EntryOrder(leq), IndexOf(files))
  }

  /** One store is a part of another that has the same run files. */
  ghost predicate Within(f: Files, g: Files) {
    f.runs == g.runs && Grows(f, g)
  }

  /** The publication has its record and its index entry. */
  ghost predicate IsPublished(files: Files, p: Publication) {
    PublishedAs(files, p) && p.entry in IndexOf(files)
  }

  /** One store holds what the other holds and these publications, all of them complete. */
  ghost predicate AddsOnly(f: Files, g: Files, ps: seq<Publication>) {
    && (forall p :: p in ps ==> IsPublished(g, p))
    && (forall n :: n in g.publications ==> n in f.publications || g.publications[n] in ps)
    && (forall e :: e in IndexOf(g) ==> e in IndexOf(f) || exists p :: p in ps && p.entry == e)
  }

  ghost predicate EntriesBacked(files: Files) {
    forall e :: e in IndexOf(files) ==> Backed(files, e)
  }

  /** The record of an indexed run is the one for its pull request. */
  lemma EntryRecorded(files: Files, p: Publication)
    requires EntriesBacked(files) && Included(IndexOf(files), p.entry.run)
    requires p.entry.run in files.runs && Vouches(files.runs[p.entry.run], p)
    ensures p.pullRequest.number in files.publications
    ensures files.publications[p.pullRequest.number].entry.run == p.entry.run
    ensures files.publications[p.pullRequest.number].entry in IndexOf(files)
  {
    var i :| 0 <= i < |IndexOf(files)| && IndexOf(files)[i].run == p.entry.run;
    assert IndexOf(files)[i] in IndexOf(files);
    assert Backed(files, IndexOf(files)[i]);
  }

  lemma PublishedVouched(files: Files, p: Publication)
    requires PublicationsFiled(files) && PublishedAs(files, p)
    ensures p.entry.run in files.runs && Vouches(files.runs[p.entry.run], p)
  {
  }

  lemma RecordsWithin(f: Files, g: Files, p: Publication)
    requires Within(f, g) && PublishedAs(g, p)
    ensures RecordFree(f, p) && (p.pullRequest.number in f.publications ==> PublishedAs(f, p))
  {
  }

  lemma NextWithin(f: Files, g: Files, p: Publication)
    requires DistinctEntries(IndexOf(f)) && Within(f, g) && p.entry in IndexOf(g)
    ensures DistinctEntries(NextEntries(IndexOf(f), p))
    ensures forall e :: e in NextEntries(IndexOf(f), p) ==> e in IndexOf(g)
  {
    NextEntriesMeans(IndexOf(f), p);
  }

  lemma NextAcceptable(f: Files, g: Files, p: Publication)
    requires DistinctEntries(IndexOf(f)) && Within(f, g) && p.entry in IndexOf(g) && AcceptableIndex(g, IndexOf(g))
    ensures AcceptableIndex(f, NextEntries(IndexOf(f), p))
  {
    NextWithin(f, g, p);
    var next := NextEntries(IndexOf(f), p);
    AcceptableIndexPart(g, IndexOf(g), next);
    SameRunsAcceptable(f, g, next);
  }

  lemma IndexAllowsWithin(f: Files, g: Files, p: Publication)
    requires EntriesBacked(f) && DistinctEntries(IndexOf(f)) && AllReadable(f, IndexOf(f))
    requires RecordFree(f, p) && (p.pullRequest.number in f.publications ==> PublishedAs(f, p))
    requires p.entry.run in f.runs && Vouches(f.runs[p.entry.run], p)
    requires AcceptableIndex(f, NextEntries(IndexOf(f), p))
    ensures IndexAllows(f, p)
  {
    if Included(IndexOf(f), p.entry.run) {
      EntryRecorded(f, p);
    }
  }

  lemma AdmitsWithin(f: Files, g: Files, p: Publication)
    requires Intact(f) && Intact(g) && Within(f, g) && IsPublished(g, p)
    ensures Admits(f, p)
  {
    RecordsWithin(f, g, p);
    PublishedVouched(g, p);
    NextAcceptable(f, g, p);
    IndexAllowsWithin(f, g, p);
  }

  lemma PromotedSorted(leq: Order, f: Files, p: Publication)
    requires TotalOrder(leq)
    ensures IndexSorted(leq, Promoted(leq, f, p))
  {
    Sorting.SortSorted(EntryOrder(leq), NextEntries(IndexOf(f), p));
  }

  lemma EntryPlanned(files: Files, p: Publication)
    requires EntriesBacked(files) && DistinctEntries(IndexOf(files))
    requires p.entry.run in files.runs && Vouches(files.runs[p.entry.run], p) && RecordFree(files, p)
    ensures p.entry in NextEntries(IndexOf(files), p)
  {
    var next := NextEntries(IndexOf(files), p);
    if Included(IndexOf(files), p.entry.run) {
      EntryRecorded(files, p);
    } else {
      assert next[|next| - 1] == p.entry;
    }
  }

  lemma IndexWithin(leq: Order, f: Files, g: Files, p: Publication)
    requires TotalOrder(leq) && DistinctEntries(IndexOf(f)) && Within(f, g) && IsPublished(g, p)
    requires p.entry in NextEntries(IndexOf(f), p)
    ensures Within(Promoted(leq, f, p), g) && IsPublished(Promoted(leq, f, p), p)
  {
    NextWithin(f, g, p);
    SortedIndex(leq, f, p);
  }

  lemma PromotedWithin(leq: Order, f: Files, g: Files, p: Publication)
    requires TotalOrder(leq) && Intact(f) && Intact(g) && Within(f, g) && IsPublished(g, p)
    ensures Intact(Promoted(leq, f, p)) && Within(Promoted(leq, f, p), g)
    ensures Grows(f, Promoted(leq, f, p)) && IsPublished(Promoted(leq, f, p), p)
  {
    AdmitsWithin(f, g, p);
    EntryPlanned(f, p);
    IndexBackedAfter(leq, f, p);
    PublicationsFiledAfter(leq, f, p);
    GrowsAfter(leq, f, p);
    IndexWithin(leq, f, g, p);
  }

  lemma SameSorted(leq: Order, f: Files, g: Files)
    requires TotalOrder(leq) && DistinctEntries(IndexOf(f)) && DistinctEntries(IndexOf(g)) && Within(f, g)
    requires IndexSorted(leq, f) && IndexSorted(leq, g) && AddsOnly(f, g, [])
    ensures f.publications == g.publications && IndexOf(f) == IndexOf(g)
  {
    Lists.SameSetPermuted(EntryRun, IndexOf(f), IndexOf(g));
    EntriesSeparated(leq, IndexOf(f));
    Sorting.SortedUnique(EntryOrder(leq), IndexOf(f), IndexOf(g));
  }

  lemma EntriesSeparated(leq: Order, runs: seq<IndexEntry>)
    requires TotalOrder(leq) && DistinctEntries(runs)
    ensures Sorting.Sorts(EntryOrder(leq)) && Sorting.Separates(EntryOrder(leq), runs)
  {
    Lists.DistinctByMeans(EntryRun, runs);
  }

  lemma AddsRest(leq: Order, f: Files, g: Files, ps: seq<Publication>)
    requires ps != [] && AddsOnly(f, g, ps) && PublicationsFiled(g)
    requires Grows(f, Promoted(leq, f, ps[0])) && IsPublished(Promoted(leq, f, ps[0]), ps[0])
    ensures AddsOnly(Promoted(leq, f, ps[0]), g, ps[1..])
  {
    assert forall q :: q in ps <==> q == ps[0] || q in ps[1..];
  }

  /** Promotions that one store has beyond another can be made in any order, one after another, and lead
      from the one to the other. */
  lemma {:induction false} SameTogether(leq: Order, f: Files, g: Files, ps: seq<Publication>)
    requires TotalOrder(leq) && Intact(f) && Intact(g) && Within(f, g) && AddsOnly(f, g, ps)
    requires IndexSorted(leq, g) && (ps == [] ==> IndexSorted(leq, f))
    ensures PossibleInTurn(leq, f, ps)
    ensures
      var all := PromotedAll(leq, f, ps);
      all.runs == g.runs && all.publications == g.publications && IndexOf(all) == IndexOf(g)
    decreases |ps|
  {
    if ps == [] {
      SameSorted(leq, f, g);
    } else {
      var p, next := ps[0], Promoted(leq, f, ps[0]);
      assert p in ps;
      AdmitsWithin(f, g, p);
      PromotedWithin(leq, f, g, p);
      PromotedSorted(leq, f, p);
      AddsRest(leq, f, g, ps);
      SameTogether(leq, next, g, ps[1..]);
    }
  }

  // ---------------------------------------------------------------- runs of the protocol

  /** What an attempt installs: its record if there is none, or the index it planned. */
  lemma InstallOfAttempt(leq: Order, s: State, pid: Pid)
    requires Ready(leq, s, pid)
    requires s.processes[pid].phase.Writing? && s.processes[pid].phase.stage.Install?
    requires s.processes[pid].job.PromoteJob?
    ensures
      var p, after := s.processes[pid].job.publication, InstallStep(s, pid, s.processes[pid].phase);
      if s.processes[pid].phase.next.Release? then
        PublishedAs(s.files, p) && after.files == Write(s.files, IndexDocument(NextIndex(leq, s.files, p)))
      else
        after.files ==
        if p.pullRequest.number in s.files.publications then s.files else Write(s.files, PublicationDocument(p))
  {
  }

  predicate HasSucceeded(phase: Phase) {
    || phase.Done?
    || (phase.Unlocking? && phase.ok)
    || (phase.Writing? && phase.next.Release? && phase.stage.Remove? && phase.stage.ok)
  }

  /** A promotion that has succeeded is published, in an index that has been sorted. */
  ghost predicate Finished(leq: Order, files: Files, process: Process) {
    process.job.PromoteJob? && HasSucceeded(process.phase) ==>
      IsPublished(files, process.job.publication) && IndexSorted(leq, files)
  }

  predicate Promotes(process: Process, p: Publication) {
    process.job.PromoteJob? && process.job.publication == p
  }

  ghost predicate Attempted(s: State, p: Publication) {
    exists pid :: pid in s.processes && Promotes(s.processes[pid], p)
  }

  ghost predicate EntryAttempted(s: State, e: IndexEntry) {
    exists pid :: pid in s.processes && s.processes[pid].job.PromoteJob? && s.processes[pid].job.publication.entry == e
  }

  /** Whatever a run has added to the publications and the index was added by its promotions. */
  ghost predicate Tracked(leq: Order, start: Files, s: State) {
    && (forall pid :: pid in s.processes ==> Finished(leq, s.files, s.processes[pid]))
    && (forall n :: n in s.files.publications ==> n in start.publications || Attempted(s, s.files.publications[n]))
    && (forall e :: e in IndexOf(s.files) ==> e in IndexOf(start) || EntryAttempted(s, e))
  }

  /** How one step changes publications and index. */
  ghost predicate Moves(leq: Order, before: Files, after: Files, process: Process) {
    || (after.publications == before.publications && IndexOf(after) == IndexOf(before))
    || (process.job.PromoteJob? && process.phase.Writing? && process.phase.stage.Install? &&
        var p := process.job.publication;
        || (after.publications == before.publications[p.pullRequest.number := p] && IndexOf(after) == IndexOf(before)
            && !process.phase.next.Release?)
        || (after.publications == before.publications && PublishedAs(before, p)
            && IndexOf(after) == NextIndex(leq, before, p)))
  }

  lemma OtherWrites(leq: Order, files: Files, job: Job, phase: Phase)
    requires !job.PromoteJob? && phase.Writing? && WriteKnows(leq, files, job, phase)
    ensures !phase.document.PublicationDocument?
    ensures phase.document.IndexDocument? ==> phase.document.runs == [] && phase.immutable
  {
  }

  lemma OtherInstallMoves(s: State, pid: Pid)
    requires pid in s.processes && Prepared(s, pid)
    requires s.processes[pid].phase.Writing? && s.processes[pid].phase.stage.Install?
    requires !s.processes[pid].phase.document.PublicationDocument?
    requires s.processes[pid].phase.document.IndexDocument? ==>
      s.processes[pid].phase.document.runs == [] && s.processes[pid].phase.immutable
    ensures
      var after := InstallStep(s, pid, s.processes[pid].phase);
      after.files.publications == s.files.publications && IndexOf(after.files) == IndexOf(s.files)
  {
  }

  lemma StepMoves(leq: Order, s: State, pid: Pid, nonce: nat)
    requires Ready(leq, s, pid)
    ensures Moves(leq, s.files, Step(leq, s, pid, nonce).files, s.processes[pid])
  {
    var phase := s.processes[pid].phase;
    StepFrame(leq, s, pid, nonce);
    if phase.Writing? && phase.stage.Install? {
      if s.processes[pid].job.PromoteJob? {
        InstallOfAttempt(leq, s, pid);
      } else {
        OtherWrites(leq, s.files, s.processes[pid].job, phase);
        OtherInstallMoves(s, pid);
      }
    }
  }

  lemma AttemptWritesUnderLock(leq: Order, s: State, pid: Pid)
    requires Ready(leq, s, pid) && s.processes[pid].job.PromoteJob? && s.processes[pid].phase.Writing?
    ensures UnderLock(s.processes[pid].phase.next)
  {
  }

  /** No step but an install makes an attempt successful. */
  lemma NoSuddenSuccess(leq: Order, s: State, pid: Pid, nonce: nat)
    requires pid in s.processes && s.processes[pid].job.PromoteJob? && Live(s.processes[pid].phase)
    requires s.processes[pid].phase.Writing? ==> UnderLock(s.processes[pid].phase.next)
    requires !s.processes[pid].phase.LookingForIndex?
    requires !(s.processes[pid].phase.Writing? && s.processes[pid].phase.stage.Install?)
    ensures HasSucceeded(Step(leq, s, pid, nonce).processes[pid].phase) ==> HasSucceeded(s.processes[pid].phase)
  {
  }

  lemma MovesKeepSorted(leq: Order, before: Files, after: Files, process: Process)
    requires TotalOrder(leq) && Moves(leq, before, after, process) && IndexSorted(leq, before)
    ensures IndexSorted(leq, after)
  {
    if process.job.PromoteJob? {
      PromotedSorted(leq, before, process.job.publication);
    }
  }

  lemma FinishedStays(leq: Order, before: Files, after: Files, mover: Process, process: Process)
    requires TotalOrder(leq) && Moves(leq, before, after, mover) && Grows(before, after)
    requires Finished(leq, before, process)
    ensures Finished(leq, after, process)
  {
    if IndexSorted(leq, before) {
      MovesKeepSorted(leq, before, after, mover);
    }
  }

  /** The rename of the index publishes the run, if it was not in the index already. */
  lemma RenamePublishes(leq: Order, files: Files, p: Publication)
    requires TotalOrder(leq) && PublishedAs(files, p) && PublicationsFiled(files)
    requires EntriesBacked(files) && DistinctEntries(IndexOf(files))
    ensures p.entry in NextIndex(leq, files, p)
    ensures forall e :: e in NextIndex(leq, files, p) ==> e in IndexOf(files) || e == p.entry
  {
    PublishedVouched(files, p);
    EntryPlanned(files, p);
    SortedIndex(leq, files, p);
    NextEntriesMeans(IndexOf(files), p);
  }

  lemma IndexFinishes(leq: Order, files: Files, p: Publication)
    requires TotalOrder(leq) && PublishedAs(files, p) && PublicationsFiled(files)
    requires EntriesBacked(files) && DistinctEntries(IndexOf(files))
    ensures
      var after := Write(files, IndexDocument(NextIndex(leq, files, p)));
      IsPublished(after, p) && IndexSorted(leq, after)
  {
    RenamePublishes(leq, files, p);
    PromotedSorted(leq, files, p);
  }

  lemma RecordNotYet(leq: Order, s: State, pid: Pid)
    requires pid in s.processes && s.processes[pid].job.PromoteJob?
    requires s.processes[pid].phase.Writing? && s.processes[pid].phase.stage.Install?
    ensures
      var after := InstallStep(s, pid, s.processes[pid].phase);
      && pid in after.processes && after.processes[pid].job == s.processes[pid].job
      && (HasSucceeded(after.processes[pid].phase) ==> s.processes[pid].phase.next.Release?)
  {
  }

  lemma InstallFinishes(leq: Order, s: State, pid: Pid)
    requires TotalOrder(leq) && Intact(s.files) && Ready(leq, s, pid)
    requires s.processes[pid].job.PromoteJob?
    requires s.processes[pid].phase.Writing? && s.processes[pid].phase.stage.Install?
    ensures
      var after := InstallStep(s, pid, s.processes[pid].phase);
      pid in after.processes && Finished(leq, after.files, after.processes[pid])
  {
    InstallOfAttempt(leq, s, pid);
    RecordNotYet(leq, s, pid);
    if s.processes[pid].phase.next.Release? {
      IndexFinishes(leq, s.files, s.processes[pid].job.publication);
    }
  }

  lemma StillFinished(leq: Order, s: State, pid: Pid, nonce: nat)
    requires Ready(leq, s, pid) && s.processes[pid].job.PromoteJob? && Live(s.processes[pid].phase)
    requires !(s.processes[pid].phase.Writing? && s.processes[pid].phase.stage.Install?)
    requires Finished(leq, s.files, s.processes[pid])
    ensures
      var after := Step(leq, s, pid, nonce);
      pid in after.processes && Finished(leq, after.files, after.processes[pid])
  {
    StepFrame(leq, s, pid, nonce);
    if s.processes[pid].phase.Writing? {
      AttemptWritesUnderLock(leq, s, pid);
    }
    NoSuddenSuccess(leq, s, pid, nonce);
  }

  lemma InstallIsStep(leq: Order, s: State, pid: Pid, nonce: nat)
    requires pid in s.processes && s.processes[pid].phase.Writing? && s.processes[pid].phase.stage.Install?
    ensures Step(leq, s, pid, nonce) == InstallStep(s, pid, s.processes[pid].phase)
  {
  }

  lemma StepFinishes(leq: Order, s: State, pid: Pid, nonce: nat)
    requires TotalOrder(leq) && Intact(s.files) && Ready(leq, s, pid) && Live(s.processes[pid].phase)
    requires Finished(leq, s.files, s.processes[pid])
    ensures
      var after := Step(leq, s, pid, nonce);
      pid in after.processes && Finished(leq, after.files, after.processes[pid])
  {
    var phase := s.processes[pid].phase;
    if !s.processes[pid].job.PromoteJob? {
      StepFrame(leq, s, pid, nonce);
    } else if phase.Writing? && phase.stage.Install? {
      InstallIsStep(leq, s, pid, nonce);
      InstallFinishes(leq, s, pid);
    } else {
      StillFinished(leq, s, pid, nonce);
    }
  }

  lemma AttemptsStay(s: State, after: State)
    requires forall pid :: pid in s.processes ==>
      pid in after.processes && after.processes[pid].job == s.processes[pid].job
    ensures forall p :: Attempted(s, p) ==> Attempted(after, p)
    ensures forall e :: EntryAttempted(s, e) ==> EntryAttempted(after, e)
  {
    forall p | Attempted(s, p)
      ensures Attempted(after, p)
    {
      var pid :| pid in s.processes && Promotes(s.processes[pid], p);
      assert pid in after.processes && Promotes(after.processes[pid], p);
    }
  }

  /** What a step adds is what its promotion was to add. */
  lemma StepAccounted(leq: Order, s: State, pid: Pid, nonce: nat)
    requires TotalOrder(leq) && Intact(s.files) && Ready(leq, s, pid)
    ensures
      var after := Step(leq, s, pid, nonce);
      && (forall n :: n in after.files.publications ==>
        || (n in s.files.publications && s.files.publications[n] == after.files.publications[n])
        || Attempted(after, after.files.publications[n]))
      && (forall e :: e in IndexOf(after.files) ==> e in IndexOf(s.files) || EntryAttempted(after, e))
  {
    var after, job := Step(leq, s, pid, nonce), s.processes[pid].job;
    StepFrame(leq, s, pid, nonce);
    StepMoves(leq, s, pid, nonce);
    if job.PromoteJob? {
      var p := job.publication;
      assert pid in after.processes && Promotes(after.processes[pid], p);
      assert Attempted(after, p) && EntryAttempted(after, p.entry);
      if PublishedAs(s.files, p) {
        RenamePublishes(leq, s.files, p);
      }
    }
  }

  lemma StepTracked(leq: Order, start: Files, s: State, pid: Pid, nonce: nat)
    requires TotalOrder(leq) && Intact(s.files) && Ready(leq, s, pid) && Live(s.processes[pid].phase)
    requires Tracked(leq, start, s) && Grows(s.files, Step(leq, s, pid, nonce).files)
    ensures Tracked(leq, start, Step(leq, s, pid, nonce))
  {
    var after, process := Step(leq, s, pid, nonce), s.processes[pid];
    StepFrame(leq, s, pid, nonce);
    StepMoves(leq, s, pid, nonce);
    StepFinishes(leq, s, pid, nonce);
    forall q | q in after.processes
      ensures Finished(leq, after.files, after.processes[q])
    {
      if q != pid {
        FinishedStays(leq, s.files, after.files, process, s.processes[q]);
      }
    }
    AttemptsStay(s, after);
    StepAccounted(leq, s, pid, nonce);
  }

  lemma OtherTracked(leq: Order, start: Files, s: State, a: Action)
    requires Enabled(s, a) && !a.Advance? && Tracked(leq, start, s)
    ensures Tracked(leq, start, Apply(leq, s, a))
  {
    var after := Apply(leq, s, a);
    AttemptsStay(s, after);
    forall q | q in after.processes
      ensures Finished(leq, after.files, after.processes[q])
    {
      if q in s.processes {
        assert Finished(leq, s.files, s.processes[q]);
      }
    }
  }

  lemma ActionTracked(leq: Order, start: Files, s: State, a: Action)
    requires TotalOrder(leq) && Invariant(leq, s) && Enabled(s, a) && Tracked(leq, start, s)
    ensures Tracked(leq, start, Apply(leq, s, a))
  {
    if a.Advance? {
      assert Ready(leq, s, a.pid);
      StepKeepsInvariant(leq, s, a.pid, a.nonce);
      StepTracked(leq, start, s, a.pid, a.nonce);
    } else {
      OtherTracked(leq, start, s, a);
    }
  }

  lemma {:induction false} RunTracked(leq: Order, start: Files, s: State, actions: seq<Action>)
    requires TotalOrder(leq) && Invariant(leq, s) && CanRun(leq, s, actions) && Tracked(leq, start, s)
    ensures Tracked(leq, start, RunAll(leq, s, actions))
    decreases |actions|
  {
    if actions == [] {
    } else {
      ActionTracked(leq, start, s, actions[0]);
      ActionKeepsInvariant(leq, s, actions[0]);
      RunTracked(leq, start, Apply(leq, s, actions[0]), actions[1..]);
    }
  }

  /** In every reachable state, a promotion that is done has its record and its entry, and the index ascends
      strictly by id and attempt. */
  lemma DonePublished(leq: Order, s: State, actions: seq<Action>, pid: Pid)
    requires TotalOrder(leq) && Quiet(s) && CanRun(leq, s, actions)
    requires
      var t := RunAll(leq, s, actions);
      pid in t.processes && t.processes[pid].job.PromoteJob? && t.processes[pid].phase.Done?
    ensures
      var t := RunAll(leq, s, actions);
      IsPublished(t.files, t.processes[pid].job.publication) && EntriesAscend(leq, IndexOf(t.files))
  {
    var t := RunAll(leq, s, actions);
    RunKeepsInvariant(leq, s, actions);
    RunTracked(leq, s.files, s, actions);
    assert Finished(leq, t.files, t.processes[pid]);
    SortedAscends(leq, IndexOf(t.files));
  }

  // ---------------------------------------------------------------- what a run amounts to

  /** A store with the run files that it has later. */
  function WithRuns(files: Files, later: Files): Files {
    files.(runs := later.runs)
  }

  lemma EarlierBacked(f: Files, g: Files)
    requires IndexBacked(f) && Grows(f, g)
    ensures IndexBacked(WithRuns(f, g))
  {
    var h := WithRuns(f, g);
    forall e | e in IndexOf(h)
      ensures Backed(h, e)
    {
      assert Backed(f, e);
    }
    assert BundlesAt(h, IndexOf(h)) == BundlesAt(f, IndexOf(f));
  }

  lemma EarlierPublicationsFiled(f: Files, g: Files)
    requires PublicationsFiled(f) && Grows(f, g)
    ensures PublicationsFiled(WithRuns(f, g))
  {
  }

  lemma EarlierRunsFiled(f: Files, g: Files)
    requires RunsFiled(g) && Grows(f, g)
    ensures RunsFiled(WithRuns(f, g)) && Within(WithRuns(f, g), g)
  {
    var h := WithRuns(f, g);
    forall id | id in h.runs
      ensures Readable(h, id)
    {
      assert Readable(g, id);
    }
  }

  lemma EarlierFiled(f: Files, g: Files)
    requires PublicationsFiled(f) && RunsFiled(g) && Grows(f, g)
    ensures PublicationsFiled(WithRuns(f, g)) && RunsFiled(WithRuns(f, g)) && Within(WithRuns(f, g), g)
  {
    EarlierPublicationsFiled(f, g);
    EarlierRunsFiled(f, g);
  }

  lemma EarlierWithin(f: Files, g: Files)
    requires Intact(f) && Intact(g) && Grows(f, g)
    ensures Intact(WithRuns(f, g)) && Within(WithRuns(f, g), g)
  {
    EarlierBacked(f, g);
    EarlierFiled(f, g);
  }

  lemma SameInAnyOrder(leq: Order, start: Files, after: Files, ps: seq<Publication>)
    requires TotalOrder(leq) && Intact(start) && Intact(after) && Grows(start, after)
    requires IndexSorted(leq, after) && ps != [] && AddsOnly(start, after, ps)
    ensures
      var f := WithRuns(start, after);
      && PossibleInTurn(leq, f, ps)
      && PromotedAll(leq, f, ps).publications == after.publications
      && IndexOf(PromotedAll(leq, f, ps)) == IndexOf(after)
  {
    EarlierWithin(start, after);
    SameTogether(leq, WithRuns(start, after), after, ps);
  }

  /** When a promotion of a run is done, publications and index are what the promotions that the run
      completed leave if they are made one after another, in any order, without interruption. */
  lemma RunsLikePromotions(leq: Order, s: State, actions: seq<Action>, pid: Pid, ps: seq<Publication>)
    requires TotalOrder(leq) && Quiet(s) && CanRun(leq, s, actions)
    requires
      var t := RunAll(leq, s, actions);
      && pid in t.processes && t.processes[pid].job.PromoteJob? && t.processes[pid].phase.Done?
      && t.processes[pid].job.publication in ps && AddsOnly(s.files, t.files, ps)
    ensures
      var t, f := RunAll(leq, s, actions), WithRuns(s.files, RunAll(leq, s, actions).files);
      && PossibleInTurn(leq, f, ps)
      && PromotedAll(leq, f, ps).publications == t.files.publications
      && IndexOf(PromotedAll(leq, f, ps)) == IndexOf(t.files)
  {
    var t := RunAll(leq, s, actions);
    RunKeepsInvariant(leq, s, actions);
    RunTracked(leq, s.files, s, actions);
    assert Finished(leq, t.files, t.processes[pid]);
    SameInAnyOrder(leq, s.files, t.files, ps);
  }

  lemma {:induction false} Listed<T>(xs: set<T>) returns (s: seq<T>)
    ensures forall x :: x in s <==> x in xs
  {
    if xs == {} {
      s := [];
    } else {
      var x :| x in xs;
      var rest := Listed(xs - {x});
      s := [x] + rest;
    }
  }

  ghost predicate Settled(start: Files, after: Files) {
    forall n :: n in after.publications && n !in start.publications ==>
      after.publications[n].entry in IndexOf(after)
  }

  lemma EntriesListed(after: Files, ps: seq<Publication>)
    requires EntriesBacked(after)
    requires forall n :: n in after.publications && after.publications[n].entry in IndexOf(after) ==>
      after.publications[n] in ps
    ensures forall e :: e in IndexOf(after) ==> exists p :: p in ps && p.entry == e
  {
    forall e | e in IndexOf(after)
      ensures exists p :: p in ps && p.entry == e
    {
      assert Backed(after, e);
      var n := after.runs[e.run].run.pullRequest.value.number;
      assert after.publications[n] in ps;
    }
  }

  lemma AddsSettles(start: Files, after: Files, ps: seq<Publication>)
    requires AddsOnly(start, after, ps) && Numbered(after)
    ensures Settled(start, after)
  {
  }

  ghost predicate Numbered(files: Files) {
    forall n :: n in files.publications ==> files.publications[n].pullRequest.number == n
  }

  lemma CompletedListed(after: Files) returns (ps: seq<Publication>)
    requires Numbered(after)
    ensures forall p :: p in ps ==> IsPublished(after, p)
    ensures forall n :: n in after.publications && after.publications[n].entry in IndexOf(after) ==>
      after.publications[n] in ps
  {
    ps := Listed(set n | n in after.publications && after.publications[n].entry in IndexOf(after) ::
                   after.publications[n]);
  }

  lemma SettledAdds(start: Files, after: Files) returns (ps: seq<Publication>)
    requires EntriesBacked(after) && Numbered(after) && Settled(start, after)
    ensures AddsOnly(start, after, ps)
  {
    ps := CompletedListed(after);
    EntriesListed(after, ps);
  }

  /** Such a list of promotions exists exactly when no new record is without its index entry. */
  lemma ListableIffSettled(start: Files, after: Files)
    requires EntriesBacked(after) && Numbered(after)
    ensures (exists ps :: AddsOnly(start, after, ps)) <==> Settled(start, after)
  {
    if Settled(start, after) {
      var ps := SettledAdds(start, after);
    }
    if ps :| AddsOnly(start, after, ps) {
      AddsSettles(start, after, ps);
    }
  }

  // ---------------------------------------------------------------- retries

  ghost predicate CompatibleRuns(files: Files, e: IndexEntry, p: Publication) {
    && e.run in files.runs && p.entry.run in files.runs
    && Compatible(files.runs[e.run], files.runs[p.entry.run])
  }

  ghost predicate CompatibleWithIndex(files: Files, p: Publication) {
    forall e :: e in IndexOf(files) ==> CompatibleRuns(files, e, p)
  }

  lemma CompatibleWithAll(files: Files, p: Publication)
    requires DistinctEntries(IndexOf(files)) && p.entry.run in files.runs
    requires AcceptableIndex(files, NextEntries(IndexOf(files), p))
    ensures CompatibleWithIndex(files, p)
  {
    var next := NextEntries(IndexOf(files), p);
    NextEntriesMeans(IndexOf(files), p);
    assert Included(next, p.entry.run);
    var k :| 0 <= k < |next| && next[k].run == p.entry.run;
    forall e | e in IndexOf(files)
      ensures CompatibleRuns(files, e, p)
    {
      assert e in next;
      var i :| 0 <= i < |next| && next[i] == e;
      CompatibleAt(files, next, i, k);
    }
  }

  lemma CompatibleAt(files: Files, runs: seq<IndexEntry>, i: nat, k: nat)
    requires AcceptableIndex(files, runs) && i < |runs| && k < |runs|
    ensures runs[i].run in files.runs && runs[k].run in files.runs
    ensures Compatible(files.runs[runs[i].run], files.runs[runs[k].run])
  {
    var bundles := BundlesAt(files, runs);
    assert runs[i] in runs && runs[k] in runs;
    assert bundles[i] in bundles && bundles[k] in bundles;
  }

  lemma SelfCompatible(b: Bundle)
    requires Complete(b)
    ensures Compatible(b, b)
  {
    SameEntry(b.catalog.runtimes);
    SameEntry(b.catalog.metrics);
  }

  lemma SameEntry<D>(entries: seq<Entry<D>>)
    requires DistinctIds(entries)
    ensures forall e, f :: e in entries && f in entries && e.id == f.id ==> e == f
  {
  }

  lemma CompatibleBothWays(a: Bundle, b: Bundle)
    ensures Compatible(a, b) <==> Compatible(b, a)
  {
  }

  lemma AcceptableAppended(bundles: seq<Bundle>, b: Bundle)
    requires Acceptable(bundles) && DistinctRuns(bundles + [b]) && Compatible(b, b)
    requires forall c :: c in bundles ==> c.source == b.source && Compatible(c, b) && Compatible(b, c)
    ensures Acceptable(bundles + [b])
  {
  }

  lemma AppendedDistinct(files: Files, runs: seq<IndexEntry>, p: Publication)
    requires AllReadable(files, runs) && DistinctEntries(runs) && !Included(runs, p.entry.run)
    requires Readable(files, p.entry.run)
    ensures DistinctRuns(BundlesAt(files, runs) + [files.runs[p.entry.run]])
  {
    forall i | 0 <= i < |runs|
      ensures RunIdOf(BundlesAt(files, runs)[i]) == runs[i].run
    {
      assert runs[i] in runs;
    }
  }

  lemma AcceptedWithAll(files: Files, p: Publication)
    requires AllReadable(files, IndexOf(files)) && DistinctEntries(IndexOf(files)) && Readable(files, p.entry.run)
    requires Acceptable(BundlesAt(files, IndexOf(files)))
    requires CompatibleWithIndex(files, p)
    ensures AcceptableIndex(files, NextEntries(IndexOf(files), p))
  {
    var runs, b := IndexOf(files), files.runs[p.entry.run];
    if !Included(runs, p.entry.run) {
      var bundles := BundlesAt(files, runs);
      forall c | c in bundles
        ensures c.source == b.source && Compatible(c, b) && Compatible(b, c)
      {
        var i :| 0 <= i < |bundles| && bundles[i] == c;
        assert runs[i] in runs;
        assert CompatibleRuns(files, runs[i], p) && Readable(files, runs[i].run);
        CompatibleBothWays(c, b);
      }
      SelfCompatible(b);
      AppendedDistinct(files, runs, p);
      AcceptableAppended(bundles, b);
      assert BundlesAt(files, runs + [p.entry]) == bundles + [b];
    }
  }

  lemma PromotableIff(files: Files, p: Publication, policy: Policy)
    requires Intact(files) && RunVouches(files, p, policy)
    ensures CanPromote(files, p, policy) <==>
      RecordFree(files, p) && CompatibleWithIndex(files, p)
  {
    if CanPromote(files, p, policy) {
      CompatibleWithAll(files, p);
    }
    if RecordFree(files, p) && CompatibleWithIndex(files, p) {
      AcceptedWithAll(files, p);
      if Included(IndexOf(files), p.entry.run) {
        EntryRecorded(files, p);
      }
    }
  }

  lemma StaysCompatible(f: Files, g: Files, p: Publication)
    requires Grows(f, g) && CompatibleWithIndex(f, p)
    ensures forall e :: e in IndexOf(f) ==> CompatibleRuns(g, e, p)
  {
  }

  /** Whatever happened before a retry, crashes of earlier attempts included: a promotion is possible
      exactly when no other record was made for its pull request and its run is compatible with every
      published one. If it was possible before, only the runs published since then matter. */
  lemma RetryPossibleIff(leq: Order, s: State, actions: seq<Action>, p: Publication, policy: Policy)
    requires TotalOrder(leq) && Quiet(s) && CanRun(leq, s, actions)
    requires RunVouches(RunAll(leq, s, actions).files, p, policy)
    ensures
      var t := RunAll(leq, s, actions);
      CanPromote(t.files, p, policy) <==> RecordFree(t.files, p) && CompatibleWithIndex(t.files, p)
    ensures
      var t := RunAll(leq, s, actions);
      CanPromote(s.files, p, policy) ==>
        (CompatibleWithIndex(t.files, p) <==>
         forall e :: e in IndexOf(t.files) && e !in IndexOf(s.files) ==> CompatibleRuns(t.files, e, p))
  {
    var t := RunAll(leq, s, actions);
    RunKeepsInvariant(leq, s, actions);
    PromotableIff(t.files, p, policy);
    if CanPromote(s.files, p, policy) {
      PromotableIff(s.files, p, policy);
      StaysCompatible(s.files, t.files, p);
    }
  }

  ghost function Retry(leq: Order, s: State, pid: Pid, p: Publication, policy: Policy): State
    requires pid !in s.processes
  {
    Apply(leq, s, Spawn(pid, PromoteJob(p, policy)))
  }

  /** Once the lock is clear, a retry that is left alone succeeds under exactly that condition, and
      otherwise leaves all files as they are. */
  lemma RetrySucceedsIff(leq: Order, s: State, actions: seq<Action>, p: Publication, policy: Policy,
                         pid: Pid, nonce: nat)
    requires TotalOrder(leq) && Quiet(s) && CanRun(leq, s, actions)
    requires
      var t := RunAll(leq, s, actions);
      && RunVouches(t.files, p, policy)
      && t.lock.None? && pid !in t.processes && Temporary(pid, nonce) !in t.temporaries
    ensures
      var t := RunAll(leq, s, actions);
      var ok := RecordFree(t.files, p) && CompatibleWithIndex(t.files, p);
      Ends(leq, Retry(leq, t, pid, p, policy), pid, nonce,
           if ok then Promoted(leq, t.files, p) else t.files, t.temporaries, ok)
  {
    RetryPossibleIff(leq, s, actions, p, policy);
    PromotionAloneRefinesCommand(leq, Retry(leq, RunAll(leq, s, actions), pid, p, policy), pid, nonce);
  }

  lemma GrowsOn(f: Files, g: Files, h: Files)
    requires Grows(f, g) && Grows(g, h)
    ensures Grows(f, h)
  {
  }

  lemma RetriedIntact(leq: Order, s: State, actions: seq<Action>, p: Publication, policy: Policy)
    requires TotalOrder(leq) && Quiet(s) && CanRun(leq, s, actions)
    requires CanPromote(RunAll(leq, s, actions).files, p, policy)
    ensures
      var after := Promoted(leq, RunAll(leq, s, actions).files, p);
      Intact(after) && Grows(s.files, after) && IndexSorted(leq, after)
  {
    var t := RunAll(leq, s, actions);
    RunKeepsInvariant(leq, s, actions);
    PromotionKeepsIntact(leq, t.files, p, policy);
    GrowsOn(s.files, t.files, Promoted(leq, t.files, p));
    PromotedSorted(leq, t.files, p);
  }

  /** A retry that succeeds converges: together with the promotions completed in between it leaves the
      publications and the index of uninterrupted promotions, in any order. */
  lemma RetryConverges(leq: Order, s: State, actions: seq<Action>, p: Publication, policy: Policy,
                       ps: seq<Publication>)
    requires TotalOrder(leq) && Quiet(s) && CanRun(leq, s, actions)
    requires
      var t := RunAll(leq, s, actions);
      CanPromote(t.files, p, policy) && p in ps && AddsOnly(s.files, Promoted(leq, t.files, p), ps)
    ensures
      var retried := Promoted(leq, RunAll(leq, s, actions).files, p);
      var f := WithRuns(s.files, retried);
      && PossibleInTurn(leq, f, ps)
      && PromotedAll(leq, f, ps).publications == retried.publications
      && IndexOf(PromotedAll(leq, f, ps)) == IndexOf(retried)
  {
    RetriedIntact(leq, s, actions, p, policy);
    SameInAnyOrder(leq, s.files, Promoted(leq, RunAll(leq, s, actions).files, p), ps);
  }

  // ---------------------------------------------------------------- attempts of one promotion

  /** The only jobs are attempts of one promotion. */
  ghost predicate OnlyAttempts(actions: seq<Action>, p: Publication) {
    forall i :: 0 <= i < |actions| && actions[i].Spawn? ==> IsAttempt(actions[i].job, p)
  }

  predicate IsAttempt(job: Job, p: Publication) {
    job.PromoteJob? && job.publication == p
  }

  /** Run files, policies and pointers are as they were, and only attempts are at work. */
  ghost predicate RestKept(start: Files, s: State, p: Publication) {
    && s.files.runs == start.runs && s.files.policies == start.policies && s.files.pointers == start.pointers
    && forall pid :: pid in s.processes ==> IsAttempt(s.processes[pid].job, p)
  }

  lemma ActionKeepsRest(leq: Order, start: Files, s: State, a: Action, p: Publication)
    requires Enabled(s, a) && RestKept(start, s, p) && (a.Spawn? ==> IsAttempt(a.job, p))
    requires a.Advance? ==> Ready(leq, s, a.pid)
    ensures RestKept(start, Apply(leq, s, a), p)
  {
    if a.Advance? {
      var phase := s.processes[a.pid].phase;
      StepFrame(leq, s, a.pid, a.nonce);
      if phase.Writing? && phase.stage.Install? {
        InstallOfAttempt(leq, s, a.pid);
      }
    }
  }

  lemma {:induction false} RunKeepsRest(leq: Order, start: Files, s: State, actions: seq<Action>, p: Publication)
    requires TotalOrder(leq) && Invariant(leq, s) && RestKept(start, s, p)
    requires CanRun(leq, s, actions) && OnlyAttempts(actions, p)
    ensures RestKept(start, RunAll(leq, s, actions), p)
    decreases |actions|
  {
    if actions == [] {
    } else {
      var a := actions[0];
      assert a.Spawn? ==> IsAttempt(a.job, p);
      ActionKeepsInvariant(leq, s, a);
      ActionKeepsRest(leq, start, s, a, p);
      RunKeepsRest(leq, start, Apply(leq, s, a), actions[1..], p);
    }
  }

  lemma OneAdded(leq: Order, start: Files, s: State, p: Publication, pid: Pid)
    requires Tracked(leq, start, s) && RestKept(start, s, p)
    requires pid in s.processes && s.processes[pid].phase.Done?
    ensures AddsOnly(start, s.files, [p]) && s.files.index.Some? && WithRuns(start, s.files) == start
  {
    assert Finished(leq, s.files, s.processes[pid]);
  }

  lemma SameFiles(f: Files, g: Files)
    requires f.runs == g.runs && f.policies == g.policies && f.pointers == g.pointers
    requires f.publications == g.publications && IndexOf(f) == IndexOf(g) && f.index.Some? && g.index.Some?
    ensures f == g
  {
  }

  lemma PromotedOne(leq: Order, files: Files, p: Publication)
    ensures PromotedAll(leq, files, [p]) == Promoted(leq, files, p)
  {
    var ps := [p];
    assert ps[0] == p && ps[1..] == [];
    assert PromotedAll(leq, files, ps) == PromotedAll(leq, Promoted(leq, files, p), []);
  }

  lemma PromotedRest(leq: Order, files: Files, p: Publication)
    ensures
      var after := Promoted(leq, files, p);
      && after.runs == files.runs && after.policies == files.policies && after.pointers == files.pointers
      && after.index.Some?
  {
  }

  lemma LikeOne(leq: Order, start: Files, files: Files, p: Publication)
    requires files.runs == start.runs && files.policies == start.policies && files.pointers == start.pointers
    requires files.index.Some?
    requires PromotedAll(leq, start, [p]).publications == files.publications
    requires IndexOf(PromotedAll(leq, start, [p])) == IndexOf(files)
    ensures files == Promoted(leq, start, p)
  {
    PromotedOne(leq, start, p);
    PromotedRest(leq, start, p);
    SameFiles(files, Promoted(leq, start, p));
  }

  /** With no other jobs around, a promotion that succeeded after any number of crashed attempts left
      exactly the files of an uninterrupted one. */
  lemma AttemptsLeaveSameFiles(leq: Order, s: State, actions: seq<Action>, p: Publication, pid: Pid)
    requires TotalOrder(leq) && Quiet(s) && CanRun(leq, s, actions) && OnlyAttempts(actions, p)
    requires pid in RunAll(leq, s, actions).processes && RunAll(leq, s, actions).processes[pid].phase.Done?
    ensures RunAll(leq, s, actions).files == Promoted(leq, s.files, p)
  {
    var t := RunAll(leq, s, actions);
    RunKeepsRest(leq, s.files, s, actions, p);
    RunTracked(leq, s.files, s, actions);
    OneAdded(leq, s.files, t, p, pid);
    RunsLikePromotions(leq, s, actions, pid, [p]);
    LikeOne(leq, s.files, t.files, p);
  }
}
