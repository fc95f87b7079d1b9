/** Archivals of one pull request that overlap. */
module Overlap {
  import opened Texts
  import opened Bundles
  import opened Store
  import opened Commands
  import opened Protocol
  import opened Recovery
  import opened Pending

  // The pointer is read and renamed outside the lock, so a rename can undo another one that came in
  // between. These are exactly the pointers that can be left.

  /** How far an archival has come: before its decision about the pointer, between decision and rename,
      past the pointer, or stopped. */
  datatype Progress = Ahead | Going | Past | Stopped

  function ProgressOf(phase: Phase): Progress {
    match phase
    case Writing(_, _, stage, next) =>
      if next.EnsureIndex? then (if !stage.Remove? then Going else if stage.ok then Past else Stopped)
      else if next.Finish? then Past
      else Ahead
    case LookingForIndex => Past
    case Done => Past
    case Aborted => Stopped
    case Crashed => Stopped
    case _ => Ahead
  }

  function ProgressAt(s: State, pid: Pid): Progress {
    if pid in s.processes then ProgressOf(s.processes[pid].phase) else Ahead
  }

  function Offering(job: Job): Pointer
    requires job.ArchiveJob?
  {
    Pointer(RunIdOf(job.bundle), job.createdAt)
  }

  predicate ArchivesFor(job: Job, n: nat) {
    job.ArchiveJob? && job.number == n
  }

  // ---------------------------------------------------------------- what can be left

  ghost predicate Archivals(n: nat, jobs: map<Pid, Job>) {
    forall pid :: pid in jobs ==> ArchivesFor(jobs[pid], n)
  }

  ghost predicate Distinct(order: seq<Pid>) {
    forall i, j :: 0 <= i < j < |order| ==> order[i] != order[j]
  }

  /** What a member of a chain has read: the pointer that was there, or the one of the member before it. */
  function ReadBy(o: Option<Pointer>, jobs: map<Pid, Job>, chain: seq<Pid>, i: nat): Option<Pointer> {
    if i == 0 then o
    else if i <= |chain| && chain[i - 1] in jobs && jobs[chain[i - 1]].ArchiveJob? then
      Some(Offering(jobs[chain[i - 1]]))
    else None
  }

  /** An archival that supersedes what it has read. */
  ghost predicate Link(o: Option<Pointer>, jobs: map<Pid, Job>, chain: seq<Pid>, i: nat)
    requires i < |chain|
  {
    && chain[i] in jobs && jobs[chain[i]].ArchiveJob?
    && Supersedes(ReadBy(o, jobs, chain, i), Offering(jobs[chain[i]]))
  }

  /** Different archivals, each of which supersedes what the one before it wrote. */
  ghost predicate Chain(o: Option<Pointer>, jobs: map<Pid, Job>, chain: seq<Pid>) {
    Distinct(chain) && forall i :: 0 <= i < |chain| ==> Link(o, jobs, chain, i)
  }

  /** A chain ends with this pointer. */
  ghost predicate Reached(o: Option<Pointer>, jobs: map<Pid, Job>, p: Pointer) {
    exists chain :: chain != [] && Chain(o, jobs, chain) && ReadBy(o, jobs, chain, |chain|) == Some(p)
  }

  /** The pointer that was there if nothing supersedes it, and otherwise the end of any chain. */
  ghost predicate Leavable(o: Option<Pointer>, jobs: map<Pid, Job>, x: Option<Pointer>) {
    if forall pid :: pid in jobs && jobs[pid].ArchiveJob? ==> !Supersedes(o, Offering(jobs[pid])) then x == o
    else x.Some? && Reached(o, jobs, x.value)
  }

  lemma ReadByPrefix(o: Option<Pointer>, jobs: map<Pid, Job>, chain: seq<Pid>, longer: seq<Pid>, i: nat)
    requires chain <= longer && i <= |chain|
    ensures ReadBy(o, jobs, longer, i) == ReadBy(o, jobs, chain, i)
  {
  }

  lemma ChainPrefix(o: Option<Pointer>, jobs: map<Pid, Job>, chain: seq<Pid>, n: nat)
    requires Chain(o, jobs, chain) && n <= |chain|
    ensures Chain(o, jobs, chain[..n]) && ReadBy(o, jobs, chain[..n], n) == ReadBy(o, jobs, chain, n)
  {
    forall i | 0 <= i < n
      ensures Link(o, jobs, chain[..n], i)
    {
      assert Link(o, jobs, chain, i);
      ReadByPrefix(o, jobs, chain[..n], chain, i);
    }
    ReadByPrefix(o, jobs, chain[..n], chain, n);
  }

  lemma ChainExtended(o: Option<Pointer>, jobs: map<Pid, Job>, chain: seq<Pid>, pid: Pid)
    requires Chain(o, jobs, chain) && pid in jobs && jobs[pid].ArchiveJob? && pid !in chain
    requires Supersedes(ReadBy(o, jobs, chain, |chain|), Offering(jobs[pid]))
    ensures Reached(o, jobs, Offering(jobs[pid]))
  {
    var longer := chain + [pid];
    forall i | 0 <= i < |longer|
      ensures Link(o, jobs, longer, i)
    {
      ReadByPrefix(o, jobs, chain, longer, i);
      if i < |chain| {
        assert Link(o, jobs, chain, i);
      }
    }
    assert Chain(o, jobs, longer) && ReadBy(o, jobs, longer, |longer|) == Some(Offering(jobs[pid]));
  }

  /** What supersedes the end of a chain ends a chain. */
  lemma ChainGoesOn(o: Option<Pointer>, jobs: map<Pid, Job>, chain: seq<Pid>, pid: Pid)
    requires Chain(o, jobs, chain) && pid in jobs && jobs[pid].ArchiveJob?
    requires Supersedes(ReadBy(o, jobs, chain, |chain|), Offering(jobs[pid]))
    ensures Reached(o, jobs, Offering(jobs[pid]))
  {
    if i :| 0 <= i < |chain| && chain[i] == pid {
      ChainPrefix(o, jobs, chain, i + 1);
      var shorter := chain[..i + 1];
      assert shorter != [] && ReadBy(o, jobs, shorter, |shorter|) == Some(Offering(jobs[pid]));
    } else {
      ChainExtended(o, jobs, chain, pid);
    }
  }

  // ---------------------------------------------------------------- what every interleaving keeps

  /** Nothing has been written yet and all that are past the pointer had to skip it, or what was written
      last ends a chain. */
  ghost predicate Explained(o: Option<Pointer>, s: State, n: nat, jobs: map<Pid, Job>) {
    var now := PointerOf(s.files, n);
    || (now == o && forall pid :: pid in jobs && jobs[pid].ArchiveJob? && ProgressAt(s, pid).Past? ==>
         !Supersedes(o, Offering(jobs[pid])))
    || (now.Some? && Reached(o, jobs, now.value))
  }

  /** Whatever is going to be written ends a chain. */
  ghost predicate GoingReached(o: Option<Pointer>, s: State, jobs: map<Pid, Job>) {
    forall pid :: pid in jobs && jobs[pid].ArchiveJob? && ProgressAt(s, pid).Going? ==>
      Reached(o, jobs, Offering(jobs[pid]))
  }

  /** What one step of an archival does. */
  ghost predicate Progresses(p: Pointer, x: Progress, y: Progress, before: Option<Pointer>, after: Option<Pointer>) {
    || (y.Stopped? && after == before)
    || (x == y && after == before)
    || (x.Ahead? && after == before && y == if Supersedes(before, p) then Going else Past)
    || (x.Going? && y.Past? && after == Some(p))
  }

  /** What one step of any job does to the progress and to the pointer of a pull request. */
  ghost predicate PointerMoves(s: State, after: State, pid: Pid, n: nat)
    requires pid in s.processes
  {
    var job := s.processes[pid].job;
    if ArchivesFor(job, n) then
      Progresses(Offering(job), ProgressAt(s, pid), ProgressAt(after, pid),
                 PointerOf(s.files, n), PointerOf(after.files, n))
    else PointerOf(after.files, n) == PointerOf(s.files, n)
  }

  lemma InstallMoves(leq: Order, s: State, pid: Pid, n: nat)
    requires Ready(leq, s, pid) && s.processes[pid].phase.Writing? && s.processes[pid].phase.stage.Install?
    ensures PointerMoves(s, InstallStep(s, pid, s.processes[pid].phase), pid, n)
  {
  }

  lemma WriteMoves(leq: Order, s: State, pid: Pid, nonce: nat, n: nat)
    requires pid in s.processes && s.processes[pid].phase.Writing? && !s.processes[pid].phase.stage.Install?
    ensures PointerMoves(s, Step(leq, s, pid, nonce), pid, n)
  {
  }

  lemma OtherMoves(leq: Order, s: State, pid: Pid, nonce: nat, n: nat)
    requires pid in s.processes && Live(s.processes[pid].phase) && !s.processes[pid].phase.Writing?
    ensures PointerMoves(s, Step(leq, s, pid, nonce), pid, n)
  {
  }

  lemma StepProgresses(leq: Order, s: State, pid: Pid, nonce: nat, n: nat)
    requires Ready(leq, s, pid) && Live(s.processes[pid].phase)
    ensures PointerMoves(s, Step(leq, s, pid, nonce), pid, n)
  {
    var phase := s.processes[pid].phase;
    if phase.Writing? && phase.stage.Install? {
      InstallMoves(leq, s, pid, n);
    } else if phase.Writing? {
      WriteMoves(leq, s, pid, nonce, n);
    } else {
      OtherMoves(leq, s, pid, nonce, n);
    }
  }

  /** The archivals of a pull request are the given ones. */
  ghost predicate Known(n: nat, pid: Pid, job: Job, jobs: map<Pid, Job>) {
    if pid in jobs then job == jobs[pid] else !ArchivesFor(job, n)
  }

  ghost predicate TheseArchivals(actions: seq<Action>, n: nat, jobs: map<Pid, Job>) {
    forall x :: x in actions && x.Spawn? ==> Known(n, x.pid, x.job, jobs)
  }

  ghost predicate OnlyThese(s: State, n: nat, jobs: map<Pid, Job>) {
    forall pid :: pid in s.processes ==> Known(n, pid, s.processes[pid].job, jobs)
  }

  ghost predicate Underway(o: Option<Pointer>, s: State, n: nat, jobs: map<Pid, Job>) {
    OnlyThese(s, n, jobs) && Explained(o, s, n, jobs) && GoingReached(o, s, jobs)
  }

  /** What an archival supersedes is explained, so what it is going to write is too. */
  lemma DecisionReached(o: Option<Pointer>, s: State, n: nat, jobs: map<Pid, Job>, pid: Pid)
    requires Explained(o, s, n, jobs) && pid in jobs && jobs[pid].ArchiveJob?
    requires Supersedes(PointerOf(s.files, n), Offering(jobs[pid]))
    ensures Reached(o, jobs, Offering(jobs[pid]))
  {
    var now := PointerOf(s.files, n);
    if now.Some? && Reached(o, jobs, now.value) {
      var chain :| chain != [] && Chain(o, jobs, chain) && ReadBy(o, jobs, chain, |chain|) == Some(now.value);
      ChainGoesOn(o, jobs, chain, pid);
    } else {
      ChainGoesOn(o, jobs, [], pid);
    }
  }

  ghost predicate OthersStand(s: State, after: State, pid: Pid) {
    forall q :: q != pid ==> ProgressAt(after, q) == ProgressAt(s, q)
  }

  lemma StaysReached(o: Option<Pointer>, s: State, after: State, n: nat, jobs: map<Pid, Job>, pid: Pid)
    requires Archivals(n, jobs) && pid in jobs && pid in s.processes && s.processes[pid].job == jobs[pid]
    requires PointerMoves(s, after, pid, n) && OthersStand(s, after, pid)
    requires Supersedes(PointerOf(s.files, n), Offering(jobs[pid])) ==> Reached(o, jobs, Offering(jobs[pid]))
    requires GoingReached(o, s, jobs)
    ensures GoingReached(o, after, jobs)
  {
    assert ArchivesFor(jobs[pid], n);
  }

  lemma StaysExplained(o: Option<Pointer>, s: State, after: State, n: nat, jobs: map<Pid, Job>, pid: Pid)
    requires Archivals(n, jobs) && pid in jobs && pid in s.processes && s.processes[pid].job == jobs[pid]
    requires PointerMoves(s, after, pid, n) && OthersStand(s, after, pid)
    requires Supersedes(PointerOf(s.files, n), Offering(jobs[pid])) ==> Reached(o, jobs, Offering(jobs[pid]))
    requires Explained(o, s, n, jobs) && GoingReached(o, s, jobs)
    ensures Explained(o, after, n, jobs)
  {
    assert ArchivesFor(jobs[pid], n);
  }

  lemma OwnStepUnderway(leq: Order, o: Option<Pointer>, s: State, pid: Pid, nonce: nat, n: nat, jobs: map<Pid, Job>)
    requires Archivals(n, jobs) && Underway(o, s, n, jobs) && pid in jobs && pid in s.processes
    requires PointerMoves(s, Step(leq, s, pid, nonce), pid, n)
    ensures Explained(o, Step(leq, s, pid, nonce), n, jobs) && GoingReached(o, Step(leq, s, pid, nonce), jobs)
  {
    var after := Step(leq, s, pid, nonce);
    StepFrame(leq, s, pid, nonce);
    assert ArchivesFor(jobs[pid], n) && Known(n, pid, s.processes[pid].job, jobs);
    if Supersedes(PointerOf(s.files, n), Offering(jobs[pid])) {
      DecisionReached(o, s, n, jobs, pid);
    }
    StaysReached(o, s, after, n, jobs, pid);
    StaysExplained(o, s, after, n, jobs, pid);
  }

  lemma StepUnderway(leq: Order, o: Option<Pointer>, s: State, pid: Pid, nonce: nat, n: nat, jobs: map<Pid, Job>)
    requires Archivals(n, jobs) && Underway(o, s, n, jobs)
    requires Ready(leq, s, pid) && Live(s.processes[pid].phase)
    ensures Underway(o, Step(leq, s, pid, nonce), n, jobs)
  {
    StepFrame(leq, s, pid, nonce);
    StepProgresses(leq, s, pid, nonce, n);
    if pid in jobs {
      OwnStepUnderway(leq, o, s, pid, nonce, n, jobs);
    }
  }

  /** A beginning or a crash makes no progress. */
  ghost predicate NoProgress(s: State, after: State) {
    && after.files == s.files
    && forall pid :: ProgressAt(after, pid) == ProgressAt(s, pid) || ProgressAt(after, pid).Ahead?
        || ProgressAt(after, pid).Stopped?
  }

  lemma OtherNoProgress(leq: Order, s: State, x: Action)
    requires Enabled(s, x) && !x.Advance?
    ensures NoProgress(s, Apply(leq, s, x))
  {
  }

  lemma OtherOnlyThese(leq: Order, s: State, x: Action, n: nat, jobs: map<Pid, Job>)
    requires OnlyThese(s, n, jobs) && Enabled(s, x) && !x.Advance?
    requires x.Spawn? ==> Known(n, x.pid, x.job, jobs)
    ensures OnlyThese(Apply(leq, s, x), n, jobs)
  {
  }

  lemma OtherUnderway(leq: Order, o: Option<Pointer>, s: State, x: Action, n: nat, jobs: map<Pid, Job>)
    requires Underway(o, s, n, jobs)
    requires Enabled(s, x) && !x.Advance? && (x.Spawn? ==> Known(n, x.pid, x.job, jobs))
    ensures Underway(o, Apply(leq, s, x), n, jobs)
  {
    OtherNoProgress(leq, s, x);
    OtherOnlyThese(leq, s, x, n, jobs);
  }

  lemma {:induction false} RunUnderway(leq: Order, o: Option<Pointer>, s: State, actions: seq<Action>,
                                       n: nat, jobs: map<Pid, Job>)
    requires TotalOrder(leq) && Invariant(leq, s) && CanRun(leq, s, actions)
    requires TheseArchivals(actions, n, jobs) && Archivals(n, jobs) && Underway(o, s, n, jobs)
    ensures Underway(o, RunAll(leq, s, actions), n, jobs)
    decreases |actions|
  {
    if actions == [] {
    } else {
      var x := actions[0];
      assert x in actions;
      ActionKeepsInvariant(leq, s, x);
      if x.Advance? {
        assert Ready(leq, s, x.pid);
        StepUnderway(leq, o, s, x.pid, x.nonce, n, jobs);
      } else {
        OtherUnderway(leq, o, s, x, n, jobs);
      }
      RunUnderway(leq, o, Apply(leq, s, x), actions[1..], n, jobs);
    }
  }

  ghost predicate AllDone(s: State, jobs: map<Pid, Job>) {
    forall pid :: pid in jobs ==> pid in s.processes && s.processes[pid].phase.Done?
  }

  lemma DoneLeavable(o: Option<Pointer>, s: State, n: nat, jobs: map<Pid, Job>)
    requires Archivals(n, jobs) && Underway(o, s, n, jobs) && AllDone(s, jobs)
    ensures Leavable(o, jobs, PointerOf(s.files, n))
  {
    var now := PointerOf(s.files, n);
    if now.Some? && Reached(o, jobs, now.value) {
      var chain :| chain != [] && Chain(o, jobs, chain) && ReadBy(o, jobs, chain, |chain|) == Some(now.value);
      assert Link(o, jobs, chain, 0) && ReadBy(o, jobs, chain, 0) == o;
    } else {
      forall pid | pid in jobs
        ensures ProgressAt(s, pid).Past?
      {
      }
    }
  }

  // ---------------------------------------------------------------- how each pointer can be left

  ghost predicate Leads(leq: Order, s: State, actions: seq<Action>, t: State) {
    CanRun(leq, s, actions) && RunAll(leq, s, actions) == t
  }

  lemma ThenAlone(leq: Order, s: State, actions: seq<Action>, t: State, pid: Pid, nonce: nat, u: State,
                  n: nat, jobs: map<Pid, Job>)
    returns (more: seq<Action>)
    requires Leads(leq, s, actions, t) && TheseArchivals(actions, n, jobs) && Reaches(leq, t, pid, nonce, u)
    ensures Leads(leq, s, more, u) && TheseArchivals(more, n, jobs)
  {
    var steps: nat :| ReachesIn(leq, t, pid, nonce, steps, u);
    RunJoined(leq, s, actions, Alone(pid, nonce, steps));
    more := actions + Alone(pid, nonce, steps);
  }

  /** A valid job that has begun. */
  function Begun(t: State, pid: Pid, job: Job): State {
    t.(processes := t.processes[pid := Process(job, Locking)])
  }

  lemma SpawnBegins(leq: Order, t: State, pid: Pid, job: Job) returns (actions: seq<Action>)
    requires pid !in t.processes && ValidJob(job)
    ensures Leads(leq, t, actions, Begun(t, pid, job)) && actions == [Spawn(pid, job)]
  {
    actions := [Spawn(pid, job)];
    assert actions[1..] == [];
    var after := Apply(leq, t, actions[0]);
    assert CanRun(leq, after, actions[1..]) && RunAll(leq, after, actions[1..]) == after;
  }

  lemma ThenSpawn(leq: Order, s: State, actions: seq<Action>, t: State, pid: Pid, n: nat, jobs: map<Pid, Job>)
    returns (more: seq<Action>)
    requires Leads(leq, s, actions, t) && TheseArchivals(actions, n, jobs)
    requires pid in jobs && pid !in t.processes && ValidJob(jobs[pid])
    ensures Leads(leq, s, more, Begun(t, pid, jobs[pid])) && TheseArchivals(more, n, jobs)
  {
    var last := SpawnBegins(leq, t, pid, jobs[pid]);
    RunJoined(leq, s, actions, last);
    more := actions + last;
  }

  lemma {:induction false} Above(xs: set<Temporary>) returns (nonce: nat)
    ensures forall t :: t in xs ==> t.nonce < nonce
  {
    if xs == {} {
      nonce := 0;
    } else {
      var t :| t in xs;
      var rest := Above(xs - {t});
      nonce := if t.nonce < rest then rest else t.nonce + 1;
    }
  }

  /** Run and policy of an archival. */
  function StoredBy(files: Files, job: Job): Files
    requires job.ArchiveJob?
  {
    Write(Write(files, RunDocument(job.bundle)), PolicyDocument(RunIdOf(job.bundle), job.policy))
  }

  /** Two archivals of one run archive the same bundle under the same policy. */
  ghost predicate SameDocuments(first: Job, second: Job)
    requires first.ArchiveJob? && second.ArchiveJob?
  {
    RunIdOf(first.bundle) == RunIdOf(second.bundle) ==>
      first.bundle == second.bundle && first.policy == second.policy
  }

  ghost predicate OwnDocumentsOnly(jobs: map<Pid, Job>) {
    forall a, b :: a in jobs && b in jobs && jobs[a].ArchiveJob? && jobs[b].ArchiveJob? ==>
      SameDocuments(jobs[a], jobs[b])
  }

  /** Neither run nor policy of an archival is on file with other contents. */
  ghost predicate Fits(files: Files, job: Job)
    requires job.ArchiveJob?
  {
    && !Conflicts(files, RunDocument(job.bundle))
    && !Conflicts(files, PolicyDocument(RunIdOf(job.bundle), job.policy))
  }

  ghost predicate AllFit(files: Files, jobs: map<Pid, Job>) {
    forall pid :: pid in jobs && jobs[pid].ArchiveJob? ==> Fits(files, jobs[pid])
  }

  ghost predicate AllValid(jobs: map<Pid, Job>) {
    forall pid :: pid in jobs ==> ValidJob(jobs[pid])
  }

  /** Each archival is possible, and no two of them conflict. */
  ghost predicate AllArchivable(files: Files, jobs: map<Pid, Job>) {
    AllValid(jobs) && AllFit(files, jobs) && OwnDocumentsOnly(jobs)
  }

  ghost predicate StoredAs(files: Files, job: Job, after: Files)
    requires job.ArchiveJob?
  {
    after.runs == StoredBy(files, job).runs && after.policies == StoredBy(files, job).policies
  }

  lemma StillFits(files: Files, first: Job, second: Job, after: Files)
    requires first.ArchiveJob? && second.ArchiveJob? && SameDocuments(first, second)
    requires StoredAs(files, first, after) && Fits(files, second)
    ensures Fits(after, second)
  {
  }

  lemma AllStillFit(files: Files, jobs: map<Pid, Job>, pid: Pid, after: Files)
    requires OwnDocumentsOnly(jobs) && pid in jobs && jobs[pid].ArchiveJob? && StoredAs(files, jobs[pid], after)
    requires AllFit(files, jobs)
    ensures AllFit(after, jobs)
  {
    forall q | q in jobs && jobs[q].ArchiveJob?
      ensures Fits(after, jobs[q])
    {
      StillFits(files, jobs[pid], jobs[q], after);
    }
  }

  lemma ArchivedPointer(files: Files, job: Job)
    requires job.ArchiveJob? && CanArchive(files, job.bundle, job.policy)
    ensures
      var after := AfterArchival(files, job.bundle, job.policy, job.number, job.createdAt);
      && PointerOf(after, job.number) == Deliver(PointerOf(files, job.number), Offering(job))
      && StoredAs(files, job, after)
  {
  }

  function WithDone(s: State, pid: Pid, files: Files): State
    requires pid in s.processes
  {
    State(files, s.temporaries, None, s.processes[pid := s.processes[pid].(phase := Done)])
  }

  lemma OneArchives(leq: Order, s: State, pid: Pid, nonce: nat) returns (t: State)
    requires Begins(s, pid, nonce) && ValidJob(s.processes[pid].job) && Fits(s.files, s.processes[pid].job)
    ensures Reaches(leq, s, pid, nonce, t) && t == WithDone(s, pid, t.files)
    ensures StoredAs(s.files, s.processes[pid].job, t.files)
    ensures
      var job := s.processes[pid].job;
      PointerOf(t.files, job.number) == Deliver(PointerOf(s.files, job.number), Offering(job))
  {
    var job := s.processes[pid].job;
    ArchivingAloneRefinesCommand(leq, s, pid, nonce);
    ArchivedPointer(s.files, job);
    t := WithDone(s, pid, AfterArchival(s.files, job.bundle, job.policy, job.number, job.createdAt));
  }

  lemma OneDecides(leq: Order, s: State, pid: Pid, nonce: nat) returns (t: State)
    requires Begins(s, pid, nonce) && Fits(s.files, s.processes[pid].job)
    requires Supersedes(PointerOf(s.files, s.processes[pid].job.number), Offering(s.processes[pid].job))
    ensures Reaches(leq, s, pid, nonce, t) && Decided(t, pid)
    ensures t == Become(s, pid, t.processes[pid].phase).(files := StoredBy(s.files, s.processes[pid].job))
  {
    var reading := AtPointer(s, pid);
    PointerReached(leq, s, pid, nonce);
    t := Step(leq, reading, pid, nonce);
    StepReaches(leq, reading, pid, nonce);
    ReachesOn(leq, s, pid, nonce, reading, t);
    assert t.processes == Become(s, pid, t.processes[pid].phase).processes;
  }

  lemma OneRenames(leq: Order, s: State, pid: Pid, nonce: nat) returns (t: State)
    requires Decided(s, pid) && s.lock.None? && Temporary(pid, nonce) !in s.temporaries
    ensures Reaches(leq, s, pid, nonce, t) && t == WithDone(s, pid, t.files)
    ensures PointerOf(t.files, s.processes[pid].job.number) == Some(Offering(s.processes[pid].job))
  {
    DecidedEnds(leq, s, pid, nonce);
    t := WithDone(s, pid, WithIndex(Write(s.files, PointerOfJob(s.processes[pid].job))));
  }

  // ---------------------------------------------------------------- archivals in turn

  /** Some actions lead to a state that nobody holds the lock in, and in which a nonce is free. */
  ghost predicate Stands(leq: Order, s: State, actions: seq<Action>, t: State, nonce: nat, n: nat,
                         jobs: map<Pid, Job>) {
    && Leads(leq, s, actions, t) && TheseArchivals(actions, n, jobs)
    && t.lock.None? && forall x :: x in t.temporaries ==> x.nonce < nonce
  }

  lemma OnlyPhase(t: State, pid: Pid, job: Job, files: Files)
    requires t.lock.None? && pid !in t.processes
    ensures WithDone(Begun(t, pid, job), pid, files) ==
      State(files, t.temporaries, None, t.processes[pid := Process(job, Done)])
  {
  }

  lemma BegunArchives(leq: Order, t: State, pid: Pid, job: Job, nonce: nat) returns (u: State)
    requires pid !in t.processes && ValidJob(job) && job.ArchiveJob? && Fits(t.files, job)
    requires t.lock.None? && Temporary(pid, nonce) !in t.temporaries
    ensures Reaches(leq, Begun(t, pid, job), pid, nonce, u)
    ensures u == State(u.files, t.temporaries, None, t.processes[pid := Process(job, Done)])
    ensures StoredAs(t.files, job, u.files)
    ensures PointerOf(u.files, job.number) == Deliver(PointerOf(t.files, job.number), Offering(job))
  {
    var begun := Begun(t, pid, job);
    u := OneArchives(leq, begun, pid, nonce);
    OnlyPhase(t, pid, job, u.files);
  }

  lemma OneTurn(leq: Order, s: State, actions: seq<Action>, t: State, nonce: nat, n: nat, jobs: map<Pid, Job>, pid: Pid)
    returns (more: seq<Action>, u: State)
    requires Stands(leq, s, actions, t, nonce, n, jobs)
    requires pid in jobs && ArchivesFor(jobs[pid], n) && ValidJob(jobs[pid]) && Fits(t.files, jobs[pid])
    requires pid !in t.processes
    ensures Stands(leq, s, more, u, nonce, n, jobs)
    ensures u.processes == t.processes[pid := Process(jobs[pid], Done)] && StoredAs(t.files, jobs[pid], u.files)
    ensures PointerOf(u.files, n) == Deliver(PointerOf(t.files, n), Offering(jobs[pid]))
  {
    u := BegunArchives(leq, t, pid, jobs[pid], nonce);
    more := ThenSpawn(leq, s, actions, t, pid, n, jobs);
    more := ThenAlone(leq, s, more, Begun(t, pid, jobs[pid]), pid, nonce, u, n, jobs);
  }

  /** The pointer after archivals one after another. */
  function DeliverAll(o: Option<Pointer>, jobs: map<Pid, Job>, order: seq<Pid>): Option<Pointer> {
    if order == [] then o
    else
      var before, last := DeliverAll(o, jobs, order[..|order| - 1]), order[|order| - 1];
      if last in jobs && jobs[last].ArchiveJob? then Deliver(before, Offering(jobs[last])) else before
  }

  /** Archivals that have not begun. */
  ghost predicate Waiting(t: State, n: nat, jobs: map<Pid, Job>, order: seq<Pid>) {
    Distinct(order) && forall pid :: pid in order ==> pid in jobs && ArchivesFor(jobs[pid], n) && pid !in t.processes
  }

  /** These have begun and are done, and nothing else has. */
  ghost predicate Ran(t: State, u: State, order: seq<Pid>) {
    && (forall pid :: pid in u.processes ==> pid in t.processes || pid in order)
    && (forall pid :: pid in t.processes ==> pid in u.processes && u.processes[pid] == t.processes[pid])
    && (forall pid :: pid in order ==> pid in u.processes && u.processes[pid].phase.Done?)
  }

  lemma RanOne(t: State, before: State, u: State, front: seq<Pid>, pid: Pid, job: Job)
    requires Ran(t, before, front) && u.processes == before.processes[pid := Process(job, Done)]
    requires pid !in t.processes
    ensures Ran(t, u, front + [pid])
  {
  }

  lemma NextInTurn(leq: Order, s: State, actions: seq<Action>, t: State, before: State, nonce: nat, n: nat,
                   jobs: map<Pid, Job>, front: seq<Pid>, pid: Pid)
    returns (more: seq<Action>, u: State)
    requires Stands(leq, s, actions, before, nonce, n, jobs) && AllArchivable(before.files, jobs)
    requires Ran(t, before, front) && pid !in front && pid !in t.processes
    requires pid in jobs && ArchivesFor(jobs[pid], n)
    ensures Stands(leq, s, more, u, nonce, n, jobs) && AllArchivable(u.files, jobs) && Ran(t, u, front + [pid])
    ensures PointerOf(u.files, n) == Deliver(PointerOf(before.files, n), Offering(jobs[pid]))
  {
    more, u := OneTurn(leq, s, actions, before, nonce, n, jobs, pid);
    AllStillFit(before.files, jobs, pid, u.files);
    RanOne(t, before, u, front, pid, jobs[pid]);
  }

  lemma WaitingFront(t: State, n: nat, jobs: map<Pid, Job>, front: seq<Pid>, last: Pid)
    requires Waiting(t, n, jobs, front + [last])
    ensures Waiting(t, n, jobs, front) && last !in front
    ensures last in jobs && ArchivesFor(jobs[last], n) && last !in t.processes
  {
    var order := front + [last];
    assert order[|front|] == last && last in order;
    forall i | 0 <= i < |front|
      ensures order[i] == front[i] && front[i] in order && front[i] != last
    {
    }
  }

  lemma DeliverNext(o: Option<Pointer>, jobs: map<Pid, Job>, front: seq<Pid>, last: Pid)
    requires last in jobs && jobs[last].ArchiveJob?
    ensures DeliverAll(o, jobs, front + [last]) == Deliver(DeliverAll(o, jobs, front), Offering(jobs[last]))
  {
    assert (front + [last])[..|front|] == front;
  }

  lemma LastInTurn(leq: Order, s: State, actions: seq<Action>, t: State, before: State, nonce: nat, n: nat,
                   jobs: map<Pid, Job>, front: seq<Pid>, last: Pid)
    returns (more: seq<Action>, u: State)
    requires Stands(leq, s, actions, before, nonce, n, jobs) && AllArchivable(before.files, jobs)
    requires Ran(t, before, front) && Waiting(t, n, jobs, front + [last])
    requires PointerOf(before.files, n) == DeliverAll(PointerOf(t.files, n), jobs, front)
    ensures Stands(leq, s, more, u, nonce, n, jobs) && AllArchivable(u.files, jobs) && Ran(t, u, front + [last])
    ensures PointerOf(u.files, n) == DeliverAll(PointerOf(t.files, n), jobs, front + [last])
  {
    WaitingFront(t, n, jobs, front, last);
    more, u := NextInTurn(leq, s, actions, t, before, nonce, n, jobs, front, last);
    DeliverNext(PointerOf(t.files, n), jobs, front, last);
  }

  lemma {:induction false} EachInTurn(leq: Order, s: State, actions: seq<Action>, t: State, nonce: nat, n: nat,
                                      jobs: map<Pid, Job>, order: seq<Pid>)
    returns (more: seq<Action>, u: State)
    requires Stands(leq, s, actions, t, nonce, n, jobs) && AllArchivable(t.files, jobs)
    requires Waiting(t, n, jobs, order)
    ensures Stands(leq, s, more, u, nonce, n, jobs) && AllArchivable(u.files, jobs) && Ran(t, u, order)
    ensures PointerOf(u.files, n) == DeliverAll(PointerOf(t.files, n), jobs, order)
  {
    if order == [] {
      more, u := actions, t;
    } else {
      var front, last := order[..|order| - 1], order[|order| - 1];
      assert order == front + [last];
      WaitingFront(t, n, jobs, front, last);
      var before: State;
      more, before := EachInTurn(leq, s, actions, t, nonce, n, jobs, front);
      more, u := LastInTurn(leq, s, more, t, before, nonce, n, jobs, front, last);
    }
  }

  lemma {:induction false} ChainDelivers(o: Option<Pointer>, jobs: map<Pid, Job>, chain: seq<Pid>)
    requires Chain(o, jobs, chain)
    ensures DeliverAll(o, jobs, chain) == ReadBy(o, jobs, chain, |chain|)
  {
    if chain != [] {
      var n := |chain| - 1;
      ChainPrefix(o, jobs, chain, n);
      ChainDelivers(o, jobs, chain[..n]);
      assert Link(o, jobs, chain, n);
    }
  }

  lemma {:induction false} NothingDelivered(o: Option<Pointer>, jobs: map<Pid, Job>, order: seq<Pid>)
    requires forall pid :: pid in order ==> pid in jobs && jobs[pid].ArchiveJob? && !Supersedes(o, Offering(jobs[pid]))
    ensures DeliverAll(o, jobs, order) == o
  {
    if order != [] {
      NothingDelivered(o, jobs, order[..|order| - 1]);
      assert order[|order| - 1] in order;
    }
  }

  lemma {:induction false} Listing(xs: set<Pid>) returns (order: seq<Pid>)
    ensures Distinct(order) && forall x :: x in order <==> x in xs
  {
    if xs == {} {
      order := [];
    } else {
      var x :| x in xs;
      var rest := Listing(xs - {x});
      order := rest + [x];
    }
  }

  // ---------------------------------------------------------------- exactly these

  /** A run whose archivals of a pull request are the given ones, all done, and which leaves a pointer. */
  ghost predicate Leaves(leq: Order, s: State, actions: seq<Action>, n: nat, jobs: map<Pid, Job>, x: Option<Pointer>) {
    && CanRun(leq, s, actions) && TheseArchivals(actions, n, jobs)
    && AllDone(RunAll(leq, s, actions), jobs) && PointerOf(RunAll(leq, s, actions).files, n) == x
  }

  ghost predicate CanBeLeft(leq: Order, s: State, n: nat, jobs: map<Pid, Job>, x: Option<Pointer>) {
    exists actions :: Leaves(leq, s, actions, n, jobs, x)
  }

  lemma Standing(leq: Order, s: State, n: nat, jobs: map<Pid, Job>) returns (nonce: nat)
    requires s.lock.None?
    ensures Stands(leq, s, [], s, nonce, n, jobs)
  {
    nonce := Above(s.temporaries.Keys);
  }

  lemma SkippingLeaves(leq: Order, s: State, n: nat, jobs: map<Pid, Job>) returns (actions: seq<Action>)
    requires s.lock.None? && s.processes == map[] && Archivals(n, jobs) && AllArchivable(s.files, jobs)
    requires forall pid :: pid in jobs && jobs[pid].ArchiveJob? ==>
      !Supersedes(PointerOf(s.files, n), Offering(jobs[pid]))
    ensures Leaves(leq, s, actions, n, jobs, PointerOf(s.files, n))
  {
    var nonce := Standing(leq, s, n, jobs);
    var order := Listing(jobs.Keys);
    var t: State;
    actions, t := EachInTurn(leq, s, [], s, nonce, n, jobs, order);
    NothingDelivered(PointerOf(s.files, n), jobs, order);
  }

  /** All members of a chain but the last are done, and the last one has decided. */
  ghost predicate Held(t: State, jobs: map<Pid, Job>, front: seq<Pid>, last: Pid) {
    && (forall pid :: pid in t.processes ==> pid in front || pid == last)
    && (forall pid :: pid in front ==> pid in t.processes && t.processes[pid].phase.Done?)
    && last in jobs && Decided(t, last) && t.processes[last].job == jobs[last]
  }

  lemma BegunDecides(leq: Order, t: State, pid: Pid, job: Job, nonce: nat) returns (u: State)
    requires pid !in t.processes && job.ArchiveJob? && Fits(t.files, job)
    requires t.lock.None? && Temporary(pid, nonce) !in t.temporaries
    requires Supersedes(PointerOf(t.files, job.number), Offering(job))
    ensures Reaches(leq, Begun(t, pid, job), pid, nonce, u)
    ensures pid in u.processes && u == State(u.files, t.temporaries, None, t.processes[pid := u.processes[pid]])
    ensures Decided(u, pid) && u.processes[pid].job == job && StoredAs(t.files, job, u.files)
  {
    u := OneDecides(leq, Begun(t, pid, job), pid, nonce);
    assert u.processes == t.processes[pid := u.processes[pid]];
  }

  lemma LastDecides(leq: Order, s: State, actions: seq<Action>, t: State, nonce: nat, n: nat, jobs: map<Pid, Job>,
                    pid: Pid)
    returns (more: seq<Action>, u: State)
    requires Stands(leq, s, actions, t, nonce, n, jobs)
    requires pid in jobs && ArchivesFor(jobs[pid], n) && ValidJob(jobs[pid]) && Fits(t.files, jobs[pid])
    requires pid !in t.processes && Supersedes(PointerOf(t.files, n), Offering(jobs[pid]))
    ensures Stands(leq, s, more, u, nonce, n, jobs)
    ensures Decided(u, pid) && u.processes == t.processes[pid := u.processes[pid]] && u.processes[pid].job == jobs[pid]
    ensures StoredAs(t.files, jobs[pid], u.files)
  {
    u := BegunDecides(leq, t, pid, jobs[pid], nonce);
    more := ThenSpawn(leq, s, actions, t, pid, n, jobs);
    more := ThenAlone(leq, s, more, Begun(t, pid, jobs[pid]), pid, nonce, u, n, jobs);
  }

  lemma ChainWaits(o: Option<Pointer>, n: nat, jobs: map<Pid, Job>, chain: seq<Pid>, t: State)
    requires Chain(o, jobs, chain) && Archivals(n, jobs) && t.processes == map[]
    ensures Waiting(t, n, jobs, chain)
  {
    forall pid | pid in chain
      ensures pid in jobs && ArchivesFor(jobs[pid], n)
    {
      var i :| 0 <= i < |chain| && chain[i] == pid;
      assert Link(o, jobs, chain, i);
    }
  }

  lemma ChainSplit(o: Option<Pointer>, jobs: map<Pid, Job>, chain: seq<Pid>)
    requires chain != [] && Chain(o, jobs, chain)
    ensures
      var m := |chain| - 1;
      && Chain(o, jobs, chain[..m]) && chain[m] !in chain[..m]
      && chain[m] in jobs && jobs[chain[m]].ArchiveJob?
      && Supersedes(ReadBy(o, jobs, chain[..m], m), Offering(jobs[chain[m]]))
  {
    var m := |chain| - 1;
    ChainPrefix(o, jobs, chain, m);
    assert Link(o, jobs, chain, m);
  }

  lemma HeldAfter(s: State, before: State, t: State, jobs: map<Pid, Job>, front: seq<Pid>, last: Pid)
    requires s.processes == map[] && Ran(s, before, front) && last !in front && last in jobs
    requires Decided(t, last) && t.processes == before.processes[last := t.processes[last]]
    requires t.processes[last].job == jobs[last]
    ensures Held(t, jobs, front, last)
  {
  }

  /** The members of a chain come one after another, but the last one has only decided. */
  lemma ChainDecides(leq: Order, s: State, n: nat, jobs: map<Pid, Job>, chain: seq<Pid>)
    returns (actions: seq<Action>, t: State, nonce: nat)
    requires s.lock.None? && s.processes == map[] && Archivals(n, jobs) && AllArchivable(s.files, jobs)
    requires chain != [] && Chain(PointerOf(s.files, n), jobs, chain)
    ensures Stands(leq, s, actions, t, nonce, n, jobs) && AllArchivable(t.files, jobs)
    ensures Held(t, jobs, chain[..|chain| - 1], chain[|chain| - 1])
  {
    var o, front, last := PointerOf(s.files, n), chain[..|chain| - 1], chain[|chain| - 1];
    ChainSplit(o, jobs, chain);
    ChainWaits(o, n, jobs, front, s);
    ChainDelivers(o, jobs, front);
    nonce := Standing(leq, s, n, jobs);
    var before: State;
    actions, before := EachInTurn(leq, s, [], s, nonce, n, jobs, front);
    assert ArchivesFor(jobs[last], n) && last !in before.processes;
    actions, t := LastDecides(leq, s, actions, before, nonce, n, jobs, last);
    AllStillFit(before.files, jobs, last, t.files);
    HeldAfter(s, before, t, jobs, front, last);
  }

  lemma OthersWait(t: State, n: nat, jobs: map<Pid, Job>, front: seq<Pid>, last: Pid) returns (order: seq<Pid>)
    requires Held(t, jobs, front, last) && Archivals(n, jobs)
    ensures Waiting(t, n, jobs, order)
    ensures forall pid :: pid in jobs ==> pid in order || pid in front || pid == last
  {
    order := Listing(set pid | pid in jobs && pid !in front && pid != last);
  }

  lemma AllEnded(t: State, u: State, v: State, jobs: map<Pid, Job>, front: seq<Pid>, last: Pid, order: seq<Pid>)
    requires Held(t, jobs, front, last) && Ran(t, u, order) && last in u.processes
    requires v.processes == u.processes[last := u.processes[last].(phase := Done)]
    requires forall pid :: pid in jobs ==> pid in order || pid in front || pid == last
    ensures AllDone(v, jobs)
  {
  }

  /** Everyone else comes and goes before the last member of a chain renames. */
  lemma ChainLeaves(leq: Order, s: State, n: nat, jobs: map<Pid, Job>, chain: seq<Pid>) returns (actions: seq<Action>)
    requires s.lock.None? && s.processes == map[] && Archivals(n, jobs) && AllArchivable(s.files, jobs)
    requires chain != [] && Chain(PointerOf(s.files, n), jobs, chain)
    ensures Leaves(leq, s, actions, n, jobs, ReadBy(PointerOf(s.files, n), jobs, chain, |chain|))
  {
    var front, last := chain[..|chain| - 1], chain[|chain| - 1];
    var t, nonce;
    actions, t, nonce := ChainDecides(leq, s, n, jobs, chain);
    var order := OthersWait(t, n, jobs, front, last);
    var u: State;
    actions, u := EachInTurn(leq, s, actions, t, nonce, n, jobs, order);
    var v := OneRenames(leq, u, last, nonce);
    actions := ThenAlone(leq, s, actions, u, last, nonce, v, n, jobs);
    AllEnded(t, u, v, jobs, front, last, order);
    assert ArchivesFor(jobs[last], n);
  }

  lemma LeftLeavable(leq: Order, s: State, actions: seq<Action>, n: nat, jobs: map<Pid, Job>)
    requires TotalOrder(leq) && Quiet(s) && Archivals(n, jobs)
    requires CanRun(leq, s, actions) && TheseArchivals(actions, n, jobs) && AllDone(RunAll(leq, s, actions), jobs)
    ensures Leavable(PointerOf(s.files, n), jobs, PointerOf(RunAll(leq, s, actions).files, n))
  {
    RunUnderway(leq, PointerOf(s.files, n), s, actions, n, jobs);
    DoneLeavable(PointerOf(s.files, n), RunAll(leq, s, actions), n, jobs);
  }

  lemma LeavableLeft(leq: Order, s: State, n: nat, jobs: map<Pid, Job>, x: Option<Pointer>)
    returns (actions: seq<Action>)
    requires s.lock.None? && s.processes == map[] && Archivals(n, jobs) && AllArchivable(s.files, jobs)
    requires Leavable(PointerOf(s.files, n), jobs, x)
    ensures Leaves(leq, s, actions, n, jobs, x)
  {
    var o := PointerOf(s.files, n);
    if forall pid :: pid in jobs && jobs[pid].ArchiveJob? ==> !Supersedes(o, Offering(jobs[pid])) {
      actions := SkippingLeaves(leq, s, n, jobs);
    } else {
      var chain :| chain != [] && Chain(o, jobs, chain) && ReadBy(o, jobs, chain, |chain|) == x;
      actions := ChainLeaves(leq, s, n, jobs, chain);
    }
  }

  /** Any number of archivals of a pull request, interleaved with each other and with any other jobs, can
      leave exactly these pointers: the end of any chain in which each pointer supersedes the one before it,
      starting from the pointer that was there, or that one itself if none of them supersedes it. */
  lemma OverlapsLeaveExactly(leq: Order, s: State, n: nat, jobs: map<Pid, Job>, x: Option<Pointer>)
    requires TotalOrder(leq) && Quiet(s) && Archivals(n, jobs) && AllArchivable(s.files, jobs)
    ensures CanBeLeft(leq, s, n, jobs, x) <==> Leavable(PointerOf(s.files, n), jobs, x)
  {
    if actions :| Leaves(leq, s, actions, n, jobs, x) {
      LeftLeavable(leq, s, actions, n, jobs);
    }
    if Leavable(PointerOf(s.files, n), jobs, x) {
      var actions := LeavableLeft(leq, s, n, jobs, x);
    }
  }

  // ---------------------------------------------------------------- two archivals

  /** What serial archivals of two pointers leave, in either order. */
  ghost predicate SerialOutcome(o: Option<Pointer>, p: Pointer, q: Pointer, x: Option<Pointer>) {
    x == Deliver(Deliver(o, p), q) || x == Deliver(Deliver(o, q), p)
  }

  /** What overlapping ones can leave: if both supersede the pointer that was there, either one. */
  ghost predicate OverlapOutcome(o: Option<Pointer>, p: Pointer, q: Pointer, x: Option<Pointer>) {
    SerialOutcome(o, p, q, x) || (Supersedes(o, p) && Supersedes(o, q) && (x == Some(p) || x == Some(q)))
  }

  lemma LeavableIsOutcome(o: Option<Pointer>, a: Pid, first: Job, b: Pid, second: Job, x: Option<Pointer>)
    requires a != b && first.ArchiveJob? && second.ArchiveJob? && Leavable(o, map[a := first, b := second], x)
    ensures OverlapOutcome(o, Offering(first), Offering(second), x)
  {
    var jobs := map[a := first, b := second];
    assert a in jobs && jobs[a] == first && b in jobs && jobs[b] == second;
    if x.Some? && Reached(o, jobs, x.value) {
      var chain :| chain != [] && Chain(o, jobs, chain) && ReadBy(o, jobs, chain, |chain|) == Some(x.value);
      ChainOfTwo(o, a, first, b, second, chain);
    }
  }

  lemma OutcomeIsLeavable(o: Option<Pointer>, a: Pid, first: Job, b: Pid, second: Job, x: Option<Pointer>)
    requires a != b && first.ArchiveJob? && second.ArchiveJob?
    requires OverlapOutcome(o, Offering(first), Offering(second), x)
    ensures Leavable(o, map[a := first, b := second], x)
  {
    var jobs := map[a := first, b := second];
    assert a in jobs && b in jobs && forall pid :: pid in jobs ==> pid == a || pid == b;
    TwoReached(o, a, first, b, second);
    TwoReached(o, b, second, a, first);
    assert map[b := second, a := first] == jobs;
  }

  lemma LeavableOfTwo(o: Option<Pointer>, a: Pid, first: Job, b: Pid, second: Job, x: Option<Pointer>)
    requires a != b && first.ArchiveJob? && second.ArchiveJob?
    ensures Leavable(o, map[a := first, b := second], x) <==> OverlapOutcome(o, Offering(first), Offering(second), x)
  {
    var jobs := map[a := first, b := second];
    assert a in jobs && b in jobs && forall pid :: pid in jobs ==> pid == a || pid == b;
    if Leavable(o, jobs, x) {
      LeavableIsOutcome(o, a, first, b, second, x);
    }
    if OverlapOutcome(o, Offering(first), Offering(second), x) {
      OutcomeIsLeavable(o, a, first, b, second, x);
    }
  }

  lemma TwoAtMost(chain: seq<Pid>, a: Pid, b: Pid)
    requires forall i :: 0 <= i < |chain| ==> chain[i] == a || chain[i] == b
    ensures |chain| > 2 ==> !Distinct(chain)
  {
    if |chain| > 2 {
      assert chain[0] == chain[1] || chain[0] == chain[2] || chain[1] == chain[2];
    }
  }

  lemma ChainOfTwo(o: Option<Pointer>, a: Pid, first: Job, b: Pid, second: Job, chain: seq<Pid>)
    requires a != b && first.ArchiveJob? && second.ArchiveJob?
    requires chain != [] && Chain(o, map[a := first, b := second], chain)
    ensures OverlapOutcome(o, Offering(first), Offering(second),
                           ReadBy(o, map[a := first, b := second], chain, |chain|))
  {
    var jobs := map[a := first, b := second];
    forall i | 0 <= i < |chain|
      ensures chain[i] == a || chain[i] == b
    {
      assert Link(o, jobs, chain, i);
    }
    TwoAtMost(chain, a, b);
    assert Link(o, jobs, chain, 0);
    if |chain| > 1 {
      assert Link(o, jobs, chain, 1) && chain[0] != chain[1];
    }
  }

  lemma ChainOfOne(o: Option<Pointer>, jobs: map<Pid, Job>, pid: Pid)
    requires pid in jobs && jobs[pid].ArchiveJob? && Supersedes(o, Offering(jobs[pid]))
    ensures Chain(o, jobs, [pid]) && ReadBy(o, jobs, [pid], 1) == Some(Offering(jobs[pid]))
  {
    assert Link(o, jobs, [pid], 0);
  }

  lemma TwoReached(o: Option<Pointer>, a: Pid, first: Job, b: Pid, second: Job)
    requires a != b && first.ArchiveJob? && second.ArchiveJob?
    ensures
      var jobs, p, q := map[a := first, b := second], Offering(first), Offering(second);
      && (Supersedes(o, p) ==> Reached(o, jobs, p))
      && (Supersedes(o, p) && Supersedes(Some(p), q) ==> Reached(o, jobs, q))
  {
    var jobs, p := map[a := first, b := second], Offering(first);
    if Supersedes(o, p) {
      ChainGoesOn(o, jobs, [], a);
      ChainOfOne(o, jobs, a);
      if Supersedes(Some(p), Offering(second)) {
        ChainGoesOn(o, jobs, [a], b);
      }
    }
  }

  /** When a later rename can undo an earlier one. */
  ghost predicate CanLose(o: Option<Pointer>, p: Pointer, q: Pointer) {
    && Supersedes(o, p) && Supersedes(o, q)
    && (Supersedes(Some(p), q) <==> !Supersedes(Some(q), p))
  }

  lemma LosesIff(o: Option<Pointer>, p: Pointer, q: Pointer)
    ensures (exists x :: OverlapOutcome(o, p, q, x) && !SerialOutcome(o, p, q, x)) <==> CanLose(o, p, q)
  {
    if CanLose(o, p, q) {
      var x := if Supersedes(Some(p), q) then Some(p) else Some(q);
      assert OverlapOutcome(o, p, q, x) && !SerialOutcome(o, p, q, x);
    }
  }

  /** Two archivals can leave what no serial order leaves exactly when both supersede the pointer that was
      there and one of them supersedes the other, but not the other way round. */
  lemma OverlapLosesIff(leq: Order, s: State, n: nat, a: Pid, first: Job, b: Pid, second: Job)
    requires TotalOrder(leq) && Quiet(s) && a != b && ArchivesFor(first, n) && ArchivesFor(second, n)
    requires AllArchivable(s.files, map[a := first, b := second])
    ensures
      var jobs, o, p, q := map[a := first, b := second], PointerOf(s.files, n), Offering(first), Offering(second);
      (exists x :: CanBeLeft(leq, s, n, jobs, x) && !SerialOutcome(o, p, q, x)) <==> CanLose(o, p, q)
  {
    var jobs, o, p, q := map[a := first, b := second], PointerOf(s.files, n), Offering(first), Offering(second);
    LosesIff(o, p, q);
    forall x
      ensures CanBeLeft(leq, s, n, jobs, x) <==> OverlapOutcome(o, p, q, x)
    {
      OverlapsLeaveExactly(leq, s, n, jobs, x);
      LeavableOfTwo(o, a, first, b, second, x);
    }
  }
}
