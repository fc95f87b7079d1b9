/** The publication protocol. */
module Protocol {
  import opened Texts
  import opened Bundles
  import opened Policies
  import opened Grouping
  import opened Store
  import opened Promotion
  import Sorting

  // Any number of processes store, archive and promote runs in one directory. Every file operation is one
  // atomic step, processes interleave in any order and may crash before any step, and an operator may
  // clear away what a crashed process left behind.

  // ---------------------------------------------------------------- processes

  type Pid = nat

  datatype Job =
    | StoreJob(bundle: Bundle, policy: Policy)
    | ArchiveJob(bundle: Bundle, policy: Policy, number: nat, createdAt: Text)
    | PromoteJob(publication: Publication, policy: Policy)

  /** What a process does after a write. */
  datatype Next =
    | Release
    | WriteIndex(runs: seq<IndexEntry>)
    | UpdatePointer
    | EnsureIndex
    | Finish

  /** The three file operations of one write: prepare a temporary file, link or rename it, remove it. */
  datatype Stage = Prepare | Install(nonce: nat) | Remove(nonce: nat, ok: bool)

  datatype Phase =
    | Locking
    | ReadingRun
    | ReadingPublication(bundle: Bundle)
    | ReadingIndex(bundle: Bundle, previous: Option<Publication>)
    | ReadingHistory(bundle: Bundle, previous: Option<Publication>, index: seq<IndexEntry>, history: seq<Bundle>)
    | Writing(document: Document, immutable: bool, stage: Stage, next: Next)
    | Unlocking(ok: bool)
    | ReadingPointer
    | LookingForIndex
    | Done
    | Aborted
    | Crashed

  datatype Process = Process(job: Job, phase: Phase)

  /** Temporary files carry a random name, so no two processes share one. */
  datatype Temporary = Temporary(owner: Pid, nonce: nat)

  datatype State = State(
    files: Files,
    temporaries: map<Temporary, Document>,
    lock: Option<Pid>,
    processes: map<Pid, Process>)

  predicate Live(phase: Phase) {
    !phase.Done? && !phase.Aborted? && !phase.Crashed?
  }

  predicate UnderLock(next: Next) {
    next.Release? || next.WriteIndex?
  }

  /** Between taking the lock and removing it. */
  predicate Critical(phase: Phase) {
    || phase.ReadingRun? || phase.ReadingPublication? || phase.ReadingIndex? || phase.ReadingHistory?
    || phase.Unlocking?
    || (phase.Writing? && UnderLock(phase.next))
  }

  // ---------------------------------------------------------------- steps

  function Recorded(files: Files, number: nat): Option<Publication> {
    if number in files.publications then Some(files.publications[number]) else None
  }

  /** The checks between reading the history and writing. */
  ghost function Decide(leq: Order, p: Publication, bundle: Bundle, previous: Option<Publication>,
                        index: seq<IndexEntry>, history: seq<Bundle>): Phase {
    var included := Included(index, p.entry.run);
    if included && previous.None? then Unlocking(false)
    else if !Acceptable(if included then history else history + [bundle]) then Unlocking(false)
    else Writing(PublicationDocument(p), true, Prepare,
                 WriteIndex(Sorting.Sort(EntryOrder(leq), NextEntries(index, p))))
  }

  function AfterWrite(next: Next, ok: bool): Phase {
    match next
    case Release => Unlocking(ok)
    case WriteIndex(runs) => if ok then Writing(IndexDocument(runs), false, Prepare, Release) else Unlocking(false)
    case UpdatePointer => if ok then ReadingPointer else Aborted
    case EnsureIndex => if ok then LookingForIndex else Aborted
    case Finish => if ok then Done else Aborted
  }

  function AfterUnlock(job: Job, ok: bool): Phase {
    if !ok then Aborted
    else if job.ArchiveJob? then Writing(PolicyDocument(RunIdOf(job.bundle), job.policy), true, Prepare, UpdatePointer)
    else Done
  }

  function Become(s: State, pid: Pid, phase: Phase): State
    requires pid in s.processes
  {
    s.(processes := s.processes[pid := s.processes[pid].(phase := phase)])
  }

  /** A step of a promotion that reads. */
  ghost function Read(leq: Order, files: Files, p: Publication, policy: Policy, phase: Phase): Phase {
    match phase
    case ReadingRun =>
      if RunVouches(files, p, policy) then ReadingPublication(files.runs[p.entry.run]) else Unlocking(false)
    case ReadingPublication(bundle) =>
      if RecordFree(files, p) then ReadingIndex(bundle, Recorded(files, p.pullRequest.number)) else Unlocking(false)
    case ReadingIndex(bundle, previous) =>
      if DistinctEntries(IndexOf(files)) then ReadingHistory(bundle, previous, IndexOf(files), []) else Unlocking(false)
    case ReadingHistory(bundle, previous, index, history) =>
      if |history| >= |index| then Decide(leq, p, bundle, previous, index, history)
      else if Readable(files, index[|history|].run) then
        ReadingHistory(bundle, previous, index, history + [files.runs[index[|history|].run]])
      else Unlocking(false)
    case _ => phase
  }

  /** The link or rename of a prepared temporary file. */
  function InstallStep(s: State, pid: Pid, phase: Phase): State
    requires pid in s.processes && phase.Writing? && phase.stage.Install?
  {
    var t := Temporary(pid, phase.stage.nonce);
    var existing := Stored(s.files, phase.document);
    if t !in s.temporaries then
      Become(s, pid, phase.(stage := Remove(phase.stage.nonce, false)))
    else if phase.immutable && existing.Some? then
      Become(s, pid, phase.(stage := Remove(phase.stage.nonce, existing.value == phase.document)))
    else
      Become(s, pid, phase.(stage := Remove(phase.stage.nonce, true))).(
      files := Write(s.files, s.temporaries[t]),
      temporaries := if phase.immutable then s.temporaries else s.temporaries - {t})
  }

  /** One step of a live process. The nonce names the temporary file if the step creates one. */
  ghost function Step(leq: Order, s: State, pid: Pid, nonce: nat): State
    requires pid in s.processes
  {
    var job, phase := s.processes[pid].job, s.processes[pid].phase;
    match phase
    case Locking =>
      if s.lock.Some? then Become(s, pid, Aborted)
      else
        Become(s, pid,
               if job.PromoteJob? then ReadingRun else Writing(RunDocument(job.bundle), true, Prepare, Release))
        .(lock := Some(pid))
    case Writing(document, immutable, stage, next) =>
      (match stage
       case Prepare =>
         Become(s, pid, phase.(stage := Install(nonce)))
         .(temporaries := s.temporaries[Temporary(pid, nonce) := document])
       case Install(_) => InstallStep(s, pid, phase)
       case Remove(n, ok) =>
         Become(s, pid, AfterWrite(next, ok)).(temporaries := s.temporaries - {Temporary(pid, n)}))
    case Unlocking(ok) => Become(s, pid, AfterUnlock(job, ok)).(lock := None)
    case ReadingPointer =>
      if !job.ArchiveJob? then s
      else
        var pointer := Pointer(RunIdOf(job.bundle), job.createdAt);
        Become(s, pid, if Supersedes(PointerOf(s.files, job.number), pointer)
                       then Writing(PointerDocument(job.number, pointer), false, Prepare, EnsureIndex)
                       else LookingForIndex)
    case LookingForIndex =>
      Become(s, pid, if s.files.index.None? then Writing(IndexDocument([]), true, Prepare, Finish) else Done)
    case _ =>
      if job.PromoteJob? then Become(s, pid, Read(leq, s.files, job.publication, job.policy, phase)) else s
  }

  datatype Action =
    | Spawn(pid: Pid, job: Job)
    | Advance(pid: Pid, nonce: nat)
    | Crash(pid: Pid)
    | ClearLock
    | ClearTemporary(temporary: Temporary)

  /** Commands validate their input before they touch the store. */
  ghost predicate ValidJob(job: Job) {
    match job
    case StoreJob(bundle, policy) => Publishable(bundle, policy)
    case ArchiveJob(bundle, policy, _, _) => Publishable(bundle, policy) && Archivable(bundle)
    case PromoteJob(p, _) => WellTypedPublication(p)
  }

  predicate IsLive(s: State, pid: Pid) {
    pid in s.processes && Live(s.processes[pid].phase)
  }

  predicate IsCrashed(s: State, pid: Pid) {
    pid in s.processes && s.processes[pid].phase.Crashed?
  }

  /** The next step creates a temporary file, under a name that nothing has. */
  predicate Prepares(phase: Phase) {
    phase.Writing? && phase.stage.Prepare?
  }

  /** An operator removes leftovers only of a process that has stopped. */
  ghost predicate Enabled(s: State, a: Action) {
    match a
    case Spawn(pid, job) => pid !in s.processes
    case Advance(pid, nonce) =>
      && IsLive(s, pid)
      && (Prepares(s.processes[pid].phase) ==> Temporary(pid, nonce) !in s.temporaries)
    case Crash(pid) => IsLive(s, pid)
    case ClearLock => s.lock.Some? && IsCrashed(s, s.lock.value)
    case ClearTemporary(t) => !IsLive(s, t.owner)
  }

  ghost function Apply(leq: Order, s: State, a: Action): State
    requires Enabled(s, a)
  {
    match a
    case Spawn(pid, job) =>
      s.(processes := s.processes[pid := Process(job, if ValidJob(job) then Locking else Aborted)])
    case Advance(pid, nonce) => Step(leq, s, pid, nonce)
    case Crash(pid) => Become(s, pid, Crashed)
    case ClearLock => s.(lock := None)
    case ClearTemporary(t) => s.(temporaries := s.temporaries - {t})
  }

  // ---------------------------------------------------------------- the invariant

  /** The pointer that an archival offers for its pull request. */
  function PointerOfJob(job: Job): Document
    requires job.ArchiveJob?
  {
    PointerDocument(job.number, Pointer(RunIdOf(job.bundle), job.createdAt))
  }

  /** What a process that is inside a write knows. */
  ghost predicate WriteKnows(leq: Order, files: Files, job: Job, phase: Phase)
    requires phase.Writing?
  {
    match phase.next
    case Release =>
      if job.PromoteJob? then
        && phase.document.IndexDocument? && !phase.immutable
        && (!phase.stage.Remove? ==>
          && PublishedAs(files, job.publication)
          && CanPromote(files, job.publication, job.policy)
          && phase.document.runs == NextIndex(leq, files, job.publication))
      else
        phase.document == RunDocument(job.bundle) && phase.immutable && Publishable(job.bundle, job.policy)
    case WriteIndex(runs) =>
      && job.PromoteJob? && phase.immutable
      && phase.document == PublicationDocument(job.publication)
      && CanPromote(files, job.publication, job.policy)
      && runs == NextIndex(leq, files, job.publication)
      && (phase.stage.Remove? && phase.stage.ok ==> PublishedAs(files, job.publication))
    case UpdatePointer => job.ArchiveJob? && phase.document.PolicyDocument?
    case EnsureIndex => job.ArchiveJob? && !phase.immutable && phase.document == PointerOfJob(job)
    case Finish => job.ArchiveJob? && phase.document == IndexDocument([]) && phase.immutable
  }

  /** The history read so far. */
  ghost predicate HistoryRead(files: Files, index: seq<IndexEntry>, history: seq<Bundle>) {
    && index == IndexOf(files) && DistinctEntries(index) && |history| <= |index|
    && forall j :: 0 <= j < |history| ==> Readable(files, index[j].run) && history[j] == files.runs[index[j].run]
  }

  ghost predicate ReadSoFar(files: Files, job: Job, bundle: Bundle)
  {
    && job.PromoteJob?
    && RunVouches(files, job.publication, job.policy)
    && files.runs[job.publication.entry.run] == bundle
  }

  /** What a process knows about the files in each phase. */
  ghost predicate Knows(leq: Order, files: Files, job: Job, phase: Phase) {
    match phase
    case Locking => ValidJob(job)
    case ReadingRun => job.PromoteJob?
    case ReadingPublication(bundle) => ReadSoFar(files, job, bundle)
    case ReadingIndex(bundle, previous) =>
      && ReadSoFar(files, job, bundle)
      && RecordFree(files, job.publication) && previous == Recorded(files, job.publication.pullRequest.number)
    case ReadingHistory(bundle, previous, index, history) =>
      && ReadSoFar(files, job, bundle)
      && RecordFree(files, job.publication) && previous == Recorded(files, job.publication.pullRequest.number)
      && HistoryRead(files, index, history)
    case Writing(_, _, _, _) => WriteKnows(leq, files, job, phase)
    case ReadingPointer => job.ArchiveJob?
    case LookingForIndex => job.ArchiveJob?
    case _ => true
  }

  ghost predicate AllKnow(leq: Order, s: State) {
    forall pid :: pid in s.processes ==> Knows(leq, s.files, s.processes[pid].job, s.processes[pid].phase)
  }

  /** The lock is held by the one process in its critical phase, or by one that crashed there. */
  ghost predicate Locked(s: State) {
    && (forall pid :: pid in s.processes && Critical(s.processes[pid].phase) ==> s.lock == Some(pid))
    && (s.lock.Some? ==>
      && s.lock.value in s.processes
      && (Critical(s.processes[s.lock.value].phase) || s.processes[s.lock.value].phase.Crashed?))
  }

  /** A prepared temporary file is there, with its contents, until its process links or renames it. */
  ghost predicate Prepared(s: State, pid: Pid)
    requires pid in s.processes
  {
    var phase := s.processes[pid].phase;
    phase.Writing? && phase.stage.Install? ==>
      var t := Temporary(pid, phase.stage.nonce);
      t in s.temporaries && s.temporaries[t] == phase.document
  }

  ghost predicate AllPrepared(s: State) {
    forall pid :: pid in s.processes ==> Prepared(s, pid)
  }

  ghost predicate Invariant(leq: Order, s: State) {
    Intact(s.files) && Locked(s) && AllKnow(leq, s) && AllPrepared(s)
  }

  // ---------------------------------------------------------------- what other processes do not disturb

  /** The files that the invariant speaks about are the same. A missing index counts as an empty one. */
  predicate SameCore(f: Files, g: Files) {
    f.runs == g.runs && f.publications == g.publications && IndexOf(f) == IndexOf(g)
  }

  lemma CanPromoteSame(f: Files, g: Files, p: Publication, policy: Policy)
    requires SameCore(f, g) && CanPromote(f, p, policy)
    ensures CanPromote(g, p, policy)
  {
  }

  lemma HistoryReadSame(f: Files, g: Files, index: seq<IndexEntry>, history: seq<Bundle>)
    requires SameCore(f, g) && HistoryRead(f, index, history)
    ensures HistoryRead(g, index, history)
  {
  }

  lemma KnowsSame(leq: Order, f: Files, g: Files, job: Job, phase: Phase)
    requires SameCore(f, g) && Knows(leq, f, job, phase)
    ensures Knows(leq, g, job, phase)
  {
    if job.PromoteJob? {
      if CanPromote(f, job.publication, job.policy) {
        CanPromoteSame(f, g, job.publication, job.policy);
      }
    }
    if phase.ReadingHistory? {
      HistoryReadSame(f, g, phase.index, phase.history);
    }
  }

  /** Outside the lock a process knows nothing about the files. */
  lemma KnowsAnywhere(leq: Order, f: Files, g: Files, job: Job, phase: Phase)
    requires !Critical(phase) && Knows(leq, f, job, phase)
    ensures Knows(leq, g, job, phase)
  {
  }

  // ---------------------------------------------------------------- the writes that change the core

  lemma IndexBackedAfterRun(files: Files, bundle: Bundle)
    requires IndexBacked(files) && RunIdOf(bundle) !in files.runs
    ensures IndexBacked(Write(files, RunDocument(bundle)))
  {
    var after := Write(files, RunDocument(bundle));
    forall e | e in IndexOf(after)
      ensures Backed(after, e)
    {
      assert Backed(files, e);
    }
    assert BundlesAt(files, IndexOf(files)) == BundlesAt(after, IndexOf(after));
  }

  lemma RunsFiledAfterRun(files: Files, bundle: Bundle, policy: Policy)
    requires RunsFiled(files) && Publishable(bundle, policy)
    ensures RunsFiled(Write(files, RunDocument(bundle)))
  {
    var after := Write(files, RunDocument(bundle));
    forall id | id in after.runs
      ensures Readable(after, id)
    {
      if id != RunIdOf(bundle) {
        assert Readable(files, id);
      }
    }
  }

  lemma PublicationsFiledAfterRun(files: Files, bundle: Bundle)
    requires PublicationsFiled(files) && RunIdOf(bundle) !in files.runs
    ensures PublicationsFiled(Write(files, RunDocument(bundle)))
  {
    var after := Write(files, RunDocument(bundle));
    forall n | n in after.publications
      ensures
        && after.publications[n].pullRequest.number == n
        && after.publications[n].entry.run in after.runs
        && Vouches(after.runs[after.publications[n].entry.run], after.publications[n])
    {
      assert n in files.publications;
    }
  }

  lemma FiledAfterRun(files: Files, bundle: Bundle, policy: Policy)
    requires RunsFiled(files) && PublicationsFiled(files)
    requires Publishable(bundle, policy) && RunIdOf(bundle) !in files.runs
    ensures
      var after := Write(files, RunDocument(bundle));
      RunsFiled(after) && PublicationsFiled(after)
  {
    RunsFiledAfterRun(files, bundle, policy);
    PublicationsFiledAfterRun(files, bundle);
  }

  /** A new run file leaves everything else as it was. */
  lemma IntactAfterRun(files: Files, bundle: Bundle, policy: Policy)
    requires Intact(files) && Publishable(bundle, policy) && RunIdOf(bundle) !in files.runs
    ensures Intact(Write(files, RunDocument(bundle)))
  {
    IndexBackedAfterRun(files, bundle);
    FiledAfterRun(files, bundle, policy);
  }

  lemma IndexBackedAfterPublication(files: Files, p: Publication)
    requires IndexBacked(files) && RecordFree(files, p)
    ensures IndexBacked(Write(files, PublicationDocument(p)))
  {
  }

  lemma PublicationsFiledAfterPublication(files: Files, p: Publication)
    requires PublicationsFiled(files) && p.entry.run in files.runs && Vouches(files.runs[p.entry.run], p)
    ensures PublicationsFiled(Write(files, PublicationDocument(p)))
  {
  }

  /** A publication record for a vouched run leaves the store intact, before the index names it. */
  lemma IntactAfterPublication(files: Files, p: Publication)
    requires Intact(files) && RecordFree(files, p)
    requires p.entry.run in files.runs && Vouches(files.runs[p.entry.run], p)
    ensures Intact(Write(files, PublicationDocument(p)))
  {
    IndexBackedAfterPublication(files, p);
    PublicationsFiledAfterPublication(files, p);
  }

  lemma GrowsByRecords(files: Files, bundle: Bundle, p: Publication)
    ensures RunIdOf(bundle) !in files.runs ==> Grows(files, Write(files, RunDocument(bundle)))
    ensures RecordFree(files, p) ==> Grows(files, Write(files, PublicationDocument(p)))
  {
  }

  lemma WritingAgain(leq: Order, files: Files, p: Publication)
    requires PublishedAs(files, p)
    ensures Write(files, IndexDocument(NextIndex(leq, files, p))) == Promoted(leq, files, p)
  {
  }

  lemma IntactAfterIndex(leq: Order, files: Files, p: Publication, policy: Policy)
    requires TotalOrder(leq) && Intact(files) && CanPromote(files, p, policy) && PublishedAs(files, p)
    ensures
      var after := Write(files, IndexDocument(NextIndex(leq, files, p)));
      Intact(after) && Grows(files, after)
  {
    WritingAgain(leq, files, p);
    PromotionKeepsIntact(leq, files, p, policy);
  }

  /** Publishing the record does not disturb the plan to update the index. */
  lemma PlanStands(leq: Order, files: Files, p: Publication, policy: Policy)
    requires CanPromote(files, p, policy)
    ensures
      var after := Write(files, PublicationDocument(p));
      CanPromote(after, p, policy) && NextIndex(leq, after, p) == NextIndex(leq, files, p) && PublishedAs(after, p)
  {
  }

  // ---------------------------------------------------------------- one step of one process

  lemma HistoryComplete(files: Files, p: Publication, policy: Policy, index: seq<IndexEntry>, history: seq<Bundle>)
    requires RunVouches(files, p, policy) && HistoryRead(files, index, history) && |history| == |index|
    ensures AllReadable(files, index)
    ensures AllReadable(files, NextEntries(index, p))
    ensures
      var bundle := files.runs[p.entry.run];
      BundlesAt(files, NextEntries(index, p)) ==
      if Included(index, p.entry.run) then history else history + [bundle]
  {
  }

  /** What the checks decide is what a promotion needs. */
  lemma DecideKnows(leq: Order, files: Files, p: Publication, policy: Policy, previous: Option<Publication>,
                    index: seq<IndexEntry>, history: seq<Bundle>)
    requires RunVouches(files, p, policy) && RecordFree(files, p)
    requires previous == Recorded(files, p.pullRequest.number)
    requires HistoryRead(files, index, history) && |history| == |index|
    ensures
      var phase := Decide(leq, p, files.runs[p.entry.run], previous, index, history);
      if IndexAllows(files, p) then
        phase == Writing(PublicationDocument(p), true, Prepare, WriteIndex(NextIndex(leq, files, p)))
      else phase == Unlocking(false)
  {
    HistoryComplete(files, p, policy, index, history);
  }

  lemma ReadKnows(leq: Order, files: Files, job: Job, phase: Phase)
    requires job.PromoteJob? && Knows(leq, files, job, phase)
    requires phase.ReadingRun? || phase.ReadingPublication? || phase.ReadingIndex? || phase.ReadingHistory?
    ensures Knows(leq, files, job, Read(leq, files, job.publication, job.policy, phase))
    ensures Critical(Read(leq, files, job.publication, job.policy, phase))
  {
    if phase.ReadingHistory? && |phase.history| >= |phase.index| {
      DecideKnows(leq, files, job.publication, job.policy, phase.previous, phase.index, phase.history);
    }
  }

  /** What a process can rely on when it takes a step. */
  ghost predicate Ready(leq: Order, s: State, pid: Pid) {
    pid in s.processes && Prepared(s, pid) && Knows(leq, s.files, s.processes[pid].job, s.processes[pid].phase)
  }

  lemma LinkedRecordCore(leq: Order, s: State, pid: Pid)
    requires Intact(s.files) && Ready(leq, s, pid)
    requires
      var phase := s.processes[pid].phase;
      phase.Writing? && phase.stage.Install? && phase.next.WriteIndex?
    ensures
      var after := InstallStep(s, pid, s.processes[pid].phase);
      Intact(after.files) && Grows(s.files, after.files)
  {
    var p := s.processes[pid].job.publication;
    IntactAfterPublication(s.files, p);
    GrowsByRecords(s.files, s.files.runs[p.entry.run], p);
  }

  lemma LinkedRecordKnows(leq: Order, s: State, pid: Pid)
    requires Ready(leq, s, pid)
    requires
      var phase := s.processes[pid].phase;
      phase.Writing? && phase.stage.Install? && phase.next.WriteIndex?
    ensures
      var process := s.processes[pid];
      var after := InstallStep(s, pid, process.phase);
      Knows(leq, after.files, process.job, after.processes[pid].phase)
  {
    PlanStands(leq, s.files, s.processes[pid].job.publication, s.processes[pid].job.policy);
  }

  lemma RenamedIndex(leq: Order, s: State, pid: Pid)
    requires TotalOrder(leq) && Intact(s.files) && Ready(leq, s, pid)
    requires
      var phase := s.processes[pid].phase;
      phase.Writing? && phase.stage.Install? && phase.next.Release? && s.processes[pid].job.PromoteJob?
    ensures
      var process := s.processes[pid];
      var after := InstallStep(s, pid, process.phase);
      && Intact(after.files) && Grows(s.files, after.files)
      && Knows(leq, after.files, process.job, after.processes[pid].phase)
  {
    var job := s.processes[pid].job;
    IntactAfterIndex(leq, s.files, job.publication, job.policy);
  }

  lemma RunInstalled(leq: Order, s: State, pid: Pid)
    requires Ready(leq, s, pid)
    requires
      var phase := s.processes[pid].phase;
      phase.Writing? && phase.stage.Install? && phase.next.Release? && !s.processes[pid].job.PromoteJob?
    ensures
      var process := s.processes[pid];
      var after := InstallStep(s, pid, process.phase);
      && after.files ==
        (if RunIdOf(process.job.bundle) in s.files.runs then s.files
         else Write(s.files, RunDocument(process.job.bundle)))
      && Publishable(process.job.bundle, process.job.policy)
      && Knows(leq, after.files, process.job, after.processes[pid].phase)
  {
  }

  lemma GrowsByRun(files: Files, bundle: Bundle)
    requires RunIdOf(bundle) !in files.runs
    ensures Grows(files, Write(files, RunDocument(bundle)))
  {
  }

  lemma LinkedRun(leq: Order, s: State, pid: Pid)
    requires Intact(s.files) && Ready(leq, s, pid)
    requires
      var phase := s.processes[pid].phase;
      phase.Writing? && phase.stage.Install? && phase.next.Release? && !s.processes[pid].job.PromoteJob?
    ensures
      var process := s.processes[pid];
      var after := InstallStep(s, pid, process.phase);
      && Intact(after.files) && Grows(s.files, after.files)
      && Knows(leq, after.files, process.job, after.processes[pid].phase)
  {
    var job := s.processes[pid].job;
    RunInstalled(leq, s, pid);
    if RunIdOf(job.bundle) !in s.files.runs {
      IntactAfterRun(s.files, job.bundle, job.policy);
      GrowsByRun(s.files, job.bundle);
    } else {
      GrowsSame(s.files, s.files);
    }
  }

  lemma LinkedOutsideLock(leq: Order, s: State, pid: Pid)
    requires Ready(leq, s, pid)
    requires
      var phase := s.processes[pid].phase;
      phase.Writing? && phase.stage.Install? && !UnderLock(phase.next)
    ensures
      var process := s.processes[pid];
      var after := InstallStep(s, pid, process.phase);
      && SameCore(s.files, after.files)
      && Knows(leq, after.files, process.job, after.processes[pid].phase)
  {
  }

  ghost predicate CoreKept(s: State, after: State, pid: Pid)
    requires pid in s.processes
  {
    SameCore(s.files, after.files)
      || (Critical(s.processes[pid].phase) && Intact(after.files) && Grows(s.files, after.files))
  }

  lemma InstallKnows(leq: Order, s: State, pid: Pid)
    requires TotalOrder(leq) && Intact(s.files) && Ready(leq, s, pid)
    requires
      var phase := s.processes[pid].phase;
      phase.Writing? && phase.stage.Install?
    ensures
      var process := s.processes[pid];
      var after := InstallStep(s, pid, process.phase);
      CoreKept(s, after, pid) && Knows(leq, after.files, process.job, after.processes[pid].phase)
  {
    var phase, job := s.processes[pid].phase, s.processes[pid].job;
    if phase.next.WriteIndex? {
      LinkedRecordCore(leq, s, pid);
      LinkedRecordKnows(leq, s, pid);
    } else if phase.next.Release? {
      if job.PromoteJob? {
        RenamedIndex(leq, s, pid);
      } else {
        LinkedRun(leq, s, pid);
      }
    } else {
      LinkedOutsideLock(leq, s, pid);
    }
  }

  lemma WritingFrame(leq: Order, s: State, pid: Pid, nonce: nat)
    requires pid in s.processes && s.processes[pid].phase.Writing?
    ensures
      var after := Step(leq, s, pid, nonce);
      && after.processes.Keys == s.processes.Keys
      && after.processes[pid].job == s.processes[pid].job
      && (forall q :: q in s.processes && q != pid ==> after.processes[q] == s.processes[q])
      && (!s.processes[pid].phase.stage.Install? ==> after.files == s.files)
  {
  }

  lemma OtherFrame(leq: Order, s: State, pid: Pid, nonce: nat)
    requires pid in s.processes && !s.processes[pid].phase.Writing?
    ensures
      var after := Step(leq, s, pid, nonce);
      && after.processes.Keys == s.processes.Keys
      && after.processes[pid].job == s.processes[pid].job
      && (forall q :: q in s.processes && q != pid ==> after.processes[q] == s.processes[q])
      && after.files == s.files
  {
  }

  /** A step changes only its own process, its own temporary file, and the files by an install. */
  lemma StepFrame(leq: Order, s: State, pid: Pid, nonce: nat)
    requires pid in s.processes
    ensures
      var after := Step(leq, s, pid, nonce);
      && after.processes.Keys == s.processes.Keys
      && after.processes[pid].job == s.processes[pid].job
      && (forall q :: q in s.processes && q != pid ==> after.processes[q] == s.processes[q])
      && (!(s.processes[pid].phase.Writing? && s.processes[pid].phase.stage.Install?) ==> after.files == s.files)
  {
    if s.processes[pid].phase.Writing? {
      WritingFrame(leq, s, pid, nonce);
    } else {
      OtherFrame(leq, s, pid, nonce);
    }
  }

  lemma AfterWriteKnows(leq: Order, files: Files, job: Job, phase: Phase)
    requires phase.Writing? && phase.stage.Remove? && Knows(leq, files, job, phase)
    ensures Knows(leq, files, job, AfterWrite(phase.next, phase.stage.ok))
    ensures Critical(AfterWrite(phase.next, phase.stage.ok)) <==> UnderLock(phase.next)
  {
  }

  lemma PrepareKnows(leq: Order, files: Files, job: Job, phase: Phase, nonce: nat)
    requires phase.Writing? && phase.stage.Prepare? && Knows(leq, files, job, phase)
    ensures Knows(leq, files, job, phase.(stage := Install(nonce)))
  {
  }

  predicate Reading(phase: Phase) {
    phase.ReadingRun? || phase.ReadingPublication? || phase.ReadingIndex? || phase.ReadingHistory?
  }

  lemma ReadingStepKnows(leq: Order, s: State, pid: Pid, nonce: nat)
    requires Ready(leq, s, pid) && Reading(s.processes[pid].phase)
    ensures
      var after := Step(leq, s, pid, nonce);
      after.files == s.files && Knows(leq, s.files, s.processes[pid].job, after.processes[pid].phase)
  {
    ReadKnows(leq, s.files, s.processes[pid].job, s.processes[pid].phase);
  }

  lemma WritingStepKnows(leq: Order, s: State, pid: Pid, nonce: nat)
    requires TotalOrder(leq) && Intact(s.files) && Ready(leq, s, pid) && s.processes[pid].phase.Writing?
    ensures
      var after := Step(leq, s, pid, nonce);
      CoreKept(s, after, pid) && Knows(leq, after.files, s.processes[pid].job, after.processes[pid].phase)
  {
    var job, phase := s.processes[pid].job, s.processes[pid].phase;
    match phase.stage {
      case Prepare => PrepareKnows(leq, s.files, job, phase, nonce);
      case Install(_) => InstallKnows(leq, s, pid);
      case Remove(_, _) => AfterWriteKnows(leq, s.files, job, phase);
    }
  }

  lemma LockingStepKnows(leq: Order, s: State, pid: Pid, nonce: nat)
    requires Ready(leq, s, pid) && s.processes[pid].phase.Locking?
    ensures
      var after := Step(leq, s, pid, nonce);
      after.files == s.files && Knows(leq, s.files, s.processes[pid].job, after.processes[pid].phase)
  {
    var job := s.processes[pid].job;
    if s.lock.None? && !job.PromoteJob? {
      assert Publishable(job.bundle, job.policy);
    }
  }

  lemma UnlockingStepKnows(leq: Order, s: State, pid: Pid, nonce: nat)
    requires Ready(leq, s, pid) && s.processes[pid].phase.Unlocking?
    ensures
      var after := Step(leq, s, pid, nonce);
      after.files == s.files && Knows(leq, s.files, s.processes[pid].job, after.processes[pid].phase)
  {
  }

  lemma PointerStepKnows(leq: Order, s: State, pid: Pid, nonce: nat)
    requires Ready(leq, s, pid) && (s.processes[pid].phase.ReadingPointer? || s.processes[pid].phase.LookingForIndex?)
    ensures
      var after := Step(leq, s, pid, nonce);
      after.files == s.files && Knows(leq, s.files, s.processes[pid].job, after.processes[pid].phase)
  {
  }

  lemma OtherStepKnows(leq: Order, s: State, pid: Pid, nonce: nat)
    requires Ready(leq, s, pid) && Live(s.processes[pid].phase)
    requires !s.processes[pid].phase.Writing? && !Reading(s.processes[pid].phase)
    ensures
      var after := Step(leq, s, pid, nonce);
      after.files == s.files && Knows(leq, s.files, s.processes[pid].job, after.processes[pid].phase)
  {
    match s.processes[pid].phase {
      case Locking => LockingStepKnows(leq, s, pid, nonce);
      case Unlocking(_) => UnlockingStepKnows(leq, s, pid, nonce);
      case _ => PointerStepKnows(leq, s, pid, nonce);
    }
  }

  /** After its step a process knows what its next phase needs, and the core is untouched or intact. */
  lemma StepKnows(leq: Order, s: State, pid: Pid, nonce: nat)
    requires TotalOrder(leq) && Intact(s.files) && Ready(leq, s, pid) && Live(s.processes[pid].phase)
    ensures
      var after := Step(leq, s, pid, nonce);
      CoreKept(s, after, pid) && Knows(leq, after.files, s.processes[pid].job, after.processes[pid].phase)
  {
    var phase := s.processes[pid].phase;
    if phase.Writing? {
      WritingStepKnows(leq, s, pid, nonce);
    } else if Reading(phase) {
      ReadingStepKnows(leq, s, pid, nonce);
    } else {
      OtherStepKnows(leq, s, pid, nonce);
    }
  }

  lemma ReadingStepCritical(leq: Order, s: State, pid: Pid, nonce: nat)
    requires pid in s.processes && Reading(s.processes[pid].phase)
    ensures Critical(Step(leq, s, pid, nonce).processes[pid].phase) && Step(leq, s, pid, nonce).lock == s.lock
  {
  }

  lemma WritingStepCritical(leq: Order, s: State, pid: Pid, nonce: nat)
    requires pid in s.processes && s.processes[pid].phase.Writing?
    ensures Critical(Step(leq, s, pid, nonce).processes[pid].phase) <==> Critical(s.processes[pid].phase)
    ensures Step(leq, s, pid, nonce).lock == s.lock
  {
  }

  /** The lock is taken only when it is free, and removed only by its holder. */
  lemma OtherStepCritical(leq: Order, s: State, pid: Pid, nonce: nat)
    requires pid in s.processes && Live(s.processes[pid].phase)
    requires !s.processes[pid].phase.Writing? && !Reading(s.processes[pid].phase)
    ensures
      var after := Step(leq, s, pid, nonce);
      if s.processes[pid].phase.Locking? && s.lock.None? then
        after.lock == Some(pid) && Critical(after.processes[pid].phase)
      else
        && !Critical(after.processes[pid].phase)
        && after.lock == if s.processes[pid].phase.Unlocking? then None else s.lock
  {
  }

  lemma StepLock(leq: Order, s: State, pid: Pid, nonce: nat)
    requires Locked(s) && pid in s.processes && Live(s.processes[pid].phase)
    ensures Locked(Step(leq, s, pid, nonce))
  {
    var phase := s.processes[pid].phase;
    StepFrame(leq, s, pid, nonce);
    if phase.Writing? {
      WritingStepCritical(leq, s, pid, nonce);
    } else if Reading(phase) {
      ReadingStepCritical(leq, s, pid, nonce);
    } else {
      OtherStepCritical(leq, s, pid, nonce);
    }
  }

  lemma StepPrepared(leq: Order, s: State, pid: Pid, nonce: nat)
    requires AllPrepared(s) && pid in s.processes
    ensures AllPrepared(Step(leq, s, pid, nonce))
  {
  }

  /** Other processes keep what they know: the core is untouched, or they are outside the lock. */
  lemma OthersKnow(leq: Order, s: State, after: State, pid: Pid, q: Pid)
    requires pid in s.processes && q in s.processes && q != pid && Locked(s) && CoreKept(s, after, pid)
    requires Knows(leq, s.files, s.processes[q].job, s.processes[q].phase)
    ensures Knows(leq, after.files, s.processes[q].job, s.processes[q].phase)
  {
    if SameCore(s.files, after.files) {
      KnowsSame(leq, s.files, after.files, s.processes[q].job, s.processes[q].phase);
    } else {
      KnowsAnywhere(leq, s.files, after.files, s.processes[q].job, s.processes[q].phase);
    }
  }

  lemma GrowsSame(f: Files, g: Files)
    requires SameCore(f, g)
    ensures Grows(f, g)
  {
  }

  lemma StepKeepsInvariant(leq: Order, s: State, pid: Pid, nonce: nat)
    requires TotalOrder(leq) && Invariant(leq, s) && IsLive(s, pid)
    ensures
      var after := Step(leq, s, pid, nonce);
      Invariant(leq, after) && Grows(s.files, after.files)
  {
    var after := Step(leq, s, pid, nonce);
    assert Ready(leq, s, pid);
    StepKnows(leq, s, pid, nonce);
    StepLock(leq, s, pid, nonce);
    StepPrepared(leq, s, pid, nonce);
    StepFrame(leq, s, pid, nonce);
    forall q | q in after.processes
      ensures Knows(leq, after.files, after.processes[q].job, after.processes[q].phase)
    {
      if q != pid {
        OthersKnow(leq, s, after, pid, q);
      }
    }
    if SameCore(s.files, after.files) {
      GrowsSame(s.files, after.files);
    }
  }

  lemma SpawnKeepsInvariant(leq: Order, s: State, pid: Pid, job: Job)
    requires Invariant(leq, s) && pid !in s.processes
    ensures Invariant(leq, Apply(leq, s, Spawn(pid, job)))
  {
    var after := Apply(leq, s, Spawn(pid, job));
    forall q | q in after.processes
      ensures Knows(leq, after.files, after.processes[q].job, after.processes[q].phase) && Prepared(after, q)
    {
      if q != pid {
        assert Prepared(s, q);
      }
    }
  }

  lemma CrashKeepsInvariant(leq: Order, s: State, pid: Pid)
    requires Invariant(leq, s) && IsLive(s, pid)
    ensures Invariant(leq, Apply(leq, s, Crash(pid)))
  {
    var after := Apply(leq, s, Crash(pid));
    forall q | q in after.processes
      ensures Knows(leq, after.files, after.processes[q].job, after.processes[q].phase) && Prepared(after, q)
    {
      if q != pid {
        assert Prepared(s, q);
      }
    }
  }

  lemma ClearKeepsInvariant(leq: Order, s: State, t: Temporary)
    requires Invariant(leq, s) && !IsLive(s, t.owner)
    ensures Invariant(leq, Apply(leq, s, ClearTemporary(t)))
  {
    var after := Apply(leq, s, ClearTemporary(t));
    forall q | q in after.processes
      ensures Prepared(after, q)
    {
      assert Prepared(s, q);
    }
  }

  lemma ActionKeepsInvariant(leq: Order, s: State, a: Action)
    requires TotalOrder(leq) && Invariant(leq, s) && Enabled(s, a)
    ensures Invariant(leq, Apply(leq, s, a)) && Grows(s.files, Apply(leq, s, a).files)
  {
    match a {
      case Spawn(pid, job) => SpawnKeepsInvariant(leq, s, pid, job);
      case Advance(pid, nonce) => StepKeepsInvariant(leq, s, pid, nonce);
      case Crash(pid) => CrashKeepsInvariant(leq, s, pid);
      case ClearLock =>
      case ClearTemporary(t) => ClearKeepsInvariant(leq, s, t);
    }
  }

  // ---------------------------------------------------------------- runs of the protocol

  /** A sequence of actions that can be taken one after another. */
  ghost predicate CanRun(leq: Order, s: State, actions: seq<Action>)
    decreases |actions|
  {
    actions != [] ==> Enabled(s, actions[0]) && CanRun(leq, Apply(leq, s, actions[0]), actions[1..])
  }

  ghost function RunAll(leq: Order, s: State, actions: seq<Action>): State
    requires CanRun(leq, s, actions)
    decreases |actions|
  {
    if actions == [] then s else RunAll(leq, Apply(leq, s, actions[0]), actions[1..])
  }

  lemma {:induction false} RunKeepsInvariant(leq: Order, s: State, actions: seq<Action>)
    requires TotalOrder(leq) && Invariant(leq, s) && CanRun(leq, s, actions)
    ensures Invariant(leq, RunAll(leq, s, actions)) && Grows(s.files, RunAll(leq, s, actions).files)
    decreases |actions|
  {
    if actions == [] {
    } else {
      var next := Apply(leq, s, actions[0]);
      ActionKeepsInvariant(leq, s, actions[0]);
      RunKeepsInvariant(leq, next, actions[1..]);
    }
  }

  /** One run and then another are a run. */
  lemma {:induction false} RunJoined(leq: Order, s: State, first: seq<Action>, second: seq<Action>)
    requires CanRun(leq, s, first) && CanRun(leq, RunAll(leq, s, first), second)
    ensures CanRun(leq, s, first + second)
    ensures RunAll(leq, s, first + second) == RunAll(leq, RunAll(leq, s, first), second)
    decreases |first|
  {
    if first == [] {
      assert first + second == second;
    } else {
      RunJoined(leq, Apply(leq, s, first[0]), first[1..], second);
      assert (first + second)[0] == first[0];
      assert (first + second)[1..] == first[1..] + second;
    }
  }

  /** A store that nobody is working on. */
  ghost predicate Quiet(s: State) {
    s.lock.None? && s.processes == map[] && Intact(s.files)
  }

  predicate IsCritical(s: State, pid: Pid) {
    pid in s.processes && Critical(s.processes[pid].phase)
  }

  /** A publication record that names an entry, for the pull request and source tree of its run, whose
      links lead to that repository. */
  ghost predicate RecordedFor(files: Files, e: IndexEntry, p: Publication)
    requires e.run in files.runs
  {
    && p in files.publications.Values && p.entry == e
    && files.runs[e.run].run.pullRequest == Some(p.pullRequest)
    && files.runs[e.run].run.commit.tree == p.merge.tree
    && files.runs[e.run].source == Published
    && files.runs[e.run].run.workflow.url == Some(WorkflowUrl(p.pullRequest, e.run))
    && files.runs[e.run].run.commit.url == Some(CommitUrl(p.pullRequest, files.runs[e.run].run.commit.sha))
  }

  /** In every state that any processes reach from a quiet store, with crashes anywhere: */
  lemma ReachableStates(leq: Order, s: State, actions: seq<Action>)
    requires TotalOrder(leq) && Quiet(s) && CanRun(leq, s, actions)
    ensures
      var t := RunAll(leq, s, actions);
      // every index entry has its run file and a publication record that names that run, with the
      // same pull request and source tree;
      && (forall e :: e in IndexOf(t.files) ==>
        && e.run in t.files.runs
        && RunIdOf(t.files.runs[e.run]) == e.run
        && exists p :: RecordedFor(t.files, e, p))
      // distinct entries belong to distinct pull requests;
      && (forall e, f :: e in IndexOf(t.files) && f in IndexOf(t.files) && e != f ==>
        t.files.runs[e.run].run.pullRequest.value.number != t.files.runs[f.run].run.pullRequest.value.number)
      // the published runs can be grouped into histories;
      && Acceptable(BundlesAt(t.files, IndexOf(t.files)))
      // no two processes are in their critical phase;
      && (forall pid, q :: IsCritical(t, pid) && IsCritical(t, q) ==> pid == q)
      // and nothing published or stored before was lost or changed.
      && Grows(s.files, t.files)
  {
    var t := RunAll(leq, s, actions);
    RunKeepsInvariant(leq, s, actions);
    forall e | e in IndexOf(t.files)
      ensures
        && e.run in t.files.runs && RunIdOf(t.files.runs[e.run]) == e.run
        && exists p :: RecordedFor(t.files, e, p)
    {
      assert Backed(t.files, e);
      var n := t.files.runs[e.run].run.pullRequest.value.number;
      assert RecordedFor(t.files, e, t.files.publications[n]);
    }
    forall e, f | e in IndexOf(t.files) && f in IndexOf(t.files) && e != f
      ensures t.files.runs[e.run].run.pullRequest.value.number != t.files.runs[f.run].run.pullRequest.value.number
    {
      assert Backed(t.files, e) && Backed(t.files, f);
    }
  }

  /** At no moment of a run does a run file or publication record change, or an index entry get lost. */
  lemma NothingPublishedChanges(leq: Order, s: State, earlier: seq<Action>, later: seq<Action>)
    requires TotalOrder(leq) && Quiet(s)
    requires CanRun(leq, s, earlier) && CanRun(leq, RunAll(leq, s, earlier), later)
    ensures
      var t := RunAll(leq, s, earlier);
      Grows(t.files, RunAll(leq, t, later).files)
  {
    RunKeepsInvariant(leq, s, earlier);
    RunKeepsInvariant(leq, RunAll(leq, s, earlier), later);
  }
}
