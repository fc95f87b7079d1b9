/** What archival guarantees the promotion that follows it: a pending pointer always names a stored run
    and a stored policy under which that run is publishable. */
module Archival {
  import opened Texts
  import opened Bundles
  import opened Policies
  import opened Store
  import opened Protocol
  import Convergence

  ghost predicate RunStored(files: Files, b: Bundle) {
    RunIdOf(b) in files.runs && files.runs[RunIdOf(b)] == b
  }

  ghost predicate PolicyStored(files: Files, b: Bundle, policy: Policy) {
    RunIdOf(b) in files.policies && files.policies[RunIdOf(b)] == policy
  }

  ghost predicate PointerBacked(files: Files, pointer: Pointer) {
    && pointer.run in files.runs && pointer.run in files.policies
    && Publishable(files.runs[pointer.run], files.policies[pointer.run])
    && Archivable(files.runs[pointer.run])
  }

  ghost predicate PointersBacked(files: Files) {
    forall n :: n in files.pointers ==> PointerBacked(files, files.pointers[n])
  }

  /** What an archival has achieved in each phase. */
  ghost predicate Achieved(files: Files, job: Job, phase: Phase)
    requires job.ArchiveJob?
  {
    var stored, recorded := RunStored(files, job.bundle), PolicyStored(files, job.bundle, job.policy);
    match phase
    case Writing(document, immutable, stage, next) =>
      (match next
       case Release =>
         && document == RunDocument(job.bundle) && immutable
         && (stage.Remove? && stage.ok ==> stored)
       case UpdatePointer =>
         && stored && document == PolicyDocument(RunIdOf(job.bundle), job.policy) && immutable
         && (stage.Remove? && stage.ok ==> recorded)
       case EnsureIndex =>
         && stored && recorded
         && document == PointerDocument(job.number, Pointer(RunIdOf(job.bundle), job.createdAt))
         && (stage.Remove? && stage.ok ==> job.number in files.pointers)
       case Finish =>
         && stored && recorded && job.number in files.pointers
         && document == IndexDocument([]) && immutable
         && (stage.Remove? && stage.ok ==> files.index.Some?)
       case WriteIndex(_) => false)
    case Unlocking(ok) => ok ==> stored
    case ReadingPointer => stored && recorded
    case LookingForIndex => stored && recorded && job.number in files.pointers
    case Done => stored && recorded && job.number in files.pointers && files.index.Some?
    case _ => true
  }

  ghost predicate Archives(files: Files, process: Process) {
    process.job.ArchiveJob? ==>
      && Achieved(files, process.job, process.phase)
      && (Live(process.phase) ==> ValidJob(process.job))
  }

  ghost predicate AllArchive(s: State) {
    PointersBacked(s.files) && forall pid :: pid in s.processes ==> Archives(s.files, s.processes[pid])
  }

  /** Records stay, a pointer may be replaced but not removed, and an index stays an index. */
  ghost predicate Keeps(f: Files, g: Files) {
    && (forall id :: id in f.runs ==> id in g.runs && g.runs[id] == f.runs[id])
    && (forall id :: id in f.policies ==> id in g.policies && g.policies[id] == f.policies[id])
    && (forall n :: n in f.pointers ==> n in g.pointers)
    && (f.index.Some? ==> g.index.Some?)
  }

  lemma AchievedStays(f: Files, g: Files, process: Process)
    requires Keeps(f, g) && Archives(f, process)
    ensures Archives(g, process)
  {
  }

  lemma BackedStays(f: Files, g: Files)
    requires Keeps(f, g) && PointersBacked(f) && g.pointers == f.pointers
    ensures PointersBacked(g)
  {
  }

  lemma RunInstallKeeps(leq: Order, s: State, pid: Pid)
    requires Ready(leq, s, pid) && s.processes[pid].job.StoreJob?
    requires s.processes[pid].phase.Writing? && s.processes[pid].phase.stage.Install?
    ensures
      var after := InstallStep(s, pid, s.processes[pid].phase);
      Keeps(s.files, after.files) && after.files.pointers == s.files.pointers
  {
  }

  /** An install by a store or a promotion changes neither policies nor pointers. */
  lemma OtherInstallKeeps(leq: Order, s: State, pid: Pid)
    requires Ready(leq, s, pid) && !s.processes[pid].job.ArchiveJob?
    requires s.processes[pid].phase.Writing? && s.processes[pid].phase.stage.Install?
    ensures
      var after := InstallStep(s, pid, s.processes[pid].phase);
      Keeps(s.files, after.files) && after.files.pointers == s.files.pointers
  {
    if s.processes[pid].job.PromoteJob? {
      Convergence.InstallOfAttempt(leq, s, pid);
    } else {
      RunInstallKeeps(leq, s, pid);
    }
  }

  lemma PointerInstalled(files: Files, bundle: Bundle, policy: Policy, number: nat, createdAt: Text)
    requires PointersBacked(files) && RunStored(files, bundle) && PolicyStored(files, bundle, policy)
    requires Publishable(bundle, policy) && Archivable(bundle)
    ensures PointersBacked(Write(files, PointerDocument(number, Pointer(RunIdOf(bundle), createdAt))))
  {
  }

  lemma LinkAchieves(s: State, pid: Pid)
    requires pid in s.processes && Prepared(s, pid) && Archives(s.files, s.processes[pid])
    requires s.processes[pid].job.ArchiveJob?
    requires s.processes[pid].phase.Writing? && s.processes[pid].phase.stage.Install?
    requires s.processes[pid].phase.immutable
    ensures
      var after := InstallStep(s, pid, s.processes[pid].phase);
      && pid in after.processes && Achieved(after.files, s.processes[pid].job, after.processes[pid].phase)
      && Live(after.processes[pid].phase)
  {
  }

  lemma RenameAchieves(s: State, pid: Pid)
    requires pid in s.processes && Prepared(s, pid) && Archives(s.files, s.processes[pid])
    requires s.processes[pid].job.ArchiveJob?
    requires s.processes[pid].phase.Writing? && s.processes[pid].phase.stage.Install?
    requires !s.processes[pid].phase.immutable
    ensures
      var after := InstallStep(s, pid, s.processes[pid].phase);
      && pid in after.processes && Achieved(after.files, s.processes[pid].job, after.processes[pid].phase)
      && Live(after.processes[pid].phase)
  {
  }

  lemma ArchiveInstallAchieves(s: State, pid: Pid)
    requires pid in s.processes && Prepared(s, pid) && Archives(s.files, s.processes[pid])
    requires s.processes[pid].job.ArchiveJob?
    requires s.processes[pid].phase.Writing? && s.processes[pid].phase.stage.Install?
    ensures
      var after := InstallStep(s, pid, s.processes[pid].phase);
      && pid in after.processes && Achieved(after.files, s.processes[pid].job, after.processes[pid].phase)
      && Live(after.processes[pid].phase)
  {
    if s.processes[pid].phase.immutable {
      LinkAchieves(s, pid);
    } else {
      RenameAchieves(s, pid);
    }
  }

  lemma ArchiveInstallKeeps(s: State, pid: Pid)
    requires pid in s.processes && s.processes[pid].job.ArchiveJob?
    requires Prepared(s, pid) && Achieved(s.files, s.processes[pid].job, s.processes[pid].phase)
    requires s.processes[pid].phase.Writing? && s.processes[pid].phase.stage.Install?
    ensures
      var after := InstallStep(s, pid, s.processes[pid].phase);
      && Keeps(s.files, after.files)
      && (!s.processes[pid].phase.next.EnsureIndex? ==> after.files.pointers == s.files.pointers)
  {
  }

  lemma ArchiveInstallBacks(s: State, pid: Pid)
    requires pid in s.processes && Prepared(s, pid) && Archives(s.files, s.processes[pid]) && PointersBacked(s.files)
    requires s.processes[pid].job.ArchiveJob?
    requires s.processes[pid].phase.Writing? && s.processes[pid].phase.stage.Install?
    ensures PointersBacked(InstallStep(s, pid, s.processes[pid].phase).files)
  {
    var job, after := s.processes[pid].job, InstallStep(s, pid, s.processes[pid].phase);
    ArchiveInstallKeeps(s, pid);
    if s.processes[pid].phase.next.EnsureIndex? {
      PointerInstalled(s.files, job.bundle, job.policy, job.number, job.createdAt);
    } else {
      BackedStays(s.files, after.files);
    }
  }

  lemma PrepareAchieves(leq: Order, s: State, pid: Pid, nonce: nat)
    requires pid in s.processes && Archives(s.files, s.processes[pid]) && Live(s.processes[pid].phase)
    requires s.processes[pid].job.ArchiveJob?
    requires s.processes[pid].phase.Writing? && s.processes[pid].phase.stage.Prepare?
    ensures
      var after := Step(leq, s, pid, nonce);
      pid in after.processes && Achieved(s.files, s.processes[pid].job, after.processes[pid].phase)
  {
  }

  lemma AfterWriteAchieves(files: Files, job: Job, phase: Phase)
    requires job.ArchiveJob? && Achieved(files, job, phase) && phase.Writing? && phase.stage.Remove?
    ensures Achieved(files, job, AfterWrite(phase.next, phase.stage.ok))
  {
  }

  lemma RemoveAchieves(leq: Order, s: State, pid: Pid, nonce: nat)
    requires pid in s.processes && Archives(s.files, s.processes[pid]) && Live(s.processes[pid].phase)
    requires s.processes[pid].job.ArchiveJob?
    requires s.processes[pid].phase.Writing? && s.processes[pid].phase.stage.Remove?
    ensures
      var after := Step(leq, s, pid, nonce);
      pid in after.processes && Achieved(s.files, s.processes[pid].job, after.processes[pid].phase)
  {
    AfterWriteAchieves(s.files, s.processes[pid].job, s.processes[pid].phase);
  }

  lemma WriteStepAchieves(leq: Order, s: State, pid: Pid, nonce: nat)
    requires pid in s.processes && Archives(s.files, s.processes[pid]) && Live(s.processes[pid].phase)
    requires s.processes[pid].job.ArchiveJob?
    requires s.processes[pid].phase.Writing? && !s.processes[pid].phase.stage.Install?
    ensures
      var after := Step(leq, s, pid, nonce);
      pid in after.processes && Achieved(s.files, s.processes[pid].job, after.processes[pid].phase)
  {
    if s.processes[pid].phase.stage.Prepare? {
      PrepareAchieves(leq, s, pid, nonce);
    } else {
      RemoveAchieves(leq, s, pid, nonce);
    }
  }

  lemma UnlockAchieves(leq: Order, s: State, pid: Pid, nonce: nat)
    requires pid in s.processes && Archives(s.files, s.processes[pid]) && Live(s.processes[pid].phase)
    requires s.processes[pid].job.ArchiveJob?
    requires s.processes[pid].phase.Unlocking?
    ensures
      var after := Step(leq, s, pid, nonce);
      pid in after.processes && Achieved(s.files, s.processes[pid].job, after.processes[pid].phase)
  {
  }

  lemma ReadingAchieves(leq: Order, s: State, pid: Pid, nonce: nat)
    requires pid in s.processes && Archives(s.files, s.processes[pid]) && Live(s.processes[pid].phase)
    requires s.processes[pid].job.ArchiveJob?
    requires s.processes[pid].phase.ReadingPointer?
    ensures
      var after := Step(leq, s, pid, nonce);
      pid in after.processes && Achieved(s.files, s.processes[pid].job, after.processes[pid].phase)
  {
  }

  lemma LookingAchieves(leq: Order, s: State, pid: Pid, nonce: nat)
    requires pid in s.processes && Archives(s.files, s.processes[pid]) && Live(s.processes[pid].phase)
    requires s.processes[pid].job.ArchiveJob?
    requires s.processes[pid].phase.LookingForIndex?
    ensures
      var after := Step(leq, s, pid, nonce);
      pid in after.processes && Achieved(s.files, s.processes[pid].job, after.processes[pid].phase)
  {
  }

  lemma LockingAchieves(leq: Order, s: State, pid: Pid, nonce: nat)
    requires pid in s.processes && Archives(s.files, s.processes[pid]) && Live(s.processes[pid].phase)
    requires s.processes[pid].job.ArchiveJob?
    requires s.processes[pid].phase.Locking?
    ensures
      var after := Step(leq, s, pid, nonce);
      pid in after.processes && Achieved(s.files, s.processes[pid].job, after.processes[pid].phase)
  {
  }

  lemma ReadingPhaseAchieves(leq: Order, s: State, pid: Pid, nonce: nat)
    requires pid in s.processes && Archives(s.files, s.processes[pid]) && Live(s.processes[pid].phase)
    requires s.processes[pid].job.ArchiveJob?
    requires Reading(s.processes[pid].phase)
    ensures
      var after := Step(leq, s, pid, nonce);
      pid in after.processes && Achieved(s.files, s.processes[pid].job, after.processes[pid].phase)
  {
  }

  lemma OtherStepAchieves(leq: Order, s: State, pid: Pid, nonce: nat)
    requires pid in s.processes && Archives(s.files, s.processes[pid]) && Live(s.processes[pid].phase)
    requires s.processes[pid].job.ArchiveJob?
    requires !s.processes[pid].phase.Writing?
    ensures
      var after := Step(leq, s, pid, nonce);
      pid in after.processes && Achieved(s.files, s.processes[pid].job, after.processes[pid].phase)
  {
    match s.processes[pid].phase {
      case Locking => LockingAchieves(leq, s, pid, nonce);
      case Unlocking(_) => UnlockAchieves(leq, s, pid, nonce);
      case ReadingPointer => ReadingAchieves(leq, s, pid, nonce);
      case LookingForIndex => LookingAchieves(leq, s, pid, nonce);
      case _ => ReadingPhaseAchieves(leq, s, pid, nonce);
    }
  }

  lemma ArchiveStepAchieves(leq: Order, s: State, pid: Pid, nonce: nat)
    requires pid in s.processes && Archives(s.files, s.processes[pid]) && Live(s.processes[pid].phase)
    requires s.processes[pid].job.ArchiveJob?
    requires !(s.processes[pid].phase.Writing? && s.processes[pid].phase.stage.Install?)
    ensures
      var after := Step(leq, s, pid, nonce);
      pid in after.processes && Achieved(s.files, s.processes[pid].job, after.processes[pid].phase)
  {
    var phase := s.processes[pid].phase;
    if phase.Writing? {
      WriteStepAchieves(leq, s, pid, nonce);
    } else {
      OtherStepAchieves(leq, s, pid, nonce);
    }
  }

  /** One step of any process. */
  lemma StepArchives(leq: Order, s: State, pid: Pid, nonce: nat)
    requires Ready(leq, s, pid) && Live(s.processes[pid].phase)
    requires Archives(s.files, s.processes[pid]) && PointersBacked(s.files)
    ensures
      var after := Step(leq, s, pid, nonce);
      && Keeps(s.files, after.files) && PointersBacked(after.files)
      && pid in after.processes && Archives(after.files, after.processes[pid])
  {
    var after, phase := Step(leq, s, pid, nonce), s.processes[pid].phase;
    StepFrame(leq, s, pid, nonce);
    if phase.Writing? && phase.stage.Install? {
      if s.processes[pid].job.ArchiveJob? {
        ArchiveInstallAchieves(s, pid);
        ArchiveInstallKeeps(s, pid);
        ArchiveInstallBacks(s, pid);
      } else {
        OtherInstallKeeps(leq, s, pid);
        BackedStays(s.files, after.files);
      }
    } else if s.processes[pid].job.ArchiveJob? {
      ArchiveStepAchieves(leq, s, pid, nonce);
    }
  }

  lemma AdvanceArchives(leq: Order, s: State, pid: Pid, nonce: nat)
    requires Ready(leq, s, pid) && Live(s.processes[pid].phase) && AllArchive(s)
    ensures AllArchive(Step(leq, s, pid, nonce))
  {
    var after := Step(leq, s, pid, nonce);
    StepFrame(leq, s, pid, nonce);
    StepArchives(leq, s, pid, nonce);
    forall q | q in after.processes
      ensures Archives(after.files, after.processes[q])
    {
      if q != pid {
        AchievedStays(s.files, after.files, s.processes[q]);
      }
    }
  }

  lemma OtherActionArchives(leq: Order, s: State, a: Action)
    requires Enabled(s, a) && !a.Advance? && AllArchive(s)
    ensures AllArchive(Apply(leq, s, a))
  {
    var after := Apply(leq, s, a);
    forall q | q in after.processes
      ensures Archives(after.files, after.processes[q])
    {
      if q in s.processes {
        assert Archives(s.files, s.processes[q]);
      }
    }
  }

  lemma ActionArchives(leq: Order, s: State, a: Action)
    requires Invariant(leq, s) && Enabled(s, a) && AllArchive(s)
    ensures AllArchive(Apply(leq, s, a))
  {
    if a.Advance? {
      assert Ready(leq, s, a.pid);
      AdvanceArchives(leq, s, a.pid, a.nonce);
    } else {
      OtherActionArchives(leq, s, a);
    }
  }

  lemma {:induction false} RunArchives(leq: Order, s: State, actions: seq<Action>)
    requires TotalOrder(leq) && Invariant(leq, s) && CanRun(leq, s, actions) && AllArchive(s)
    ensures AllArchive(RunAll(leq, s, actions))
    decreases |actions|
  {
    if actions != [] {
      ActionKeepsInvariant(leq, s, actions[0]);
      ActionArchives(leq, s, actions[0]);
      RunArchives(leq, Apply(leq, s, actions[0]), actions[1..]);
    }
  }

  /** In every reachable state a pending pointer names a stored run and a stored policy under which the
      run is publishable, and an archival that is done has left its run, its policy, a pointer for its
      pull request and an index. */
  lemma PendingRunsPublishable(leq: Order, s: State, actions: seq<Action>)
    requires TotalOrder(leq) && Quiet(s) && PointersBacked(s.files) && CanRun(leq, s, actions)
    ensures
      var t := RunAll(leq, s, actions);
      && (forall n :: n in t.files.pointers ==>
        && t.files.pointers[n].run in t.files.runs && t.files.pointers[n].run in t.files.policies
        && Publishable(t.files.runs[t.files.pointers[n].run], t.files.policies[t.files.pointers[n].run]))
      && (forall pid :: pid in t.processes && t.processes[pid].job.ArchiveJob? && t.processes[pid].phase.Done? ==>
        var job := t.processes[pid].job;
        && RunStored(t.files, job.bundle) && PolicyStored(t.files, job.bundle, job.policy)
        && job.number in t.files.pointers && t.files.index.Some?)
  {
    RunArchives(leq, s, actions);
    var t := RunAll(leq, s, actions);
    forall pid | pid in t.processes && t.processes[pid].job.ArchiveJob? && t.processes[pid].phase.Done?
      ensures Achieved(t.files, t.processes[pid].job, Done)
    {
      assert Archives(t.files, t.processes[pid]);
    }
    forall n | n in t.files.pointers
      ensures PointerBacked(t.files, t.files.pointers[n])
    {
    }
  }

  lemma Promotable(files: Files, pointer: Pointer, p: Publication)
    requires PointerBacked(files, pointer) && p.entry.run == pointer.run == RunIdOf(files.runs[pointer.run])
    requires Some(p.pullRequest) == files.runs[pointer.run].run.pullRequest
    ensures RunVouches(files, p, files.policies[pointer.run]) <==>
      p.merge.tree == files.runs[pointer.run].run.commit.tree
  {
  }

  /** Promoting a pending run under its archived policy, for its own pull request, can fail only because
      the merge has another tree than the measured commit, or because of the publications and the index. */
  lemma PendingRunPromotable(leq: Order, s: State, actions: seq<Action>, n: nat, p: Publication)
    requires TotalOrder(leq) && Quiet(s) && PointersBacked(s.files) && CanRun(leq, s, actions)
    requires
      var t := RunAll(leq, s, actions);
      && n in t.files.pointers && p.entry.run == t.files.pointers[n].run
      && (p.entry.run in t.files.runs ==> Some(p.pullRequest) == t.files.runs[p.entry.run].run.pullRequest)
    ensures
      var t := RunAll(leq, s, actions);
      && p.entry.run in t.files.runs && p.entry.run in t.files.policies
      && (CanPromote(t.files, p, t.files.policies[p.entry.run]) <==>
        p.merge.tree == t.files.runs[p.entry.run].run.commit.tree && IndexAllows(t.files, p))
  {
    RunArchives(leq, s, actions);
    RunKeepsInvariant(leq, s, actions);
    var t := RunAll(leq, s, actions);
    assert PointerBacked(t.files, t.files.pointers[n]);
    assert Readable(t.files, p.entry.run);
    Promotable(t.files, t.files.pointers[n], p);
  }
}
