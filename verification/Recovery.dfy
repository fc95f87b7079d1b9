/** A process that runs alone does what the command promises, step by step, and leaves nothing behind. */
module Recovery {
  import opened Texts
  import opened Bundles
  import opened Policies
  import opened Store
  import opened Protocol
  import Commands

  // ---------------------------------------------------------------- a process that runs alone

  ghost function Alone(pid: Pid, nonce: nat, steps: nat): (actions: seq<Action>)
    ensures |actions| == steps && forall i :: 0 <= i < steps ==> actions[i] == Advance(pid, nonce)
  {
    seq(steps, i => Advance(pid, nonce))
  }

  ghost predicate ReachesIn(leq: Order, s: State, pid: Pid, nonce: nat, steps: nat, t: State) {
    CanRun(leq, s, Alone(pid, nonce, steps)) && RunAll(leq, s, Alone(pid, nonce, steps)) == t
  }

  /** A process that takes some steps alone leads to a state. */
  ghost predicate Reaches(leq: Order, s: State, pid: Pid, nonce: nat, t: State) {
    exists steps: nat :: ReachesIn(leq, s, pid, nonce, steps, t)
  }

  /** A process that takes some steps alone ends, with the given files, holding nothing. */
  ghost predicate Ends(leq: Order, s: State, pid: Pid, nonce: nat, files: Files,
                       temporaries: map<Temporary, Document>, ok: bool) {
    && pid in s.processes
    && var process := s.processes[pid].(phase := if ok then Done else Aborted);
       Reaches(leq, s, pid, nonce, State(files, temporaries, None, s.processes[pid := process]))
  }

  lemma StepReaches(leq: Order, s: State, pid: Pid, nonce: nat)
    requires IsLive(s, pid) && (Prepares(s.processes[pid].phase) ==> Temporary(pid, nonce) !in s.temporaries)
    ensures Reaches(leq, s, pid, nonce, Step(leq, s, pid, nonce))
  {
    var one, after := Alone(pid, nonce, 1), Step(leq, s, pid, nonce);
    assert one[0] == Advance(pid, nonce) && one[1..] == [];
    assert CanRun(leq, after, one[1..]) && RunAll(leq, after, one[1..]) == after;
    assert CanRun(leq, s, one);
    assert ReachesIn(leq, s, pid, nonce, 1, Step(leq, s, pid, nonce));
  }

  lemma ReachesOn(leq: Order, s: State, pid: Pid, nonce: nat, t: State, u: State)
    requires Reaches(leq, s, pid, nonce, t) && Reaches(leq, t, pid, nonce, u)
    ensures Reaches(leq, s, pid, nonce, u)
  {
    var m: nat :| ReachesIn(leq, s, pid, nonce, m, t);
    var n: nat :| ReachesIn(leq, t, pid, nonce, n, u);
    RunJoined(leq, s, Alone(pid, nonce, m), Alone(pid, nonce, n));
    assert Alone(pid, nonce, m) + Alone(pid, nonce, n) == Alone(pid, nonce, m + n);
    assert ReachesIn(leq, s, pid, nonce, m + n, u);
  }

  /** One state is the other with another phase of one process, apart from files and lock. */
  predicate Moved(s: State, pid: Pid, t: State) {
    && pid in s.processes && pid in t.processes
    && t.processes == s.processes[pid := s.processes[pid].(phase := t.processes[pid].phase)]
  }

  lemma EndsOn(leq: Order, s: State, t: State, pid: Pid, nonce: nat, files: Files,
               temporaries: map<Temporary, Document>, ok: bool)
    requires Moved(s, pid, t) && Reaches(leq, s, pid, nonce, t)
    requires Ends(leq, t, pid, nonce, files, temporaries, ok)
    ensures Ends(leq, s, pid, nonce, files, temporaries, ok)
  {
    var process := s.processes[pid].(phase := if ok then Done else Aborted);
    assert t.processes[pid := process] == s.processes[pid := process];
    ReachesOn(leq, s, pid, nonce, t, State(files, temporaries, None, s.processes[pid := process]));
  }

  lemma EndsNext(leq: Order, s: State, pid: Pid, nonce: nat, files: Files,
                 temporaries: map<Temporary, Document>, ok: bool)
    requires IsLive(s, pid) && (Prepares(s.processes[pid].phase) ==> Temporary(pid, nonce) !in s.temporaries)
    requires Moved(s, pid, Step(leq, s, pid, nonce))
    requires Ends(leq, Step(leq, s, pid, nonce), pid, nonce, files, temporaries, ok)
    ensures Ends(leq, s, pid, nonce, files, temporaries, ok)
  {
    StepReaches(leq, s, pid, nonce);
    EndsOn(leq, s, Step(leq, s, pid, nonce), pid, nonce, files, temporaries, ok);
  }

  lemma EndedEnds(leq: Order, s: State, pid: Pid, nonce: nat)
    requires pid in s.processes && (s.processes[pid].phase.Done? || s.processes[pid].phase.Aborted?) && s.lock.None?
    ensures Ends(leq, s, pid, nonce, s.files, s.temporaries, s.processes[pid].phase.Done?)
  {
    assert Alone(pid, nonce, 0) == [];
    assert s.processes[pid := s.processes[pid]] == s.processes;
    assert ReachesIn(leq, s, pid, nonce, 0, s);
  }

  lemma UnlockEnds(leq: Order, s: State, pid: Pid, nonce: nat)
    requires pid in s.processes && s.processes[pid].phase.Unlocking?
    requires s.processes[pid].job.ArchiveJob? ==> !s.processes[pid].phase.ok
    ensures Ends(leq, s, pid, nonce, s.files, s.temporaries, s.processes[pid].phase.ok)
  {
    EndedEnds(leq, Step(leq, s, pid, nonce), pid, nonce);
    EndsNext(leq, s, pid, nonce, s.files, s.temporaries, s.processes[pid].phase.ok);
  }

  /** What one write leaves when nothing else happens meanwhile. */
  function Installed(files: Files, d: Document, immutable: bool): Files {
    if immutable && Stored(files, d).Some? then files else Write(files, d)
  }

  function Succeeds(files: Files, d: Document, immutable: bool): bool {
    immutable && Stored(files, d).Some? ==> Stored(files, d).value == d
  }

  function Wrote(s: State, pid: Pid): State
    requires pid in s.processes && s.processes[pid].phase.Writing?
  {
    var phase := s.processes[pid].phase;
    Become(s, pid, AfterWrite(phase.next, Succeeds(s.files, phase.document, phase.immutable)))
    .(files := Installed(s.files, phase.document, phase.immutable))
  }

  lemma WriteSteps(leq: Order, s: State, pid: Pid, nonce: nat)
    requires pid in s.processes && Prepares(s.processes[pid].phase) && Temporary(pid, nonce) !in s.temporaries
    ensures
      var one := Step(leq, s, pid, nonce);
      && pid in one.processes
      && one.processes[pid].phase == s.processes[pid].phase.(stage := Install(nonce))
      && var two := Step(leq, one, pid, nonce);
         && pid in two.processes
         && two.processes[pid].phase.Writing?
         && Step(leq, two, pid, nonce) == Wrote(s, pid)
  {
    var one := Step(leq, s, pid, nonce);
    var two := Step(leq, one, pid, nonce);
    var three := Step(leq, two, pid, nonce);
    var t := Temporary(pid, nonce);
    assert t in one.temporaries && one.temporaries[t] == s.processes[pid].phase.document;
    assert three.temporaries == s.temporaries;
    assert three.processes == Wrote(s, pid).processes;
  }

  lemma WriteReaches(leq: Order, s: State, pid: Pid, nonce: nat)
    requires pid in s.processes && Prepares(s.processes[pid].phase) && Temporary(pid, nonce) !in s.temporaries
    ensures Moved(s, pid, Wrote(s, pid)) && Reaches(leq, s, pid, nonce, Wrote(s, pid))
  {
    WriteSteps(leq, s, pid, nonce);
    var one := Step(leq, s, pid, nonce);
    var two := Step(leq, one, pid, nonce);
    StepReaches(leq, s, pid, nonce);
    StepReaches(leq, one, pid, nonce);
    StepReaches(leq, two, pid, nonce);
    ReachesOn(leq, s, pid, nonce, one, two);
    ReachesOn(leq, s, pid, nonce, two, Wrote(s, pid));
  }

  lemma WriteEnds(leq: Order, s: State, pid: Pid, nonce: nat, files: Files, ok: bool)
    requires pid in s.processes && Prepares(s.processes[pid].phase) && Temporary(pid, nonce) !in s.temporaries
    requires Ends(leq, Wrote(s, pid), pid, nonce, files, s.temporaries, ok)
    ensures Ends(leq, s, pid, nonce, files, s.temporaries, ok)
  {
    WriteReaches(leq, s, pid, nonce);
    EndsOn(leq, s, Wrote(s, pid), pid, nonce, files, s.temporaries, ok);
  }

  /** Renaming the index and unlocking. */
  lemma IndexEnds(leq: Order, s: State, pid: Pid, nonce: nat, runs: seq<IndexEntry>)
    requires pid in s.processes && s.processes[pid].job.PromoteJob? && Temporary(pid, nonce) !in s.temporaries
    requires s.processes[pid].phase == Writing(IndexDocument(runs), false, Prepare, Release)
    ensures Ends(leq, s, pid, nonce, Write(s.files, IndexDocument(runs)), s.temporaries, true)
  {
    UnlockEnds(leq, Wrote(s, pid), pid, nonce);
    WriteEnds(leq, s, pid, nonce, Write(s.files, IndexDocument(runs)), true);
  }

  /** Linking the publication record, renaming the index and unlocking. */
  lemma RecordEnds(leq: Order, s: State, pid: Pid, nonce: nat, p: Publication, runs: seq<IndexEntry>)
    requires pid in s.processes && s.processes[pid].job.PromoteJob? && Temporary(pid, nonce) !in s.temporaries
    requires s.processes[pid].phase == Writing(PublicationDocument(p), true, Prepare, WriteIndex(runs))
    requires RecordFree(s.files, p)
    ensures Ends(leq, s, pid, nonce, Write(Write(s.files, PublicationDocument(p)), IndexDocument(runs)),
                 s.temporaries, true)
  {
    var document := PublicationDocument(p);
    if Stored(s.files, document).Some? {
      Commands.RewriteSame(s.files, document);
    }
    assert Installed(s.files, document, true) == Write(s.files, document);
    IndexEnds(leq, Wrote(s, pid), pid, nonce, runs);
    WriteEnds(leq, s, pid, nonce, Write(Write(s.files, document), IndexDocument(runs)), true);
  }

  /** What a promotion that holds the lock is going to leave. */
  ghost function Outcome(leq: Order, files: Files, p: Publication, policy: Policy): Files {
    if CanPromote(files, p, policy) then Promoted(leq, files, p) else files
  }

  ghost predicate Promises(leq: Order, s: State, pid: Pid, nonce: nat) {
    && pid in s.processes && s.processes[pid].job.PromoteJob?
    && var job := s.processes[pid].job;
       Ends(leq, s, pid, nonce, Outcome(leq, s.files, job.publication, job.policy), s.temporaries,
            CanPromote(s.files, job.publication, job.policy))
  }

  /** A process that reads, alone, with a free name for its temporary files. */
  ghost predicate Reads(leq: Order, s: State, pid: Pid, nonce: nat) {
    && pid in s.processes && s.processes[pid].job.PromoteJob? && Reading(s.processes[pid].phase)
    && Knows(leq, s.files, s.processes[pid].job, s.processes[pid].phase)
    && Temporary(pid, nonce) !in s.temporaries
  }

  ghost function ReadOn(leq: Order, s: State, pid: Pid): State
    requires pid in s.processes && s.processes[pid].job.PromoteJob?
  {
    var job := s.processes[pid].job;
    Become(s, pid, Read(leq, s.files, job.publication, job.policy, s.processes[pid].phase))
  }

  lemma ReadOnPromises(leq: Order, s: State, pid: Pid, nonce: nat)
    requires Reads(leq, s, pid, nonce) && Promises(leq, ReadOn(leq, s, pid), pid, nonce)
    ensures Promises(leq, s, pid, nonce)
  {
    assert Step(leq, s, pid, nonce) == ReadOn(leq, s, pid);
    var job := s.processes[pid].job;
    EndsNext(leq, s, pid, nonce, Outcome(leq, s.files, job.publication, job.policy), s.temporaries,
             CanPromote(s.files, job.publication, job.policy));
  }

  lemma GivesUp(leq: Order, s: State, pid: Pid, nonce: nat)
    requires pid in s.processes && s.processes[pid].job.PromoteJob? && s.processes[pid].phase == Unlocking(false)
    requires !CanPromote(s.files, s.processes[pid].job.publication, s.processes[pid].job.policy)
    ensures Promises(leq, s, pid, nonce)
  {
    UnlockEnds(leq, s, pid, nonce);
  }

  lemma DecidedPromises(leq: Order, s: State, pid: Pid, nonce: nat)
    requires Reads(leq, s, pid, nonce) && s.processes[pid].phase.ReadingHistory?
    requires |s.processes[pid].phase.history| == |s.processes[pid].phase.index|
    ensures Promises(leq, s, pid, nonce)
  {
    var job, phase := s.processes[pid].job, s.processes[pid].phase;
    var p := job.publication;
    DecideKnows(leq, s.files, p, job.policy, phase.previous, phase.index, phase.history);
    var next := ReadOn(leq, s, pid);
    if IndexAllows(s.files, p) {
      RecordEnds(leq, next, pid, nonce, p, NextIndex(leq, s.files, p));
    } else {
      GivesUp(leq, next, pid, nonce);
    }
    ReadOnPromises(leq, s, pid, nonce);
  }

  lemma {:induction false} HistoryPromises(leq: Order, s: State, pid: Pid, nonce: nat)
    requires Reads(leq, s, pid, nonce) && s.processes[pid].phase.ReadingHistory?
    ensures Promises(leq, s, pid, nonce)
    decreases |s.processes[pid].phase.index| - |s.processes[pid].phase.history|
  {
    var job, phase := s.processes[pid].job, s.processes[pid].phase;
    if |phase.history| == |phase.index| {
      DecidedPromises(leq, s, pid, nonce);
    } else {
      var next, run := ReadOn(leq, s, pid), phase.index[|phase.history|].run;
      ReadKnows(leq, s.files, job, phase);
      if Readable(s.files, run) {
        HistoryPromises(leq, next, pid, nonce);
      } else {
        assert phase.index[|phase.history|] in IndexOf(s.files);
        GivesUp(leq, next, pid, nonce);
      }
      ReadOnPromises(leq, s, pid, nonce);
    }
  }

  lemma ReadingPromises(leq: Order, s: State, pid: Pid, nonce: nat)
    requires Reads(leq, s, pid, nonce)
    ensures Promises(leq, s, pid, nonce)
    decreases
      if s.processes[pid].phase.ReadingRun? then 3
      else if s.processes[pid].phase.ReadingPublication? then 2
      else 1
  {
    var job, phase := s.processes[pid].job, s.processes[pid].phase;
    if phase.ReadingHistory? {
      HistoryPromises(leq, s, pid, nonce);
    } else {
      var next := ReadOn(leq, s, pid);
      ReadKnows(leq, s.files, job, phase);
      if next.processes[pid].phase.Unlocking? {
        GivesUp(leq, next, pid, nonce);
      } else if phase.ReadingIndex? {
        HistoryPromises(leq, next, pid, nonce);
      } else {
        ReadingPromises(leq, next, pid, nonce);
      }
      ReadOnPromises(leq, s, pid, nonce);
    }
  }

  /** The small steps refine the command: a promotion that is left alone with a free lock ends with
      exactly what `PromoteRun` leaves, and reports success exactly when that does. */
  lemma PromotionAloneRefinesCommand(leq: Order, s: State, pid: Pid, nonce: nat)
    requires pid in s.processes && s.processes[pid].job.PromoteJob? && s.processes[pid].phase.Locking?
    requires s.lock.None? && Temporary(pid, nonce) !in s.temporaries
    ensures
      var job := s.processes[pid].job;
      Ends(leq, s, pid, nonce,
           if CanPromote(s.files, job.publication, job.policy) then Promoted(leq, s.files, job.publication)
           else s.files,
           s.temporaries, CanPromote(s.files, job.publication, job.policy))
  {
    var job, next := s.processes[pid].job, Step(leq, s, pid, nonce);
    ReadingPromises(leq, next, pid, nonce);
    EndsNext(leq, s, pid, nonce, Outcome(leq, s.files, job.publication, job.policy), s.temporaries,
             CanPromote(s.files, job.publication, job.policy));
  }

  /** The same for storing a run. */
  lemma StoringAloneRefinesCommand(leq: Order, s: State, pid: Pid, nonce: nat)
    requires pid in s.processes && s.processes[pid].job.StoreJob? && s.processes[pid].phase.Locking?
    requires s.lock.None? && Temporary(pid, nonce) !in s.temporaries
    ensures
      var document := RunDocument(s.processes[pid].job.bundle);
      Ends(leq, s, pid, nonce,
           if Commands.Conflicts(s.files, document) then s.files else Write(s.files, document),
           s.temporaries, !Commands.Conflicts(s.files, document))
  {
    var document, next := RunDocument(s.processes[pid].job.bundle), Step(leq, s, pid, nonce);
    if Stored(s.files, document) == Some(document) {
      Commands.RewriteSame(s.files, document);
    }
    var files, ok := Installed(s.files, document, true), Succeeds(s.files, document, true);
    UnlockEnds(leq, Wrote(next, pid), pid, nonce);
    WriteEnds(leq, next, pid, nonce, files, ok);
    EndsNext(leq, s, pid, nonce, files, s.temporaries, ok);
  }

  // ---------------------------------------------------------------- archival

  lemma LookingEnds(leq: Order, s: State, pid: Pid, nonce: nat)
    requires pid in s.processes && s.processes[pid].phase.LookingForIndex?
    requires s.lock.None? && Temporary(pid, nonce) !in s.temporaries
    ensures Ends(leq, s, pid, nonce, WithIndex(s.files), s.temporaries, true)
  {
    var next := Step(leq, s, pid, nonce);
    if s.files.index.None? {
      EndedEnds(leq, Wrote(next, pid), pid, nonce);
      WriteEnds(leq, next, pid, nonce, WithIndex(s.files), true);
    } else {
      EndedEnds(leq, next, pid, nonce);
    }
    EndsNext(leq, s, pid, nonce, WithIndex(s.files), s.temporaries, true);
  }

  /** An archival that has decided to write its pointer. */
  predicate Decided(s: State, pid: Pid) {
    && pid in s.processes && s.processes[pid].job.ArchiveJob?
    && s.processes[pid].phase == Writing(PointerOfJob(s.processes[pid].job), false, Prepare, EnsureIndex)
  }

  lemma DecidedEnds(leq: Order, s: State, pid: Pid, nonce: nat)
    requires Decided(s, pid) && s.lock.None? && Temporary(pid, nonce) !in s.temporaries
    ensures Ends(leq, s, pid, nonce, WithIndex(Write(s.files, PointerOfJob(s.processes[pid].job))), s.temporaries, true)
  {
    LookingEnds(leq, Wrote(s, pid), pid, nonce);
    WriteEnds(leq, s, pid, nonce, WithIndex(Write(s.files, PointerOfJob(s.processes[pid].job))), true);
  }

  /** The run has been stored and the lock released. */
  function AtPolicy(s: State, pid: Pid): State
    requires pid in s.processes && s.processes[pid].job.ArchiveJob?
  {
    var job := s.processes[pid].job;
    Become(s, pid, Writing(PolicyDocument(RunIdOf(job.bundle), job.policy), true, Prepare, UpdatePointer))
    .(files := Write(s.files, RunDocument(job.bundle)))
  }

  /** The policy has been stored too. */
  function AtPointer(s: State, pid: Pid): State
    requires pid in s.processes && s.processes[pid].job.ArchiveJob?
  {
    var job := s.processes[pid].job;
    Become(s, pid, ReadingPointer)
    .(files := Write(Write(s.files, RunDocument(job.bundle)), PolicyDocument(RunIdOf(job.bundle), job.policy)))
  }

  lemma InstalledWrite(files: Files, d: Document)
    requires !Commands.Conflicts(files, d)
    ensures Installed(files, d, true) == Write(files, d) && Succeeds(files, d, true)
  {
    if Stored(files, d).Some? {
      Commands.RewriteSame(files, d);
    }
  }

  ghost predicate Begins(s: State, pid: Pid, nonce: nat) {
    && pid in s.processes && s.processes[pid].job.ArchiveJob? && s.processes[pid].phase.Locking?
    && s.lock.None? && Temporary(pid, nonce) !in s.temporaries
  }

  lemma PolicyReached(leq: Order, s: State, pid: Pid, nonce: nat)
    requires Begins(s, pid, nonce) && !Commands.Conflicts(s.files, RunDocument(s.processes[pid].job.bundle))
    ensures Reaches(leq, s, pid, nonce, AtPolicy(s, pid))
  {
    var locked := Step(leq, s, pid, nonce);
    var wrote := Wrote(locked, pid);
    InstalledWrite(s.files, RunDocument(s.processes[pid].job.bundle));
    StepReaches(leq, s, pid, nonce);
    WriteReaches(leq, locked, pid, nonce);
    StepReaches(leq, wrote, pid, nonce);
    assert Step(leq, wrote, pid, nonce).processes == AtPolicy(s, pid).processes;
    assert Step(leq, wrote, pid, nonce) == AtPolicy(s, pid);
    ReachesOn(leq, s, pid, nonce, locked, wrote);
    ReachesOn(leq, s, pid, nonce, wrote, AtPolicy(s, pid));
  }

  lemma PointerReached(leq: Order, s: State, pid: Pid, nonce: nat)
    requires Begins(s, pid, nonce)
    requires
      var job := s.processes[pid].job;
      && !Commands.Conflicts(s.files, RunDocument(job.bundle))
      && !Commands.Conflicts(s.files, PolicyDocument(RunIdOf(job.bundle), job.policy))
    ensures Reaches(leq, s, pid, nonce, AtPointer(s, pid))
  {
    var job, stored := s.processes[pid].job, AtPolicy(s, pid);
    PolicyReached(leq, s, pid, nonce);
    InstalledWrite(stored.files, PolicyDocument(RunIdOf(job.bundle), job.policy));
    WriteReaches(leq, stored, pid, nonce);
    assert Wrote(stored, pid).processes == AtPointer(s, pid).processes;
    ReachesOn(leq, s, pid, nonce, stored, AtPointer(s, pid));
  }

  lemma PointerEnds(leq: Order, s: State, pid: Pid, nonce: nat)
    requires pid in s.processes && s.processes[pid].job.ArchiveJob? && s.processes[pid].phase.ReadingPointer?
    requires s.lock.None? && Temporary(pid, nonce) !in s.temporaries
    ensures
      var job := s.processes[pid].job;
      var supersedes := Supersedes(PointerOf(s.files, job.number), PointerOfJob(job).pointer);
      Ends(leq, s, pid, nonce, WithIndex(if supersedes then Write(s.files, PointerOfJob(job)) else s.files),
           s.temporaries, true)
  {
    var job, next := s.processes[pid].job, Step(leq, s, pid, nonce);
    if Supersedes(PointerOf(s.files, job.number), PointerOfJob(job).pointer) {
      DecidedEnds(leq, next, pid, nonce);
      EndsNext(leq, s, pid, nonce, WithIndex(Write(s.files, PointerOfJob(job))), s.temporaries, true);
    } else {
      LookingEnds(leq, next, pid, nonce);
      EndsNext(leq, s, pid, nonce, WithIndex(s.files), s.temporaries, true);
    }
  }

  lemma RunConflictEnds(leq: Order, s: State, pid: Pid, nonce: nat)
    requires Begins(s, pid, nonce) && Commands.Conflicts(s.files, RunDocument(s.processes[pid].job.bundle))
    ensures Ends(leq, s, pid, nonce, s.files, s.temporaries, false)
  {
    var locked := Step(leq, s, pid, nonce);
    UnlockEnds(leq, Wrote(locked, pid), pid, nonce);
    WriteEnds(leq, locked, pid, nonce, s.files, false);
    EndsNext(leq, s, pid, nonce, s.files, s.temporaries, false);
  }

  lemma PolicyConflictEnds(leq: Order, s: State, pid: Pid, nonce: nat)
    requires Begins(s, pid, nonce) && !Commands.Conflicts(s.files, RunDocument(s.processes[pid].job.bundle))
    requires
      var job := s.processes[pid].job;
      Commands.Conflicts(s.files, PolicyDocument(RunIdOf(job.bundle), job.policy))
    ensures Ends(leq, s, pid, nonce, Write(s.files, RunDocument(s.processes[pid].job.bundle)), s.temporaries, false)
  {
    var stored := AtPolicy(s, pid);
    PolicyReached(leq, s, pid, nonce);
    EndedEnds(leq, Wrote(stored, pid), pid, nonce);
    WriteEnds(leq, stored, pid, nonce, stored.files, false);
    EndsOn(leq, s, stored, pid, nonce, stored.files, s.temporaries, false);
  }

  /** A job that the protocol refuses at once is one that its command refuses, whatever is in the store. */
  lemma InvalidJobsRefused(files: Files, job: Job)
    requires !ValidJob(job)
    ensures
      match job
      case StoreJob(bundle, policy) => !Publishable(bundle, policy)
      case ArchiveJob(bundle, policy, number, createdAt) =>
        && !Commands.CanArchive(files, bundle, policy)
        && Commands.AfterArchival(files, bundle, policy, number, createdAt) == files
      case PromoteJob(p, policy) => !CanPromote(files, p, policy)
  {
  }

  /** The same for archival, which writes most of its files outside the lock. */
  lemma ArchivingAloneRefinesCommand(leq: Order, s: State, pid: Pid, nonce: nat)
    requires Begins(s, pid, nonce) && ValidJob(s.processes[pid].job)
    ensures
      var job := s.processes[pid].job;
      Ends(leq, s, pid, nonce,
           Commands.AfterArchival(s.files, job.bundle, job.policy, job.number, job.createdAt),
           s.temporaries, Commands.CanArchive(s.files, job.bundle, job.policy))
  {
    var job, reading := s.processes[pid].job, AtPointer(s, pid);
    if Commands.Conflicts(s.files, RunDocument(job.bundle)) {
      RunConflictEnds(leq, s, pid, nonce);
    } else if Commands.Conflicts(s.files, PolicyDocument(RunIdOf(job.bundle), job.policy)) {
      PolicyConflictEnds(leq, s, pid, nonce);
    } else {
      PointerReached(leq, s, pid, nonce);
      PointerEnds(leq, reading, pid, nonce);
      var files := Archived(s.files, job.bundle, job.policy, job.number, job.createdAt);
      EndsOn(leq, s, reading, pid, nonce, files, s.temporaries, true);
    }
  }
}
