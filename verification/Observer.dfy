/** The CPU time observer. */
module Observer {

  // Workers register guest calls in a shared map, and one monitor thread scans the map and interrupts the
  // calls whose threads have used too much CPU time. Every lock operation, clock reading and map update is
  // one step, and steps of all threads interleave in any order.

  type Thread = nat

  /** The address of an interrupt handle. */
  type Handle = nat

  // ---------------------------------------------------------------- the map, one call at a time

  /** A map entry. The registration says which call of `start_timeout` made it. */
  datatype Info = Info(start: nat, thread: Thread, registration: nat)

  /** Whether `elapsed >= timeout`. The subtraction must not underflow. */
  predicate Overdue(info: Info, now: nat, timeout: nat)
    requires info.start <= now
  {
    now - info.start >= timeout
  }

  function ClockOf(clock: map<Thread, nat>, thread: Thread): nat {
    if thread in clock then clock[thread] else 0
  }

  predicate Measurable(clock: map<Thread, nat>, monitors: map<Handle, Info>) {
    forall h <- monitors :: monitors[h].start <= ClockOf(clock, monitors[h].thread)
  }

  /** The entries that `retain` keeps when no clock moves during the scan. */
  function Kept(clock: map<Thread, nat>, monitors: map<Handle, Info>, timeout: nat): map<Handle, Info>
    requires Measurable(clock, monitors)
  {
    map h | h in monitors && !Overdue(monitors[h], ClockOf(clock, monitors[h].thread), timeout) :: monitors[h]
  }

  /** The map, the registrations whose guests were interrupted, and the number of registrations. */
  datatype Table = Table(monitors: map<Handle, Info>, killed: set<nat>, registrations: nat)

  /** `start_timeout`: replaces any entry for the handle. */
  function Start(table: Table, handle: Handle, thread: Thread, now: nat): Table {
    Table(table.monitors[handle := Info(now, thread, table.registrations)], table.killed, table.registrations + 1)
  }

  /** `stop_timeout`. */
  function Stop(table: Table, handle: Handle): Table {
    table.(monitors := table.monitors - {handle})
  }

  /** One scan in which no clock moves. */
  function Scanned(table: Table, clock: map<Thread, nat>, timeout: nat): Table
    requires Measurable(clock, table.monitors)
  {
    var kept := Kept(clock, table.monitors, timeout);
    table.(monitors := kept,
           killed := table.killed + set h | h in table.monitors && h !in kept :: table.monitors[h].registration)
  }

  class CpuTimeObserver {
    var monitors: map<Handle, Info>
    var killed: set<nat>
    var registrations: nat
    const timeout: nat

    ghost function Value(): Table
      reads this
    {
      Table(monitors, killed, registrations)
    }

    constructor (timeout: nat)
      ensures this.timeout == timeout && Value() == Table(map[], {}, 0)
    {
      this.timeout := timeout;
      monitors, killed, registrations := map[], {}, 0;
    }

    method StartTimeout(handle: Handle, thread: Thread, now: nat) returns (start: nat)
      modifies this
      ensures start == now && Value() == Start(old(Value()), handle, thread, now)
    {
      start := now;
      monitors := monitors[handle := Info(start, thread, registrations)];
      registrations := registrations + 1;
    }

    method StopTimeout(handle: Handle)
      modifies this
      ensures Value() == Stop(old(Value()), handle)
    {
      monitors := monitors - {handle};
    }

    /** One scan: visits all entries in any order, kills the overdue ones and keeps the others. */
    method Scan(clock: map<Thread, nat>)
      requires Measurable(clock, monitors)
      modifies this
      ensures Value() == Scanned(old(Value()), clock, timeout)
    {
      var left := monitors.Keys;
      while left != {}
        invariant left <= monitors.Keys && monitors.Keys <= old(monitors).Keys
        invariant registrations == old(registrations)
        invariant forall h :: h in monitors ==> monitors[h] == old(monitors)[h]
        invariant forall h :: h in old(monitors) && h !in left ==>
          (h in monitors <==> !Overdue(old(monitors)[h], ClockOf(clock, old(monitors)[h].thread), timeout))
        invariant killed == old(killed) + set h | h in old(monitors) && h !in monitors :: old(monitors)[h].registration
        decreases left
      {
        var h :| h in left;
        var info := monitors[h];
        if Overdue(info, ClockOf(clock, info.thread), timeout) {
          killed := killed + {info.registration};
          monitors := monitors - {h};
        }
        left := left - {h};
      }
    }
  }

  // ---------------------------------------------------------------- interleaved threads

  /** Where a worker is between the beginning of `start_timeout` and the end of `stop_timeout`. */
  datatype Point = Measured | Locked | Inserted | Unlocked | Running | Stopping | StopLocked | Removed

  datatype Call =
    | Idle
    | Call(handle: Handle, start: nat, registration: nat, at: Point)

  datatype Phase =
    | Top
    | Wanting
    | Testing
    | Waiting
    | Woken
    | WantingScan
    | Scanning(left: set<Handle>, due: set<nat>)
    | Sleeping

  datatype Owner = Nobody | Caller(thread: Thread) | Monitor

  datatype Event =
    | Registered(registration: nat)
    | Killed(registration: nat, elapsed: nat)
    | Returned(registration: nat)
    | ScanEnded(due: set<nat>)

  datatype State = State(
    timeout: nat,
    clock: map<Thread, nat>,
    calls: map<Thread, Call>,
    monitors: map<Handle, Info>,
    lock: Owner,
    monitor: Phase,
    log: seq<Event>,
    next: nat)

  predicate Holds(call: Call) {
    call.Call? && (call.at.Locked? || call.at.Inserted? || call.at.StopLocked? || call.at.Removed?)
  }

  /** From the insertion to the removal. */
  predicate MayBeRegistered(call: Call) {
    call.Call?
      && (call.at.Inserted? || call.at.Unlocked? || call.at.Running? || call.at.Stopping? || call.at.StopLocked?)
  }

  /** Between its insertion and its notification. */
  predicate AboutToNotify(call: Call) {
    call.Call? && (call.at.Inserted? || call.at.Unlocked?)
  }

  predicate MonitorHolds(phase: Phase) {
    phase.Testing? || phase.Scanning?
  }

  predicate Uses(call: Call, handle: Handle) {
    call.Call? && call.handle == handle
  }

  datatype Action =
    | Tick(thread: Thread, amount: nat)
    | Begin(thread: Thread, handle: Handle)
    | Advance(thread: Thread)
    | MonitorStep
    | Examine(handle: Handle)
    | SpuriousWakeup

  ghost predicate Enabled(s: State, a: Action) {
    match a
    case Tick(t, _) => t in s.clock
    case Begin(t, h) =>
      // A handle belongs to one sandbox, which stays on its thread while it is observed.
      t in s.calls && s.calls[t].Idle? && forall u :: u in s.calls ==> !Uses(s.calls[u], h)
    case Advance(t) =>
      t in s.calls && s.calls[t].Call? && (s.calls[t].at.Measured? || s.calls[t].at.Stopping? ==> s.lock.Nobody?)
    case MonitorStep =>
      (match s.monitor
       case Wanting => s.lock.Nobody?
       case Woken => s.lock.Nobody?
       case WantingScan => s.lock.Nobody?
       case Waiting => false
       case Scanning(left, _) => left == {}
       case _ => true)
    case Examine(h) => s.monitor.Scanning? && h in s.monitor.left
    case SpuriousWakeup => s.monitor.Waiting?
  }

  function AtPoint(s: State, t: Thread, at: Point): State
    requires t in s.calls && s.calls[t].Call?
  {
    s.(calls := s.calls[t := s.calls[t].(at := at)])
  }

  /** One step of a worker. */
  function AdvanceCall(s: State, t: Thread): State
    requires t in s.calls && s.calls[t].Call?
  {
    var c := s.calls[t];
    match c.at
    case Measured => AtPoint(s, t, Locked).(lock := Caller(t))
    case Locked =>
      AtPoint(s, t, Inserted).(
      monitors := s.monitors[c.handle := Info(c.start, t, c.registration)],
      log := s.log + [Registered(c.registration)])
    case Inserted => AtPoint(s, t, Unlocked).(lock := Nobody)
    case Unlocked => AtPoint(s, t, Running).(monitor := if s.monitor.Waiting? then Woken else s.monitor)
    case Running => AtPoint(s, t, Stopping)
    case Stopping => AtPoint(s, t, StopLocked).(lock := Caller(t))
    case StopLocked => AtPoint(s, t, Removed).(monitors := s.monitors - {c.handle})
    case Removed => s.(calls := s.calls[t := Idle], lock := Nobody, log := s.log + [Returned(c.registration)])
  }

  predicate IsOverdue(s: State, h: Handle)
    requires h in s.monitors
  {
    var info := s.monitors[h];
    info.start <= ClockOf(s.clock, info.thread) && Overdue(info, ClockOf(s.clock, info.thread), s.timeout)
  }

  /** Registrations that are overdue now. */
  function DueNow(s: State): set<nat> {
    set h | h in s.monitors && IsOverdue(s, h) :: s.monitors[h].registration
  }

  /** One step of the monitor, except the examination of an entry. */
  function AdvanceMonitor(s: State): State {
    match s.monitor
    case Top => s.(monitor := Wanting)
    case Wanting => s.(monitor := Testing, lock := Monitor)
    case Testing => s.(monitor := if s.monitors == map[] then Waiting else WantingScan, lock := Nobody)
    case Waiting => s
    case Woken => s.(monitor := Testing, lock := Monitor)
    case WantingScan => s.(monitor := Scanning(s.monitors.Keys, DueNow(s)), lock := Monitor)
    case Scanning(_, due) => s.(monitor := Sleeping, lock := Nobody, log := s.log + [ScanEnded(due)])
    case Sleeping => s.(monitor := Top)
  }

  /** The closure of `retain` on one entry: it reads the clock of the entry's thread at that moment. */
  function ExamineEntry(s: State, h: Handle): State
    requires s.monitor.Scanning?
  {
    var scanning := s.(monitor := s.monitor.(left := s.monitor.left - {h}));
    if h in s.monitors && IsOverdue(s, h) then
      var info := s.monitors[h];
      scanning.(
      monitors := s.monitors - {h},
      log := s.log + [Killed(info.registration, ClockOf(s.clock, info.thread) - info.start)])
    else scanning
  }

  ghost function Apply(s: State, a: Action): State
    requires Enabled(s, a)
  {
    match a
    case Tick(t, amount) => s.(clock := s.clock[t := s.clock[t] + amount])
    case Begin(t, h) => s.(calls := s.calls[t := Call(h, ClockOf(s.clock, t), s.next, Measured)], next := s.next + 1)
    case Advance(t) => AdvanceCall(s, t)
    case MonitorStep => AdvanceMonitor(s)
    case Examine(h) => ExamineEntry(s, h)
    case SpuriousWakeup => s.(monitor := Woken)
  }

  // ---------------------------------------------------------------- what every state keeps

  ghost predicate Exclusive(s: State) {
    && (forall t :: t in s.calls && Holds(s.calls[t]) ==> s.lock == Caller(t))
    && (MonitorHolds(s.monitor) ==> s.lock == Monitor)
  }

  /** Calls have different handles and different registrations. */
  ghost predicate Apart(s: State) {
    && (forall t :: t in s.calls && s.calls[t].Call? ==> s.calls[t].registration < s.next)
    && (forall t, u :: t in s.calls && u in s.calls && t != u && s.calls[t].Call? && s.calls[u].Call? ==>
      s.calls[t].handle != s.calls[u].handle && s.calls[t].registration != s.calls[u].registration)
  }

  /** An entry belongs to the call that made it, which has not been removed. */
  ghost predicate EntryOwned(s: State, h: Handle)
    requires h in s.monitors
  {
    var info := s.monitors[h];
    && info.thread in s.calls && MayBeRegistered(s.calls[info.thread])
    && s.calls[info.thread].handle == h
    && s.calls[info.thread].start == info.start
    && s.calls[info.thread].registration == info.registration
  }

  ghost predicate Owned(s: State) {
    forall h :: h in s.monitors ==> EntryOwned(s, h)
  }

  /** No clock is behind a measurement of it, so no elapsed time underflows. */
  ghost predicate Timed(s: State) {
    && s.calls.Keys == s.clock.Keys
    && forall t :: t in s.calls && s.calls[t].Call? ==> s.calls[t].start <= s.clock[t]
  }

  /** No registration wakeup is lost. */
  ghost predicate WakeupComing(s: State) {
    s.monitor.Waiting? && s.monitors != map[] ==> exists t :: t in s.calls && AboutToNotify(s.calls[t])
  }

  ghost predicate WasKilled(log: seq<Event>, registration: nat) {
    exists i :: 0 <= i < |log| && log[i].Killed? && log[i].registration == registration
  }

  ghost predicate HasReturned(log: seq<Event>, registration: nat) {
    Returned(registration) in log
  }

  ghost predicate WasRegistered(log: seq<Event>, registration: nat) {
    Registered(registration) in log
  }

  /** Registrations that have not been handed out have left no trace. */
  ghost predicate Fresh(s: State) {
    forall r :: r >= s.next ==> !WasKilled(s.log, r) && !HasReturned(s.log, r) && !WasRegistered(s.log, r)
  }

  /** A call that has not returned is not logged as returned, and not killed while it has an entry. */
  ghost predicate Unfinished(s: State) {
    && (forall t :: t in s.calls && s.calls[t].Call? ==> !HasReturned(s.log, s.calls[t].registration))
    && (forall t :: t in s.calls && s.calls[t].Call? && (s.calls[t].at.Measured? || s.calls[t].at.Locked?) ==>
      !WasKilled(s.log, s.calls[t].registration))
    && (forall h :: h in s.monitors ==>
      !WasKilled(s.log, s.monitors[h].registration) && WasRegistered(s.log, s.monitors[h].registration))
  }

  /** A scan has killed what was due when it began, or is still going to examine it. */
  ghost predicate ScanOnTrack(s: State) {
    s.monitor.Scanning? ==>
      && s.monitor.left <= s.monitors.Keys
      && forall r :: r in s.monitor.due ==> WasKilled(s.log, r) || StillDue(s, r)
  }

  ghost predicate StillDue(s: State, registration: nat)
    requires s.monitor.Scanning?
  {
    exists h :: h in s.monitor.left && h in s.monitors && s.monitors[h].registration == registration && IsOverdue(s, h)
  }

  // ---------------------------------------------------------------- what the log says

  ghost predicate KillsAtMostOnce(log: seq<Event>) {
    forall i, j :: 0 <= i < j < |log| && log[i].Killed? && log[j].Killed? ==> log[i].registration != log[j].registration
  }

  ghost predicate NoKillAfterReturn(log: seq<Event>) {
    forall i, j :: 0 <= i < j < |log| && log[i].Returned? && log[j].Killed? ==>
      log[i].registration != log[j].registration
  }

  ghost predicate KillsDeserved(log: seq<Event>, timeout: nat) {
    forall j :: 0 <= j < |log| && log[j].Killed? ==>
      log[j].elapsed >= timeout && WasRegistered(log[..j], log[j].registration)
  }

  ghost predicate ScansComplete(log: seq<Event>) {
    forall j, r :: 0 <= j < |log| && log[j].ScanEnded? && r in log[j].due ==> WasKilled(log[..j], r)
  }

  ghost predicate GoodLog(log: seq<Event>, timeout: nat) {
    KillsAtMostOnce(log) && NoKillAfterReturn(log) && KillsDeserved(log, timeout) && ScansComplete(log)
  }

  ghost predicate Invariant(s: State) {
    && Exclusive(s) && Apart(s) && Owned(s) && Timed(s)
    && WakeupComing(s) && Fresh(s) && Unfinished(s) && ScanOnTrack(s)
    && GoodLog(s.log, s.timeout)
  }

  // ---------------------------------------------------------------- one step

  lemma ExclusiveKept(s: State, a: Action)
    requires Enabled(s, a) && Exclusive(s)
    ensures Exclusive(Apply(s, a))
  {
  }

  lemma OwnOrigin(s: State, t: Thread)
    requires Enabled(s, Advance(t)) && AdvanceCall(s, t).calls[t].Call?
    ensures
      var c, before := AdvanceCall(s, t).calls[t], s.calls[t];
      && before.Call? && before.handle == c.handle && before.start == c.start && before.registration == c.registration
      && (c.at.Measured? || c.at.Locked? ==> before.at.Measured? || before.at.Locked?)
  {
  }

  lemma OtherOrigin(s: State, a: Action, t: Thread)
    requires Enabled(s, a) && t in Apply(s, a).calls && !(a.Advance? && a.thread == t)
    ensures t in s.calls
    ensures
      var c := Apply(s, a).calls[t];
      if a.Begin? && a.thread == t then c == Call(a.handle, ClockOf(s.clock, t), s.next, Measured) else c == s.calls[t]
  {
  }

  /** A call is the one it was before, or has just begun. */
  lemma CallOrigin(s: State, a: Action, t: Thread)
    requires Enabled(s, a) && t in Apply(s, a).calls && Apply(s, a).calls[t].Call?
    ensures t in s.calls
    ensures
      var c := Apply(s, a).calls[t];
      if a.Begin? && a.thread == t then c.handle == a.handle && c.registration == s.next && c.at.Measured?
      else
        && s.calls[t].Call? && s.calls[t].handle == c.handle && s.calls[t].registration == c.registration
        && (c.at.Measured? || c.at.Locked? ==> s.calls[t].at.Measured? || s.calls[t].at.Locked?)
  {
    if a.Advance? && a.thread == t {
      OwnOrigin(s, t);
    } else {
      OtherOrigin(s, a, t);
    }
  }

  lemma ApartKept(s: State, a: Action)
    requires Enabled(s, a) && Apart(s)
    ensures Apart(Apply(s, a))
  {
    var after := Apply(s, a);
    StepWrites(s, a);
    forall t | t in after.calls && after.calls[t].Call?
      ensures after.calls[t].registration < after.next
    {
      CallOrigin(s, a, t);
    }
    forall t, u | t in after.calls && u in after.calls && t != u && after.calls[t].Call? && after.calls[u].Call?
      ensures after.calls[t].handle != after.calls[u].handle
      ensures after.calls[t].registration != after.calls[u].registration
    {
      CallOrigin(s, a, t);
      CallOrigin(s, a, u);
    }
  }

  lemma AdvanceFrame(s: State, t: Thread)
    requires t in s.calls && s.calls[t].Call?
    ensures
      var after := AdvanceCall(s, t);
      && after.clock == s.clock && after.calls.Keys == s.calls.Keys
      && forall u :: u in s.calls && u != t ==> after.calls[u] == s.calls[u]
  {
  }

  lemma AdvanceTimed(s: State, t: Thread)
    requires Enabled(s, Advance(t)) && Timed(s)
    ensures Timed(AdvanceCall(s, t))
  {
    var after := AdvanceCall(s, t);
    AdvanceFrame(s, t);
    forall u | u in after.calls && after.calls[u].Call?
      ensures after.calls[u].start <= after.clock[u]
    {
      if u == t {
        OwnOrigin(s, t);
      } else {
        assert after.calls[u] == s.calls[u];
      }
    }
  }

  lemma OtherTimed(s: State, a: Action)
    requires Enabled(s, a) && !a.Advance? && Timed(s)
    ensures Timed(Apply(s, a))
  {
  }

  lemma TimedKept(s: State, a: Action)
    requires Enabled(s, a) && Timed(s)
    ensures Timed(Apply(s, a))
  {
    if a.Advance? {
      AdvanceTimed(s, a.thread);
    } else {
      OtherTimed(s, a);
    }
  }

  /** A worker's step changes only its own call, and leaves what identifies it. */
  lemma CallStep(s: State, t: Thread)
    requires Enabled(s, Advance(t))
    ensures
      var c, after := s.calls[t], AdvanceCall(s, t);
      && after.calls == s.calls[t := after.calls[t]]
      && ((MayBeRegistered(c) && !c.at.StopLocked?) || c.at.Locked? ==>
        MayBeRegistered(after.calls[t]) && after.calls[t] == c.(at := after.calls[t].at))
      && after.monitors ==
        if c.at.Locked? then s.monitors[c.handle := Info(c.start, t, c.registration)]
        else if c.at.StopLocked? then s.monitors - {c.handle}
        else s.monitors
  {
  }

  lemma OwnedAfterCall(s: State, t: Thread, h: Handle)
    requires Enabled(s, Advance(t)) && Owned(s) && h in AdvanceCall(s, t).monitors
    ensures EntryOwned(AdvanceCall(s, t), h)
  {
    CallStep(s, t);
    if h in s.monitors {
      assert EntryOwned(s, h);
    }
  }

  lemma OwnedKept(s: State, a: Action)
    requires Enabled(s, a) && Owned(s) && Apart(s)
    ensures Owned(Apply(s, a))
  {
    var after := Apply(s, a);
    forall h | h in after.monitors
      ensures EntryOwned(after, h)
    {
      if a.Advance? {
        OwnedAfterCall(s, a.thread, h);
      } else {
        assert EntryOwned(s, h);
      }
    }
  }

  lemma WakeupKept(s: State, a: Action)
    requires Enabled(s, a) && WakeupComing(s)
    ensures WakeupComing(Apply(s, a))
  {
    var after := Apply(s, a);
    if after.monitor.Waiting? && after.monitors != map[] {
      if s.monitor.Waiting? && s.monitors != map[] {
        var t :| t in s.calls && AboutToNotify(s.calls[t]);
        assert AboutToNotify(after.calls[t]);
      } else if a.Advance? {
        assert AboutToNotify(after.calls[a.thread]);
      }
    }
  }

  lemma Logged(log: seq<Event>, e: Event, r: nat)
    ensures WasKilled(log + [e], r) <==> WasKilled(log, r) || (e.Killed? && e.registration == r)
    ensures HasReturned(log + [e], r) <==> HasReturned(log, r) || e == Returned(r)
    ensures WasRegistered(log + [e], r) <==> WasRegistered(log, r) || e == Registered(r)
  {
    var longer := log + [e];
    if WasKilled(log, r) {
      var i :| 0 <= i < |log| && log[i].Killed? && log[i].registration == r;
      assert longer[i] == log[i];
    }
    if e.Killed? && e.registration == r {
      assert longer[|log|] == e;
    }
  }

  /** What a step writes to the log. */
  ghost function Written(s: State, a: Action): seq<Event>
    requires Enabled(s, a)
  {
    match a
    case Advance(t) =>
      if s.calls[t].at.Locked? then [Registered(s.calls[t].registration)]
      else if s.calls[t].at.Removed? then [Returned(s.calls[t].registration)]
      else []
    case MonitorStep => if s.monitor.Scanning? then [ScanEnded(s.monitor.due)] else []
    case Examine(h) =>
      if h in s.monitors && IsOverdue(s, h) then
        [Killed(s.monitors[h].registration, ClockOf(s.clock, s.monitors[h].thread) - s.monitors[h].start)]
      else []
    case _ => []
  }

  lemma StepWrites(s: State, a: Action)
    requires Enabled(s, a)
    ensures Apply(s, a).log == s.log + Written(s, a) && |Written(s, a)| <= 1
    ensures Apply(s, a).timeout == s.timeout && Apply(s, a).next >= s.next
  {
    assert s.log + [] == s.log;
  }

  /** An entry is the one it was before, or has just been inserted. */
  lemma EntryOrigin(s: State, a: Action, h: Handle)
    requires Enabled(s, a) && h in Apply(s, a).monitors
    ensures
      || (h in s.monitors && Apply(s, a).monitors[h] == s.monitors[h] && a != Examine(h))
      || (h in s.monitors && Apply(s, a).monitors[h] == s.monitors[h] && Written(s, a) == [])
      || (a.Advance? && s.calls[a.thread].at.Locked?
         && Apply(s, a).monitors[h].registration == s.calls[a.thread].registration)
  {
  }

  /** What is written about a registration. */
  lemma WrittenAbout(s: State, a: Action, r: nat)
    requires Enabled(s, a)
    ensures
      var log, written := Apply(s, a).log, Written(s, a);
      && (WasKilled(log, r) <==>
         WasKilled(s.log, r) || (written != [] && written[0].Killed? && written[0].registration == r))
      && (HasReturned(log, r) <==> HasReturned(s.log, r) || written == [Returned(r)])
      && (WasRegistered(log, r) <==> WasRegistered(s.log, r) || written == [Registered(r)])
  {
    StepWrites(s, a);
    var written := Written(s, a);
    if written != [] {
      assert s.log + written == s.log + [written[0]];
      Logged(s.log, written[0], r);
    } else {
      assert s.log + written == s.log;
    }
  }

  lemma FreshKept(s: State, a: Action)
    requires Enabled(s, a) && Fresh(s) && Apart(s) && Owned(s)
    ensures Fresh(Apply(s, a))
  {
    StepWrites(s, a);
    forall r | r >= Apply(s, a).next
      ensures !WasKilled(Apply(s, a).log, r) && !HasReturned(Apply(s, a).log, r) && !WasRegistered(Apply(s, a).log, r)
    {
      WrittenAbout(s, a, r);
      if a.Examine? && a.handle in s.monitors {
        assert EntryOwned(s, a.handle);
      }
    }
  }

  lemma UnfinishedCalls(s: State, a: Action, t: Thread)
    requires Enabled(s, a) && Fresh(s) && Apart(s) && Owned(s) && Unfinished(s)
    requires t in Apply(s, a).calls && Apply(s, a).calls[t].Call?
    ensures
      var after := Apply(s, a);
      && !HasReturned(after.log, after.calls[t].registration)
      && (after.calls[t].at.Measured? || after.calls[t].at.Locked? ==>
         !WasKilled(after.log, after.calls[t].registration))
  {
    CallOrigin(s, a, t);
    WrittenAbout(s, a, Apply(s, a).calls[t].registration);
    if a.Examine? && a.handle in s.monitors {
      assert EntryOwned(s, a.handle);
    }
  }

  lemma UnfinishedEntries(s: State, a: Action, h: Handle)
    requires Enabled(s, a) && Apart(s) && Owned(s) && Unfinished(s) && h in Apply(s, a).monitors
    ensures
      var after := Apply(s, a);
      !WasKilled(after.log, after.monitors[h].registration) && WasRegistered(after.log, after.monitors[h].registration)
  {
    EntryOrigin(s, a, h);
    WrittenAbout(s, a, Apply(s, a).monitors[h].registration);
    if h in s.monitors {
      assert EntryOwned(s, h);
    }
    if a.Examine? && a.handle in s.monitors {
      assert EntryOwned(s, a.handle);
    }
  }

  lemma UnfinishedKept(s: State, a: Action)
    requires Enabled(s, a) && Exclusive(s) && Fresh(s) && Apart(s) && Owned(s) && Unfinished(s)
    ensures Unfinished(Apply(s, a))
  {
    var after := Apply(s, a);
    forall t | t in after.calls && after.calls[t].Call?
      ensures !HasReturned(after.log, after.calls[t].registration)
      ensures after.calls[t].at.Measured? || after.calls[t].at.Locked? ==>
        !WasKilled(after.log, after.calls[t].registration)
    {
      UnfinishedCalls(s, a, t);
    }
    forall h | h in after.monitors
      ensures !WasKilled(after.log, after.monitors[h].registration)
      ensures WasRegistered(after.log, after.monitors[h].registration)
    {
      UnfinishedEntries(s, a, h);
    }
  }

  /** While the monitor scans, nothing else changes the map, and clocks only advance. */
  lemma ScanUndisturbed(s: State, a: Action, h: Handle)
    requires Enabled(s, a) && Exclusive(s) && s.monitor.Scanning? && h in s.monitors && h in s.monitor.left
    requires a != Examine(h)
    ensures
      var after := Apply(s, a);
      && h in after.monitors && after.monitors[h] == s.monitors[h]
      && after.monitor.Scanning? && h in after.monitor.left && after.monitor.due == s.monitor.due
      && (IsOverdue(s, h) ==> IsOverdue(after, h))
  {
  }

  lemma ScanStays(s: State, a: Action, r: nat)
    requires Enabled(s, a) && Exclusive(s) && s.monitor.Scanning? && Apply(s, a).monitor.Scanning?
    requires WasKilled(s.log, r) || StillDue(s, r)
    ensures WasKilled(Apply(s, a).log, r) || StillDue(Apply(s, a), r)
  {
    WrittenAbout(s, a, r);
    if !WasKilled(s.log, r) {
      var h :| h in s.monitor.left && h in s.monitors && s.monitors[h].registration == r && IsOverdue(s, h);
      if a != Examine(h) {
        ScanUndisturbed(s, a, h);
      }
    }
  }

  lemma ScanBegins(s: State, a: Action)
    requires Enabled(s, a) && !s.monitor.Scanning? && Apply(s, a).monitor.Scanning?
    ensures ScanOnTrack(Apply(s, a))
  {
    var after := Apply(s, a);
    forall r | r in after.monitor.due
      ensures StillDue(after, r)
    {
      var h :| h in s.monitors && IsOverdue(s, h) && s.monitors[h].registration == r;
      assert IsOverdue(after, h);
    }
  }

  lemma ScanKept(s: State, a: Action)
    requires Enabled(s, a) && Exclusive(s) && ScanOnTrack(s)
    ensures ScanOnTrack(Apply(s, a))
  {
    var after := Apply(s, a);
    if after.monitor.Scanning? && s.monitor.Scanning? {
      forall r | r in after.monitor.due
        ensures WasKilled(after.log, r) || StillDue(after, r)
      {
        ScanStays(s, a, r);
      }
    } else if after.monitor.Scanning? {
      ScanBegins(s, a);
    }
  }

  lemma LogKept(s: State, a: Action)
    requires Enabled(s, a) && Apart(s) && Owned(s) && Unfinished(s) && ScanOnTrack(s) && GoodLog(s.log, s.timeout)
    ensures GoodLog(Apply(s, a).log, s.timeout)
  {
    StepWrites(s, a);
    var log, written := s.log, Written(s, a);
    if written != [] {
      assert log + written == log + [written[0]];
      assert (log + [written[0]])[..|log|] == log;
      if a.Examine? {
        assert EntryOwned(s, a.handle);
      }
      AppendGood(log, written[0], s.timeout);
    } else {
      assert log + written == log;
    }
  }

  lemma AppendGood(log: seq<Event>, e: Event, timeout: nat)
    requires GoodLog(log, timeout)
    requires e.Killed? ==>
      && !WasKilled(log, e.registration) && !HasReturned(log, e.registration)
      && WasRegistered(log, e.registration) && e.elapsed >= timeout
    requires e.ScanEnded? ==> forall r :: r in e.due ==> WasKilled(log, r)
    ensures GoodLog(log + [e], timeout)
  {
    var longer := log + [e];
    forall j | 0 <= j < |longer|
      ensures longer[..j] == if j < |log| then log[..j] else log
    {
    }
  }

  /** Every step keeps the invariant. */
  lemma StepKeepsInvariant(s: State, a: Action)
    requires Enabled(s, a) && Invariant(s)
    ensures Invariant(Apply(s, a))
  {
    ExclusiveKept(s, a);
    ApartKept(s, a);
    OwnedKept(s, a);
    TimedKept(s, a);
    WakeupKept(s, a);
    FreshKept(s, a);
    UnfinishedKept(s, a);
    ScanKept(s, a);
    LogKept(s, a);
    StepWrites(s, a);
  }

  // ---------------------------------------------------------------- whole runs

  ghost predicate CanRun(s: State, actions: seq<Action>)
    decreases |actions|
  {
    actions != [] ==> Enabled(s, actions[0]) && CanRun(Apply(s, actions[0]), actions[1..])
  }

  ghost function RunAll(s: State, actions: seq<Action>): State
    requires CanRun(s, actions)
    decreases |actions|
  {
    if actions == [] then s else RunAll(Apply(s, actions[0]), actions[1..])
  }

  /** A new observer: nothing is registered and nothing has happened. */
  ghost predicate Initial(s: State) {
    && s.monitors == map[] && s.lock.Nobody? && s.monitor.Top? && s.log == []
    && s.calls.Keys == s.clock.Keys
    && forall t :: t in s.calls ==> s.calls[t].Idle?
  }

  lemma {:induction false} RunKeepsInvariant(s: State, actions: seq<Action>)
    requires Invariant(s) && CanRun(s, actions)
    ensures Invariant(RunAll(s, actions)) && RunAll(s, actions).timeout == s.timeout
    decreases |actions|
  {
    if actions == [] {
    } else {
      StepKeepsInvariant(s, actions[0]);
      StepWrites(s, actions[0]);
      RunKeepsInvariant(Apply(s, actions[0]), actions[1..]);
    }
  }

  lemma ReachesInvariant(s: State, actions: seq<Action>)
    requires Initial(s) && CanRun(s, actions)
    ensures Invariant(RunAll(s, actions)) && RunAll(s, actions).timeout == s.timeout
  {
    RunKeepsInvariant(s, actions);
  }

  /** In every interleaving, an interrupt fires at most once for a registration, only after it was
      registered and when its thread had used at least the timeout since then, and never after
      `stop_timeout` returned. Every scan interrupts each registration that was due when it began. */
  lemma InterruptsJustified(s: State, actions: seq<Action>, i: nat, j: nat)
    requires Initial(s) && CanRun(s, actions)
    requires i < j < |RunAll(s, actions).log|
    ensures
      var log := RunAll(s, actions).log;
      && (log[i].Killed? && log[j].Killed? ==> log[i].registration != log[j].registration)
      && (log[i].Returned? && log[j].Killed? ==> log[i].registration != log[j].registration)
      && (log[j].Killed? ==> log[j].elapsed >= s.timeout && Registered(log[j].registration) in log[..j])
      && (log[j].ScanEnded? ==> forall r :: r in log[j].due ==> WasKilled(log[..j], r))
  {
    ReachesInvariant(s, actions);
  }

  lemma ScanGoesOn(s: State, a: Action)
    requires Enabled(s, a) && s.monitor.Scanning? && a != MonitorStep
    ensures Apply(s, a).monitor.Scanning? && Apply(s, a).monitor.due == s.monitor.due
  {
  }

  lemma {:induction false} ScanRemembers(s: State, during: seq<Action>, r: nat)
    requires Invariant(s) && CanRun(s, during) && MonitorStep !in during
    requires s.monitor.Scanning? && r in s.monitor.due
    ensures ScanOnTrack(RunAll(s, during)) && RunAll(s, during).monitor.Scanning?
    ensures r in RunAll(s, during).monitor.due
    decreases |during|
  {
    if during != [] {
      var a := during[0];
      assert a in during && forall b :: b in during[1..] ==> b in during;
      StepKeepsInvariant(s, a);
      ScanGoesOn(s, a);
      ScanRemembers(Apply(s, a), during[1..], r);
    }
  }

  lemma DueAtBegin(t: State, h: Handle)
    requires Invariant(t) && t.monitor.WantingScan? && h in t.monitors
    ensures
      var info := t.monitors[h];
      && info.thread in t.clock && info.start <= t.clock[info.thread]
      && (info.registration in AdvanceMonitor(t).monitor.due <==> t.clock[info.thread] - info.start >= t.timeout)
  {
    assert EntryOwned(t, h);
    forall i | i in t.monitors && t.monitors[i].registration == t.monitors[h].registration
      ensures i == h
    {
      assert EntryOwned(t, i);
    }
  }

  /** Whatever the other threads do while the monitor scans, a scan that has ended has interrupted every
      registration whose thread had used up its time when the scan began. */
  lemma ScanCatchesOverdue(s: State, actions: seq<Action>, during: seq<Action>, h: Handle)
    requires Initial(s) && CanRun(s, actions)
    requires RunAll(s, actions).monitor.WantingScan? && Enabled(RunAll(s, actions), MonitorStep)
    requires h in RunAll(s, actions).monitors
    requires MonitorStep !in during && CanRun(Apply(RunAll(s, actions), MonitorStep), during)
    requires Enabled(RunAll(Apply(RunAll(s, actions), MonitorStep), during), MonitorStep)
    ensures
      var t := RunAll(s, actions);
      var info, after := t.monitors[h], RunAll(Apply(t, MonitorStep), during);
      && info.thread in t.clock
      && (t.clock[info.thread] - info.start >= t.timeout ==> WasKilled(after.log, info.registration))
  {
    ReachesInvariant(s, actions);
    var t := RunAll(s, actions);
    DueAtBegin(t, h);
    StepKeepsInvariant(t, MonitorStep);
    if t.clock[t.monitors[h].thread] - t.monitors[h].start >= t.timeout {
      ScanRemembers(Apply(t, MonitorStep), during, t.monitors[h].registration);
    }
  }

  /** The monitor goes on to scan only when it has seen an entry, and blocks only when it has seen none,
      while it holds the lock. */
  lemma MonitorLooksFirst(s: State, actions: seq<Action>)
    requires Initial(s) && CanRun(s, actions) && Enabled(RunAll(s, actions), MonitorStep)
    ensures
      var t, after := RunAll(s, actions), Apply(RunAll(s, actions), MonitorStep);
      && (after.monitor.Waiting? ==> t.lock.Monitor? && t.monitors == map[])
      && (after.monitor.WantingScan? ==> t.lock.Monitor? && t.monitors != map[])
  {
    ReachesInvariant(s, actions);
  }

  /** When an interrupt fires, the call is between its insertion and its removal, the entry names the
      thread that runs the guest, and the elapsed time is what that thread's clock shows. */
  lemma InterruptHitsOwnCall(s: State, actions: seq<Action>, h: Handle)
    requires Initial(s) && CanRun(s, actions)
    requires Enabled(RunAll(s, actions), Examine(h))
    ensures
      var t := RunAll(s, actions);
      && h in t.monitors
      && var info := t.monitors[h];
         && info.thread in t.calls && MayBeRegistered(t.calls[info.thread])
         && t.calls[info.thread].handle == h && t.calls[info.thread].registration == info.registration
         && info.thread in t.clock && t.calls[info.thread].start == info.start <= t.clock[info.thread]
         && var fired := Apply(t, Examine(h)).log != t.log;
            fired <==> t.clock[info.thread] - info.start >= t.timeout
  {
    ReachesInvariant(s, actions);
    var t := RunAll(s, actions);
    assert EntryOwned(t, h);
  }

  /** No elapsed time underflows: in every reachable state no clock is behind an entry's measurement. */
  lemma ElapsedNeverUnderflows(s: State, actions: seq<Action>)
    requires Initial(s) && CanRun(s, actions)
    ensures Measurable(RunAll(s, actions).clock, RunAll(s, actions).monitors)
  {
    ReachesInvariant(s, actions);
    var t := RunAll(s, actions);
    forall h | h in t.monitors
      ensures t.monitors[h].start <= ClockOf(t.clock, t.monitors[h].thread)
    {
      assert EntryOwned(t, h);
    }
  }

  /** While something is registered, the monitor is blocked only if a worker is about to wake it. */
  lemma NoWakeupLost(s: State, actions: seq<Action>)
    requires Initial(s) && CanRun(s, actions)
    requires RunAll(s, actions).monitors != map[] && RunAll(s, actions).monitor.Waiting?
    ensures
      var t := RunAll(s, actions);
      exists u :: u in t.calls && AboutToNotify(t.calls[u])
  {
    ReachesInvariant(s, actions);
  }

  /** The lock excludes: the monitor scans alone, and no two threads hold the lock. */
  lemma LockExcludes(s: State, actions: seq<Action>, t: Thread, u: Thread)
    requires Initial(s) && CanRun(s, actions)
    requires t in RunAll(s, actions).calls && u in RunAll(s, actions).calls && Holds(RunAll(s, actions).calls[t])
    ensures Holds(RunAll(s, actions).calls[u]) ==> t == u
    ensures !MonitorHolds(RunAll(s, actions).monitor)
  {
    ReachesInvariant(s, actions);
  }

  // ---------------------------------------------------------------- the steps and the operations

  /** The registrations that a log says were interrupted. */
  function KilledIn(log: seq<Event>): set<nat> {
    set i | 0 <= i < |log| && log[i].Killed? :: log[i].registration
  }

  function TableOf(s: State): Table {
    Table(s.monitors, KilledIn(s.log), s.next)
  }

  lemma KilledAppended(log: seq<Event>, e: Event)
    ensures KilledIn(log + [e]) == KilledIn(log) + if e.Killed? then {e.registration} else {}
  {
    var longer := log + [e];
    forall i | 0 <= i < |log| && log[i].Killed?
      ensures log[i].registration in KilledIn(longer)
    {
      assert longer[i] == log[i];
    }
    if e.Killed? {
      assert longer[|log|] == e;
    }
  }

  /** The steps of a worker when nothing comes between them. */
  function MonitorSteps(steps: nat): seq<Action> {
    seq(steps, _ => MonitorStep)
  }

  lemma MonitorFirst(s: State, steps: nat)
    requires Enabled(s, MonitorStep) && CanRun(AdvanceMonitor(s), MonitorSteps(steps))
    ensures CanRun(s, MonitorSteps(steps + 1))
    ensures RunAll(s, MonitorSteps(steps + 1)) == RunAll(AdvanceMonitor(s), MonitorSteps(steps))
  {
    assert MonitorSteps(steps + 1)[1..] == MonitorSteps(steps);
  }

  /** A monitor that sleeps, or was woken, comes round to the next scan while something is registered. */
  lemma MonitorComesRound(s: State)
    requires s.lock.Nobody? && s.monitors != map[] && (s.monitor.Sleeping? || s.monitor.Woken?)
    ensures
      var steps := MonitorSteps(if s.monitor.Sleeping? then 4 else 2);
      CanRun(s, steps) && RunAll(s, steps) == s.(monitor := WantingScan)
  {
    var testing, ready := s.(monitor := Testing, lock := Monitor), s.(monitor := WantingScan);
    assert CanRun(ready, MonitorSteps(0)) && RunAll(ready, MonitorSteps(0)) == ready;
    MonitorFirst(testing, 0);
    if s.monitor.Woken? {
      MonitorFirst(s, 1);
    } else {
      MonitorFirst(s.(monitor := Wanting), 1);
      MonitorFirst(s.(monitor := Top), 2);
      MonitorFirst(s, 3);
    }
  }

  function Advances(t: Thread, steps: nat): seq<Action> {
    seq(steps, _ => Advance(t))
  }

  lemma AdvanceFirst(s: State, t: Thread, steps: nat)
    requires Enabled(s, Advance(t)) && CanRun(AdvanceCall(s, t), Advances(t, steps))
    ensures CanRun(s, Advances(t, steps + 1))
    ensures RunAll(s, Advances(t, steps + 1)) == RunAll(AdvanceCall(s, t), Advances(t, steps))
  {
    assert Advances(t, steps + 1)[1..] == Advances(t, steps);
    assert Advances(t, steps + 1)[0] == Advance(t);
  }

  /** From its clock reading to its notification, an undisturbed call does what `StartTimeout` does. */
  lemma StartRefines(s: State, t: Thread, h: Handle)
    requires Enabled(s, Begin(t, h)) && s.lock.Nobody?
    ensures
      var begun := Apply(s, Begin(t, h));
      && CanRun(begun, Advances(t, 4))
      && var after := RunAll(begun, Advances(t, 4));
         && TableOf(after) == Start(TableOf(s), h, t, ClockOf(s.clock, t))
         && after.lock.Nobody? && !after.monitor.Waiting?
         && t in after.calls && after.calls[t] == Call(h, ClockOf(s.clock, t), s.next, Running)
  {
    var begun := Apply(s, Begin(t, h));
    var locked := AdvanceCall(begun, t);
    var inserted := AdvanceCall(locked, t);
    var unlocked := AdvanceCall(inserted, t);
    var running := AdvanceCall(unlocked, t);
    assert CanRun(running, Advances(t, 0)) && RunAll(running, Advances(t, 0)) == running;
    AdvanceFirst(unlocked, t, 0);
    AdvanceFirst(inserted, t, 1);
    AdvanceFirst(locked, t, 2);
    AdvanceFirst(begun, t, 3);
    KilledAppended(s.log, Registered(s.next));
  }

  /** From its end to the release of the lock, an undisturbed call does what `StopTimeout` does. */
  lemma StopRefines(s: State, t: Thread)
    requires t in s.calls && s.calls[t].Call? && s.calls[t].at.Running? && s.lock.Nobody?
    ensures
      && CanRun(s, Advances(t, 4))
      && var after := RunAll(s, Advances(t, 4));
         && TableOf(after) == Stop(TableOf(s), s.calls[t].handle)
         && after.lock.Nobody? && after.monitor == s.monitor && t in after.calls && after.calls[t].Idle?
  {
    var stopping := AdvanceCall(s, t);
    var locked := AdvanceCall(stopping, t);
    var removed := AdvanceCall(locked, t);
    var idle := AdvanceCall(removed, t);
    assert CanRun(idle, Advances(t, 0)) && RunAll(idle, Advances(t, 0)) == idle;
    AdvanceFirst(removed, t, 0);
    AdvanceFirst(locked, t, 1);
    AdvanceFirst(stopping, t, 2);
    AdvanceFirst(s, t, 3);
    KilledAppended(s.log, Returned(s.calls[t].registration));
  }

  /** The examinations of a scan, in some order. */
  function Examinations(order: seq<Handle>): seq<Action> {
    seq(|order|, i requires 0 <= i < |order| => Examine(order[i]))
  }

  /** Some entries have been examined and the others have not. */
  function HalfScanned(table: Table, clock: map<Thread, nat>, timeout: nat, left: set<Handle>): Table
    requires Measurable(clock, table.monitors)
  {
    var kept := map h | h in table.monitors &&
      (h in left || !Overdue(table.monitors[h], ClockOf(clock, table.monitors[h].thread), timeout)) ::
        table.monitors[h];
    table.(monitors := kept,
           killed := table.killed + set h | h in table.monitors && h !in kept :: table.monitors[h].registration)
  }

  lemma ExamineHalf(start: Table, s: State, h: Handle)
    requires Enabled(s, Examine(h)) && Measurable(s.clock, start.monitors) && h in start.monitors
    requires TableOf(s) == HalfScanned(start, s.clock, s.timeout, s.monitor.left)
    ensures
      var after := ExamineEntry(s, h);
      TableOf(after) == HalfScanned(start, after.clock, after.timeout, after.monitor.left)
  {
    if h in s.monitors && IsOverdue(s, h) {
      KilledAppended(s.log,
                     Killed(s.monitors[h].registration, ClockOf(s.clock, s.monitors[h].thread) - s.monitors[h].start));
    }
  }

  lemma RestLeft(order: seq<Handle>, left: set<Handle>)
    requires order != [] && forall h :: h in order <==> h in left
    requires forall i, j :: 0 <= i < j < |order| ==> order[i] != order[j]
    ensures forall g :: g in order[1..] <==> g in left - {order[0]}
  {
    forall g
      ensures g in order[1..] <==> g in left - {order[0]}
    {
      assert g in order <==> g == order[0] || g in order[1..];
    }
  }

  lemma ExamineFrame(s: State, h: Handle)
    requires s.monitor.Scanning?
    ensures
      var after := ExamineEntry(s, h);
      && after.clock == s.clock && after.timeout == s.timeout && after.lock == s.lock && after.calls == s.calls
      && after.monitor == Scanning(s.monitor.left - {h}, s.monitor.due)
  {
  }

  lemma ExaminationsFirst(order: seq<Handle>)
    requires order != []
    ensures Examinations(order)[0] == Examine(order[0]) && Examinations(order)[1..] == Examinations(order[1..])
  {
  }

  lemma {:induction false} ExaminationsHalf(start: Table, s: State, order: seq<Handle>)
    requires s.monitor.Scanning? && s.monitor.left <= start.monitors.Keys && Measurable(s.clock, start.monitors)
    requires TableOf(s) == HalfScanned(start, s.clock, s.timeout, s.monitor.left)
    requires forall h :: h in order <==> h in s.monitor.left
    requires forall i, j :: 0 <= i < j < |order| ==> order[i] != order[j]
    ensures CanRun(s, Examinations(order))
    ensures
      var after := RunAll(s, Examinations(order));
      && TableOf(after) == HalfScanned(start, s.clock, s.timeout, {})
      && after.monitor == Scanning({}, s.monitor.due) && after.lock == s.lock && after.calls == s.calls
    decreases |order|
  {
    if order == [] {
      assert s.monitor.left == {};
    } else {
      var h, rest := order[0], order[1..];
      assert h in order;
      ExamineFrame(s, h);
      ExamineHalf(start, s, h);
      ExaminationsFirst(order);
      RestLeft(order, s.monitor.left);
      ExaminationsHalf(start, ExamineEntry(s, h), rest);
    }
  }

  lemma NothingScanned(table: Table, clock: map<Thread, nat>, timeout: nat)
    requires Measurable(clock, table.monitors)
    ensures HalfScanned(table, clock, timeout, table.monitors.Keys) == table
  {
    var half := HalfScanned(table, clock, timeout, table.monitors.Keys);
    assert half.monitors == table.monitors;
    assert half.killed == table.killed;
  }

  lemma AllScanned(table: Table, clock: map<Thread, nat>, timeout: nat)
    requires Measurable(clock, table.monitors)
    ensures HalfScanned(table, clock, timeout, {}) == Scanned(table, clock, timeout)
  {
    assert HalfScanned(table, clock, timeout, {}).monitors == Scanned(table, clock, timeout).monitors;
  }

  lemma ScanEnds(s: State)
    requires s.monitor.Scanning?
    ensures
      var after := AdvanceMonitor(s);
      && TableOf(after) == TableOf(s) && after.lock.Nobody? && after.monitor.Sleeping? && after.calls == s.calls
  {
    KilledAppended(s.log, ScanEnded(s.monitor.due));
  }

  /** A scan during which no other thread moves and no clock advances does what `Scan` does, in whatever
      order it examines the entries. */
  lemma ScanRefines(s: State, order: seq<Handle>)
    requires s.monitor.WantingScan? && s.lock.Nobody? && Measurable(s.clock, s.monitors)
    requires forall h :: h in order <==> h in s.monitors
    requires forall i, j :: 0 <= i < j < |order| ==> order[i] != order[j]
    ensures
      var scanning := AdvanceMonitor(s);
      && CanRun(scanning, Examinations(order))
      && var after := AdvanceMonitor(RunAll(scanning, Examinations(order)));
         && TableOf(after) == Scanned(TableOf(s), s.clock, s.timeout)
         && after.lock.Nobody? && after.monitor.Sleeping? && after.calls == s.calls
  {
    var scanning := AdvanceMonitor(s);
    NothingScanned(TableOf(s), s.clock, s.timeout);
    ExaminationsHalf(TableOf(s), scanning, order);
    AllScanned(TableOf(s), s.clock, s.timeout);
    ScanEnds(RunAll(scanning, Examinations(order)));
  }
}
