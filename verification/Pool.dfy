/** The pool: workers that signal when they are ready, a ticket counter that wraps, and one queue for each
    worker. Steps of clients and workers interleave in any order. */
module Pool {
  import opened Texts

  type Job = nat
  type Worker = nat

  /** The ticket counter is a machine word. */
  const WORDS: nat := 0x1_0000_0000_0000_0000

  // ---------------------------------------------------------------- fairness of the tickets

  /** The worker that a ticket goes to: the counter wraps before the remainder is taken. */
  function Choice(workers: nat, ticket: nat): Worker
    requires workers > 0
  {
    (ticket % WORDS) % workers
  }

  /** How many of the first tickets go to a worker. */
  function Share(workers: nat, tickets: nat, w: Worker): nat
    requires workers > 0
  {
    if tickets == 0 then 0
    else Share(workers, tickets - 1, w) + if Choice(workers, tickets - 1) == w then 1 else 0
  }

  ghost predicate Fair(workers: nat, tickets: nat)
    requires workers > 0
  {
    forall v, w :: 0 <= v < workers && 0 <= w < workers ==> Share(workers, tickets, v) <= Share(workers, tickets, w) + 1
  }

  lemma NextQuotient(n: nat, k: nat)
    requires n > 0
    ensures if k % n == n - 1 then (k + 1) / n == k / n + 1 && (k + 1) % n == 0
            else (k + 1) / n == k / n && (k + 1) % n == k % n + 1
  {
    var q, r := k / n, k % n;
    assert k == n * q + r;
    if r == n - 1 {
      assert k + 1 == n * (q + 1);
      QuotientUnique(n, k + 1, q + 1, 0);
    } else {
      QuotientUnique(n, k + 1, q, r + 1);
    }
  }

  lemma MultiplyKeepsOrder(n: nat, a: int, b: int)
    ensures a <= b ==> n * a <= n * b
  {
  }

  lemma QuotientUnique(n: nat, k: nat, q: nat, r: nat)
    requires n > 0 && k == n * q + r && r < n
    ensures k / n == q && k % n == r
  {
    var p, s := k / n, k % n;
    assert n * p + s == n * q + r;
    MultiplyKeepsOrder(n, p + 1, q);
    MultiplyKeepsOrder(n, q + 1, p);
  }

  lemma ChoiceBeforeWrap(workers: nat, ticket: nat)
    requires workers > 0 && ticket < WORDS
    ensures Choice(workers, ticket) == ticket % workers
  {
    assert ticket % WORDS == ticket;
  }

  /** The share in closed form, until the counter wraps. */
  lemma {:induction false} ShareBeforeWrap(workers: nat, tickets: nat, w: Worker)
    requires 0 <= w < workers && tickets <= WORDS
    ensures Share(workers, tickets, w) == tickets / workers + if w < tickets % workers then 1 else 0
  {
    if tickets == 0 {
      QuotientUnique(workers, 0, 0, 0);
    } else {
      ShareBeforeWrap(workers, tickets - 1, w);
      NextQuotient(workers, tickets - 1);
      ChoiceBeforeWrap(workers, tickets - 1);
    }
  }

  /** Below 2^64 tickets, the shares of the workers differ by at most one. */
  lemma FairBeforeWrap(workers: nat, tickets: nat)
    requires workers > 0 && tickets <= WORDS
    ensures Fair(workers, tickets)
  {
    forall v, w | 0 <= v < workers && 0 <= w < workers
      ensures Share(workers, tickets, v) <= Share(workers, tickets, w) + 1
    {
      ShareBeforeWrap(workers, tickets, v);
      ShareBeforeWrap(workers, tickets, w);
    }
  }

  /** Dividing the counter's range makes the wrap invisible. */
  lemma {:induction false} ChoiceWithoutWrap(workers: nat, ticket: nat)
    requires workers > 0 && WORDS % workers == 0
    ensures Choice(workers, ticket) == ticket % workers
  {
    var laps, rest, m := ticket / WORDS, ticket % WORDS, WORDS / workers;
    assert WORDS == workers * m;
    assert ticket == WORDS * laps + rest;
    var q, r := rest / workers, rest % workers;
    assert rest == workers * q + r;
    QuotientUnique(workers, ticket, m * laps + q, r);
  }

  lemma {:induction false} ShareWithoutWrap(workers: nat, tickets: nat, w: Worker)
    requires 0 <= w < workers && WORDS % workers == 0
    ensures Share(workers, tickets, w) == tickets / workers + if w < tickets % workers then 1 else 0
  {
    if tickets == 0 {
      QuotientUnique(workers, 0, 0, 0);
    } else {
      ShareWithoutWrap(workers, tickets - 1, w);
      NextQuotient(workers, tickets - 1);
      ChoiceWithoutWrap(workers, tickets - 1);
    }
  }

  /** A second lap of the counter repeats the first. */
  lemma {:induction false} ShareRepeats(workers: nat, tickets: nat, w: Worker)
    requires workers > 0 && tickets <= WORDS
    ensures Share(workers, WORDS + tickets, w) == Share(workers, WORDS, w) + Share(workers, tickets, w)
  {
    if tickets > 0 {
      ShareRepeats(workers, tickets - 1, w);
      SecondLap(tickets - 1);
    }
  }

  lemma SecondLap(ticket: nat)
    requires ticket < WORDS
    ensures (WORDS + ticket) % WORDS == ticket % WORDS
  {
  }

  /** The shares stay within one of each other for ever exactly when the number of workers divides 2^64. */
  lemma FairForeverIffDividing(workers: nat)
    requires workers > 0
    ensures (forall tickets: nat :: Fair(workers, tickets)) <==> WORDS % workers == 0
  {
    if WORDS % workers == 0 {
      forall tickets: nat
        ensures Fair(workers, tickets)
      {
        forall v, w | 0 <= v < workers && 0 <= w < workers
          ensures Share(workers, tickets, v) <= Share(workers, tickets, w) + 1
        {
          ShareWithoutWrap(workers, tickets, v);
          ShareWithoutWrap(workers, tickets, w);
        }
      }
    } else {
      ShareBeforeWrap(workers, WORDS, 0);
      ShareBeforeWrap(workers, WORDS, workers - 1);
      ShareRepeats(workers, WORDS, 0);
      ShareRepeats(workers, WORDS, workers - 1);
      assert !Fair(workers, WORDS + WORDS);
    }
  }

  /** Submitting jobs one at a time. */
  class SandboxPool {
    var queues: seq<seq<Job>>
    var counter: nat
    ghost var tickets: nat

    ghost predicate Valid()
      reads this
    {
      queues != [] && counter == tickets % WORDS
    }

    constructor (workers: nat)
      requires workers > 0
      ensures Valid() && tickets == 0 && |queues| == workers && forall q :: q in queues ==> q == []
    {
      queues := seq(workers, _ => []);
      counter, tickets := 0, 0;
    }

    /** The job goes to the end of the queue that its ticket chooses, and to no other. */
    method Submit(job: Job) returns (index: Worker)
      requires Valid()
      modifies this
      ensures Valid() && tickets == old(tickets) + 1 && |queues| == old(|queues|)
      ensures index == Choice(|queues|, old(tickets)) < |queues|
      ensures queues == old(queues)[index := old(queues)[index] + [job]]
    {
      NextCounter(tickets);
      index := counter % |queues|;
      counter := (counter + 1) % WORDS;
      queues := queues[index := queues[index] + [job]];
      tickets := tickets + 1;
    }
  }

  // ---------------------------------------------------------------- startup and service

  datatype Answer = Answer(job: Job, worker: Worker, response: Text)

  datatype State = State(
    workers: nat,
    ready: set<Worker>,
    received: nat,
    started: bool,
    counter: nat,
    issued: seq<Job>,
    held: map<Job, Worker>,
    sent: map<Worker, seq<Job>>,
    queues: map<Worker, seq<Job>>,
    serving: map<Worker, Job>,
    answers: seq<Answer>)

  datatype Action =
    | Signal(worker: Worker)
    | Receive
    | Finish
    | TakeTicket(job: Job)
    | Send(job: Job)
    | Take(worker: Worker)
    | Respond(worker: Worker, response: Text)

  ghost predicate Enabled(s: State, a: Action) {
    match a
    case Signal(w) => w < s.workers && w !in s.ready
    case Receive => !s.started && s.received < |s.ready| && s.received < s.workers
    case Finish => !s.started && s.received == s.workers
    case TakeTicket(job) => s.started && s.workers > 0 && job !in s.issued
    case Send(job) => job in s.held && s.held[job] in s.queues && s.held[job] in s.sent
    case Take(w) => w in s.ready && w !in s.serving && w in s.queues && s.queues[w] != []
    case Respond(w, _) => w in s.serving
  }

  ghost function Apply(s: State, a: Action): State
    requires Enabled(s, a)
  {
    match a
    case Signal(w) => s.(ready := s.ready + {w})
    case Receive => s.(received := s.received + 1)
    case Finish => s.(started := true)
    case TakeTicket(job) =>
      s.(counter := (s.counter + 1) % WORDS, issued := s.issued + [job], held := s.held[job := s.counter % s.workers])
    case Send(job) =>
      var w := s.held[job];
      s.(held := s.held - {job}, sent := s.sent[w := s.sent[w] + [job]], queues := s.queues[w := s.queues[w] + [job]])
    case Take(w) => s.(serving := s.serving[w := s.queues[w][0]], queues := s.queues[w := s.queues[w][1..]])
    case Respond(w, response) =>
      s.(serving := s.serving - {w}, answers := s.answers + [Answer(s.serving[w], w, response)])
  }

  function ServedBy(answers: seq<Answer>, w: Worker): seq<Job> {
    if answers == [] then []
    else
      var last := answers[|answers| - 1];
      ServedBy(answers[..|answers| - 1], w) + if last.worker == w then [last.job] else []
  }

  function Current(s: State, w: Worker): seq<Job> {
    if w in s.serving then [s.serving[w]] else []
  }

  /** A worker's jobs, in the order in which they were sent: answered ones, the one in service, queued ones. */
  ghost predicate InOrder(s: State, w: Worker)
    requires w in s.sent && w in s.queues
  {
    s.sent[w] == ServedBy(s.answers, w) + Current(s, w) + s.queues[w]
  }

  ghost predicate Queues(s: State) {
    && (forall w :: w in s.sent <==> w < s.workers)
    && (forall w :: w in s.queues <==> w < s.workers)
    && (forall w :: w in s.serving ==> w < s.workers)
    && (forall i :: 0 <= i < |s.answers| ==> s.answers[i].worker < s.workers)
    && forall w: Worker :: w < s.workers ==> InOrder(s, w)
  }

  ghost predicate Startup(s: State) {
    && (forall w :: w in s.ready ==> w < s.workers)
    && s.received <= |s.ready|
    && s.received <= s.workers && (s.started ==> s.received == s.workers)
    && (!s.started ==> s.issued == [])
  }

  ghost predicate Distinct(jobs: seq<Job>) {
    forall i, j :: 0 <= i < j < |jobs| ==> jobs[i] != jobs[j]
  }

  /** The job of each ticket is held or sent, to the worker that the ticket chose. */
  ghost predicate Placed(s: State, i: nat)
    requires i < |s.issued| && s.workers > 0
  {
    var job, w := s.issued[i], Choice(s.workers, i);
    && (job in s.held ==> s.held[job] == w)
    && (job !in s.held ==> w in s.sent && job in s.sent[w])
  }

  ghost predicate Tickets(s: State) {
    && s.counter == |s.issued| % WORDS
    && Distinct(s.issued)
    && (s.issued != [] ==> s.workers > 0)
    && (forall job :: job in s.held ==> job in s.issued)
    && forall i :: 0 <= i < |s.issued| ==> Placed(s, i)
  }

  ghost predicate SentOnce(s: State) {
    && (forall w :: w in s.sent ==> Distinct(s.sent[w]))
    && (forall w, job :: w in s.sent && job in s.sent[w] ==> job in s.issued && job !in s.held)
    && (forall v, w, job :: v in s.sent && w in s.sent && v != w && job in s.sent[v] ==> job !in s.sent[w])
  }

  ghost predicate Invariant(s: State) {
    Startup(s) && Queues(s) && Tickets(s) && SentOnce(s)
  }

  lemma OrderKept(s: State, a: Action, w: Worker)
    requires Enabled(s, a) && w in s.sent && w in s.queues && InOrder(s, w)
    ensures w in Apply(s, a).sent && w in Apply(s, a).queues && InOrder(Apply(s, a), w)
  {
    if a.Respond? {
      assert Apply(s, a).answers[..|s.answers|] == s.answers;
    }
  }

  lemma QueuesKept(s: State, a: Action)
    requires Enabled(s, a) && Queues(s)
    ensures Queues(Apply(s, a))
  {
    forall w: Worker | w < s.workers
      ensures InOrder(Apply(s, a), w)
    {
      assert InOrder(s, w);
      OrderKept(s, a, w);
    }
  }

  lemma TicketsKept(s: State, a: Action)
    requires Enabled(s, a) && Tickets(s) && Queues(s)
    ensures Tickets(Apply(s, a))
  {
    var after := Apply(s, a);
    if a.TakeTicket? {
      NextCounter(|s.issued|);
    }
    forall i | 0 <= i < |after.issued|
      ensures Placed(after, i)
    {
      if i < |s.issued| {
        assert Placed(s, i);
      }
    }
  }

  lemma NextCounter(tickets: nat)
    ensures (tickets % WORDS + 1) % WORDS == (tickets + 1) % WORDS
  {
  }

  lemma StepKeepsInvariant(s: State, a: Action)
    requires Enabled(s, a) && Invariant(s)
    ensures Invariant(Apply(s, a))
  {
    QueuesKept(s, a);
    TicketsKept(s, a);
  }

  // ---------------------------------------------------------------- whole runs

  ghost predicate CanRun(s: State, actions: seq<Action>)
    decreases |actions|
  {
    actions != [] ==> Enabled(s, actions[0]) && CanRun(Apply(s, actions[0]), actions[1..])
  }

  ghost function RunAll(s: State, actions: seq<Action>): State
    requires CanRun(s, actions)
    decreases |actions|
  {
    if actions == [] then s else RunAll(Apply(s, actions[0]), actions[1..])
  }

  /** A pool whose worker threads have just been spawned. */
  ghost predicate Initial(s: State) {
    && s.workers > 0 && s.ready == {} && s.received == 0 && !s.started
    && s.counter == 0 && s.issued == [] && s.held == map[] && s.serving == map[] && s.answers == []
    && (forall w :: w in s.sent <==> w < s.workers) && (forall w :: w in s.queues <==> w < s.workers)
    && (forall w :: w in s.sent ==> s.sent[w] == []) && (forall w :: w in s.queues ==> s.queues[w] == [])
  }

  lemma {:induction false} RunKeepsInvariant(s: State, actions: seq<Action>)
    requires Invariant(s) && CanRun(s, actions)
    ensures Invariant(RunAll(s, actions)) && RunAll(s, actions).workers == s.workers
    decreases |actions|
  {
    if actions == [] {
    } else {
      StepKeepsInvariant(s, actions[0]);
      RunKeepsInvariant(Apply(s, actions[0]), actions[1..]);
    }
  }

  lemma ReachesInvariant(s: State, actions: seq<Action>)
    requires Initial(s) && CanRun(s, actions)
    ensures Invariant(RunAll(s, actions)) && RunAll(s, actions).workers == s.workers
  {
    RunKeepsInvariant(s, actions);
  }

  lemma {:induction false} AllReady(ready: set<Worker>, n: nat)
    requires |ready| >= n && forall w :: w in ready ==> w < n
    ensures forall w: Worker :: w < n ==> w in ready
  {
    if n > 0 {
      var rest := ready - {n - 1};
      if n - 1 !in ready {
        assert rest == ready;
      }
      AllReady(rest, n - 1);
      if n - 1 !in ready {
        TooMany(ready, n - 1);
      }
    }
  }

  lemma {:induction false} TooMany(ready: set<Worker>, n: nat)
    requires forall w :: w in ready ==> w < n
    ensures |ready| <= n
  {
    if n == 0 {
      assert ready == {};
    } else {
      TooMany(ready - {n - 1}, n - 1);
    }
  }

  /** The pool starts only after every worker has signalled that it is ready. */
  lemma StartsReady(s: State, actions: seq<Action>)
    requires Initial(s) && CanRun(s, actions) && RunAll(s, actions).started
    ensures forall w: Worker :: w < s.workers ==> w in RunAll(s, actions).ready
  {
    ReachesInvariant(s, actions);
    AllReady(RunAll(s, actions).ready, s.workers);
  }

  /** How often a job appears in the places where it can be. */
  ghost function Places(s: State, job: Job, w: Worker): nat
    requires w in s.queues
  {
    (if job in s.held then 1 else 0)
    + multiset(s.queues[w])[job]
    + multiset(Current(s, w))[job]
    + multiset(ServedBy(s.answers, w))[job]
  }

  lemma {:induction false} DistinctOnce(jobs: seq<Job>, job: Job)
    requires Distinct(jobs)
    ensures multiset(jobs)[job] == if job in jobs then 1 else 0
  {
    if jobs != [] {
      DistinctOnce(jobs[1..], job);
      assert jobs == [jobs[0]] + jobs[1..];
      assert jobs[0] !in jobs[1..];
    }
  }

  lemma PartsCount(a: seq<Job>, b: seq<Job>, c: seq<Job>, job: Job)
    ensures multiset(a + b + c)[job] == multiset(a)[job] + multiset(b)[job] + multiset(c)[job]
  {
  }

  /** Each job is in exactly one place: not sent yet, queued, in service or answered, at the worker that
      its ticket chose and at no other. */
  lemma EachJobInOnePlace(s: State, actions: seq<Action>, i: nat, v: Worker)
    requires Initial(s) && CanRun(s, actions) && i < |RunAll(s, actions).issued| && v < s.workers
    ensures v in RunAll(s, actions).queues
    ensures
      var t := RunAll(s, actions);
      if v == Choice(s.workers, i) then Places(t, t.issued[i], v) == 1
      else Places(t, t.issued[i], v) == if t.issued[i] in t.held then 1 else 0
  {
    ReachesInvariant(s, actions);
    var t := RunAll(s, actions);
    var job, w := t.issued[i], Choice(s.workers, i);
    assert Placed(t, i) && InOrder(t, v);
    DistinctOnce(t.sent[v], job);
    PartsCount(ServedBy(t.answers, v), Current(t, v), t.queues[v], job);
  }

  /** Each worker serves its queue in order: what it has answered is a beginning of what it was sent. */
  lemma ServesInOrder(s: State, actions: seq<Action>, w: Worker)
    requires Initial(s) && CanRun(s, actions) && w < s.workers
    ensures w in RunAll(s, actions).sent
    ensures ServedBy(RunAll(s, actions).answers, w) <= RunAll(s, actions).sent[w]
  {
    ReachesInvariant(s, actions);
    assert InOrder(RunAll(s, actions), w);
  }

  lemma {:induction false} ServedIn(answers: seq<Answer>, i: nat)
    requires i < |answers|
    ensures answers[i].job in ServedBy(answers, answers[i].worker)
  {
    if i < |answers| - 1 {
      ServedIn(answers[..|answers| - 1], i);
    }
  }

  lemma {:induction false} ServedTwice(answers: seq<Answer>, i: nat, j: nat)
    requires i < j < |answers| && answers[i].worker == answers[j].worker && answers[i].job == answers[j].job
    ensures !Distinct(ServedBy(answers, answers[i].worker))
  {
    var front := answers[..|answers| - 1];
    var served := ServedBy(front, answers[i].worker);
    if j < |answers| - 1 {
      ServedTwice(front, i, j);
      var k, l :| 0 <= k < l < |served| && served[k] == served[l];
      assert ServedBy(answers, answers[i].worker)[k] == served[k]
        && ServedBy(answers, answers[i].worker)[l] == served[l];
    } else {
      ServedIn(front, i);
      var k :| 0 <= k < |served| && served[k] == answers[i].job;
      var all := ServedBy(answers, answers[i].worker);
      assert all[k] == all[|served|];
    }
  }

  lemma PrefixDistinct(part: seq<Job>, jobs: seq<Job>)
    requires part <= jobs && Distinct(jobs)
    ensures Distinct(part)
  {
  }

  /** Every answer goes to a job that was issued, and no job is answered twice. */
  lemma AnsweredAtMostOnce(s: State, actions: seq<Action>, i: nat, j: nat)
    requires Initial(s) && CanRun(s, actions) && i < j < |RunAll(s, actions).answers|
    ensures RunAll(s, actions).answers[i].job in RunAll(s, actions).issued
    ensures RunAll(s, actions).answers[i].job != RunAll(s, actions).answers[j].job
  {
    ReachesInvariant(s, actions);
    var t := RunAll(s, actions);
    var a, b := t.answers[i], t.answers[j];
    ServedIn(t.answers, i);
    ServedIn(t.answers, j);
    assert InOrder(t, a.worker) && InOrder(t, b.worker);
    assert a.job in t.sent[a.worker] && b.job in t.sent[b.worker];
    PrefixDistinct(ServedBy(t.answers, a.worker), t.sent[a.worker]);
    if a.job == b.job && a.worker == b.worker {
      ServedTwice(t.answers, i, j);
    }
  }

  /** The jobs whose tickets chose a worker, in ticket order. */
  function JobsFor(workers: nat, issued: seq<Job>, w: Worker): seq<Job>
    requires workers > 0
  {
    if issued == [] then []
    else
      var last := |issued| - 1;
      JobsFor(workers, issued[..last], w) + if Choice(workers, last) == w then [issued[last]] else []
  }

  lemma {:induction false} JobsForMeans(workers: nat, issued: seq<Job>, w: Worker, job: Job)
    requires workers > 0
    ensures |JobsFor(workers, issued, w)| == Share(workers, |issued|, w)
    ensures job in JobsFor(workers, issued, w) <==>
      exists i :: 0 <= i < |issued| && issued[i] == job && Choice(workers, i) == w
  {
    if issued != [] {
      var last := |issued| - 1;
      JobsForMeans(workers, issued[..last], w, job);
      assert forall i :: 0 <= i < last ==> issued[..last][i] == issued[i];
    }
  }

  /** A worker's share is the jobs that were sent to it or are held for it, and as long as the counter
      has not wrapped the shares of two workers differ by at most one. */
  lemma JobsSharedFairly(s: State, actions: seq<Action>, v: Worker, w: Worker)
    requires Initial(s) && CanRun(s, actions) && v < s.workers && w < s.workers
    ensures
      var t := RunAll(s, actions);
      && w in t.sent
      && (forall job ::
        job in JobsFor(s.workers, t.issued, w) <==> job in t.sent[w] || (job in t.held && t.held[job] == w))
      && (|t.issued| <= WORDS ==> |JobsFor(s.workers, t.issued, v)| <= |JobsFor(s.workers, t.issued, w)| + 1)
  {
    ReachesInvariant(s, actions);
    var t := RunAll(s, actions);
    forall job
      ensures job in JobsFor(s.workers, t.issued, w) <==> job in t.sent[w] || (job in t.held && t.held[job] == w)
    {
      JobsForMeans(s.workers, t.issued, w, job);
      WhereIs(t, w, job);
    }
    JobsForMeans(s.workers, t.issued, v, 0);
    JobsForMeans(s.workers, t.issued, w, 0);
    if |t.issued| <= WORDS {
      FairBeforeWrap(s.workers, |t.issued|);
    }
  }

  lemma WhereIs(s: State, w: Worker, job: Job)
    requires Invariant(s) && w < s.workers
    ensures w in s.sent
    ensures (exists i :: 0 <= i < |s.issued| && s.issued[i] == job && Choice(s.workers, i) == w) <==>
      job in s.sent[w] || (job in s.held && s.held[job] == w)
  {
    if job in s.issued {
      var i :| 0 <= i < |s.issued| && s.issued[i] == job;
      assert Placed(s, i);
      assert forall j :: 0 <= j < |s.issued| && s.issued[j] == job ==> j == i;
    }
  }
}
