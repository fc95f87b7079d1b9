/** Pool and handlers together. */
module Workers {
  import opened Texts
  import opened Handlers
  import Pool

  // The workers of a pool each drive a sandbox of their own, and what a client gets is what the service of
  // its worker answers.

  datatype Setup<!G> = Setup(kind: Kind, program: Program<G>, strategy: ReuseStrategy)

  /** The sandbox that a worker keeps between jobs. */
  function KeptSandbox<G>(setup: Setup<G>): Outcome<Context<G>> {
    var context := NewContext(setup.kind, setup.program, setup.strategy);
    if setup.strategy.Reuse? then Load(setup.program, context) else Fine(context)
  }

  /** One turn of a worker's loop: the response, and the sandbox for the next job. */
  function Turn<G>(setup: Setup<G>, context: Context<G>): Outcome<Handled<G>> {
    match setup.strategy
    case New =>
      (match Load(setup.program, NewContext(setup.kind, setup.program, New))
       case Panics(p) => Panics(p)
       case Fine(loaded) =>
         match HandleRequest(setup.program, loaded)
         case Panics(p) => Panics(p)
         case Fine(handled) => Fine(Handled(context, handled.response)))
    case Reload =>
      (match Load(setup.program, context)
       case Panics(p) => Panics(p)
       case Fine(loaded) =>
         match HandleRequest(setup.program, loaded)
         case Panics(p) => Panics(p)
         case Fine(handled) =>
           match Unload(handled.context)
           case Panics(p) => Panics(p)
           case Fine(unloaded) => Fine(Handled(unloaded, handled.response)))
    case Reuse => HandleRequest(setup.program, context)
  }

  /** What the worker loop of a strategy answers. */
  function ServiceOf<G>(setup: Setup<G>, jobs: nat): Service {
    if setup.strategy.Reuse? then Continued(setup.program, setup.program.image, jobs) else Fresh(setup.program, jobs)
  }

  /** What it still answers from here on. */
  function Remaining<G>(setup: Setup<G>, context: Context<G>, jobs: nat): Service
    requires setup.strategy.Reuse? ==> GuestOf(context).Full?
  {
    if setup.strategy.Reuse? then Continued(setup.program, GuestOf(context).content, jobs)
      else Fresh(setup.program, jobs)
  }

  /** A worker that has sent some responses goes on as its service does. */
  ghost predicate OnTrack<G>(setup: Setup<G>, context: Context<G>, sent: seq<Text>) {
    && (if setup.strategy.Reuse? then GuestOf(context).Full?
        else context == NewContext(setup.kind, setup.program, setup.strategy))
    && forall more: nat :: ServiceOf(setup, |sent| + more) == Prepend(sent, Remaining(setup, context, more))
  }

  lemma StartsOnTrack<G>(setup: Setup<G>)
    ensures KeptSandbox(setup).Fine? && OnTrack(setup, KeptSandbox(setup).value, [])
  {
    LoadsImage(setup.kind, setup.program, setup.strategy);
    forall more: nat
      ensures ServiceOf(setup, more) == Prepend([], Remaining(setup, KeptSandbox(setup).value, more))
    {
      var rest := Remaining(setup, KeptSandbox(setup).value, more);
      assert [] + rest.responses == rest.responses;
    }
  }

  /** A turn answers what the service answers next, and never panics unless the guest does. */
  lemma TurnAnswers<G>(setup: Setup<G>, context: Context<G>, sent: seq<Text>)
    requires OnTrack(setup, context, sent)
    ensures
      match Turn(setup, context)
      case Fine(handled) => OnTrack(setup, handled.context, sent + [handled.response])
      case Panics(p) => p == GuestFailed && ServiceOf(setup, |sent| + 1) == Service(sent, Panics(GuestFailed))
  {
    var program := setup.program;
    LoadsImage(setup.kind, program, setup.strategy);
    if setup.strategy.Reload? {
      var loaded := Load(program, context).value;
      if program.step(program.image).Answered? {
        UnloadRestores(setup.kind, program, program.step(program.image).next);
      }
    }
    var turn := Turn(setup, context);
    if turn.Fine? {
      if setup.strategy.Reuse? {
        GuestUpdated(context, program.step(GuestOf(context).content).next);
      }
      var after := sent + [turn.value.response];
      forall more: nat
        ensures ServiceOf(setup, |after| + more) == Prepend(after, Remaining(setup, turn.value.context, more))
      {
        assert ServiceOf(setup, |sent| + (more + 1)) == Prepend(sent, Remaining(setup, context, more + 1));
        PrependStep(sent, turn.value.response, Remaining(setup, turn.value.context, more));
      }
    } else {
      assert ServiceOf(setup, |sent| + 1) == Prepend(sent, Remaining(setup, context, 1));
      assert sent + [] == sent;
    }
  }

  // ---------------------------------------------------------------- a pool of such workers

  datatype State<!G> = State(pool: Pool.State, contexts: map<Pool.Worker, Context<G>>)

  /** A worker responds with what its sandbox answers. When that panics, the process ends, and no step of
      the worker follows. */
  ghost predicate Enabled<G>(setup: Setup<G>, s: State<G>, a: Pool.Action) {
    && Pool.Enabled(s.pool, a)
    && (a.Respond? ==>
      && a.worker in s.contexts
      && var turn := Turn(setup, s.contexts[a.worker]);
         turn.Fine? && turn.value.response == a.response)
  }

  ghost function Apply<G>(setup: Setup<G>, s: State<G>, a: Pool.Action): State<G>
    requires Enabled(setup, s, a)
  {
    State(Pool.Apply(s.pool, a),
          if a.Respond? then s.contexts[a.worker := Turn(setup, s.contexts[a.worker]).value.context] else s.contexts)
  }

  ghost predicate Feasible<G>(setup: Setup<G>, s: State<G>, actions: seq<Pool.Action>)
    decreases |actions|
  {
    actions != [] ==> Enabled(setup, s, actions[0]) && Feasible(setup, Apply(setup, s, actions[0]), actions[1..])
  }

  ghost function After<G>(setup: Setup<G>, s: State<G>, actions: seq<Pool.Action>): State<G>
    requires Feasible(setup, s, actions)
    decreases |actions|
  {
    if actions == [] then s else After(setup, Apply(setup, s, actions[0]), actions[1..])
  }

  ghost predicate Initial<G>(setup: Setup<G>, s: State<G>) {
    && Pool.Initial(s.pool)
    && forall w: Pool.Worker :: w < s.pool.workers ==> w in s.contexts && KeptSandbox(setup) == Fine(s.contexts[w])
  }

  function ResponsesOf(answers: seq<Pool.Answer>, w: Pool.Worker): seq<Text> {
    if answers == [] then []
    else
      var last := answers[|answers| - 1];
      ResponsesOf(answers[..|answers| - 1], w) + if last.worker == w then [last.response] else []
  }

  ghost predicate AllOnTrack<G>(setup: Setup<G>, s: State<G>) {
    forall w: Pool.Worker :: w < s.pool.workers ==>
      w in s.contexts && OnTrack(setup, s.contexts[w], ResponsesOf(s.pool.answers, w))
  }

  lemma StepOnTrack<G>(setup: Setup<G>, s: State<G>, a: Pool.Action)
    requires Enabled(setup, s, a) && AllOnTrack(setup, s)
    ensures AllOnTrack(setup, Apply(setup, s, a))
  {
    var after := Apply(setup, s, a);
    forall w: Pool.Worker | w < after.pool.workers
      ensures w in after.contexts && OnTrack(setup, after.contexts[w], ResponsesOf(after.pool.answers, w))
    {
      if a.Respond? {
        assert after.pool.answers[..|s.pool.answers|] == s.pool.answers;
        if a.worker == w {
          TurnAnswers(setup, s.contexts[w], ResponsesOf(s.pool.answers, w));
        } else {
          assert ResponsesOf(s.pool.answers, w) + [] == ResponsesOf(s.pool.answers, w);
        }
      }
    }
  }

  lemma {:induction false} RunOnTrack<G>(setup: Setup<G>, s: State<G>, actions: seq<Pool.Action>)
    requires Feasible(setup, s, actions) && AllOnTrack(setup, s)
    ensures AllOnTrack(setup, After(setup, s, actions))
    ensures Pool.CanRun(s.pool, actions) && Pool.RunAll(s.pool, actions) == After(setup, s, actions).pool
    decreases |actions|
  {
    if actions == [] {
    } else {
      StepOnTrack(setup, s, actions[0]);
      RunOnTrack(setup, Apply(setup, s, actions[0]), actions[1..]);
    }
  }

  lemma {:induction false} ResponsesMatch(answers: seq<Pool.Answer>, w: Pool.Worker)
    ensures |ResponsesOf(answers, w)| == |Pool.ServedBy(answers, w)|
  {
    if answers != [] {
      ResponsesMatch(answers[..|answers| - 1], w);
    }
  }

  /** In every interleaving of clients and workers, the k-th answer of a worker goes to the k-th job that it
      was sent and is the k-th response of its service. */
  lemma AnswersAreServed<G>(setup: Setup<G>, s: State<G>, actions: seq<Pool.Action>, w: Pool.Worker)
    requires Initial(setup, s) && Feasible(setup, s, actions) && w < s.pool.workers
    ensures
      var t := After(setup, s, actions).pool;
      var jobs, responses := Pool.ServedBy(t.answers, w), ResponsesOf(t.answers, w);
      && |jobs| == |responses|
      && w in t.sent && jobs <= t.sent[w]
      && ServiceOf(setup, |jobs|) == Service(responses, Fine(()))
  {
    StartsOnTrack(setup);
    RunOnTrack(setup, s, actions);
    var t := After(setup, s, actions);
    Pool.ServesInOrder(s.pool, actions, w);
    Pool.ReachesInvariant(s.pool, actions);
    ResponsesMatch(t.pool.answers, w);
    var responses := ResponsesOf(t.pool.answers, w);
    assert OnTrack(setup, t.contexts[w], responses);
    assert ServiceOf(setup, |responses| + 0) == Prepend(responses, Remaining(setup, t.contexts[w], 0));
    assert responses + [] == responses;
  }

  lemma {:induction false} ResponseListed(answers: seq<Pool.Answer>, i: nat)
    requires i < |answers|
    ensures answers[i].response in ResponsesOf(answers, answers[i].worker)
  {
    if i < |answers| - 1 {
      ResponseListed(answers[..|answers| - 1], i);
    }
  }

  /** Under New and Reload every client of the pool gets the response of the program as it was loaded,
      whichever worker its ticket chose and whatever came before. */
  lemma EveryAnswerFresh<G>(setup: Setup<G>, s: State<G>, actions: seq<Pool.Action>, i: nat)
    requires Initial(setup, s) && Feasible(setup, s, actions) && !setup.strategy.Reuse?
    requires i < |After(setup, s, actions).pool.answers|
    ensures
      var answer := setup.program.step(setup.program.image);
      answer.Answered? && After(setup, s, actions).pool.answers[i].response == answer.response
  {
    StartsOnTrack(setup);
    RunOnTrack(setup, s, actions);
    var t := After(setup, s, actions).pool;
    var w := t.answers[i].worker;
    Pool.ReachesInvariant(s.pool, actions);
    ResponseListed(t.answers, i);
    AnswersAreServed(setup, s, actions, w);
    FreshRepeats(setup.program, |Pool.ServedBy(t.answers, w)|);
  }
}
