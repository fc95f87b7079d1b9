/** The request handlers and the three strategies for reusing their sandboxes. */
module Handlers {
  import opened Texts

  // The guest is an arbitrary program: a state after loading, and a step that answers a request or traps.

  datatype Answer<G> = Answered(next: G, response: Text) | Trapped

  /** What is loaded into a sandbox. */
  datatype Program<!G> = Program(image: G, step: G -> Answer<G>)

  datatype ReuseStrategy = New | Reload | Reuse

  /** The ways in which a worker can panic. Only the last one comes from the guest. */
  datatype Panic =
    | LoadWhenLoaded
    | UnloadWhenUnloaded
    | UnloadWithoutRestore
    | HandleWhenUnloaded
    | NothingToTake
    | HandlerExists
    | GuestFailed

  datatype Outcome<+T> = Fine(value: T) | Panics(panic: Panic)

  datatype Kind = Wasm | Wasmtime | Js | Native

  datatype WasmState<G> = WasmUnloaded | WasmLoaded(guest: G)

  datatype Lifecycle<G> = Renew | Restore(snapshot: G) | KeepFor(snapshot: G)

  /** A script sandbox holds at most one handler. Loading consumes the sandbox, unloading gives one
      without handlers. */
  datatype JsState<G> = JsUnloaded(registered: bool) | JsLoaded(guest: G)

  datatype Slot<G> = Empty | Full(content: G)

  datatype Context<G> =
    | WasmContext(state: WasmState<G>, lifecycle: Lifecycle<G>)
    | WasmtimeContext(store: Slot<G>, instance: Slot<()>)
    | JsContext(js: JsState<G>)
    | NativeContext(sandbox: G, restores: Lifecycle<G>)

  // ---------------------------------------------------------------- the handlers

  /** Snapshots are taken of the loaded program. The native handler takes none for Reuse, and never reads it. */
  function LifecycleFor<G>(program: Program<G>, strategy: ReuseStrategy): Lifecycle<G> {
    match strategy
    case New => Renew
    case Reload => Restore(program.image)
    case Reuse => KeepFor(program.image)
  }

  function NewContext<G>(kind: Kind, program: Program<G>, strategy: ReuseStrategy): Context<G> {
    match kind
    case Wasm => WasmContext(WasmUnloaded, LifecycleFor(program, strategy))
    case Wasmtime => WasmtimeContext(Empty, Empty)
    case Js => JsContext(JsUnloaded(false))
    case Native => NativeContext(program.image, LifecycleFor(program, strategy))
  }

  function Load<G>(program: Program<G>, context: Context<G>): Outcome<Context<G>> {
    match context
    case WasmContext(state, lifecycle) =>
      if state.WasmLoaded? then Panics(LoadWhenLoaded)
      else
        Fine(WasmContext(WasmLoaded(if lifecycle.Renew? then program.image else lifecycle.snapshot), lifecycle))
    case WasmtimeContext(_, _) => Fine(WasmtimeContext(Full(program.image), Full(())))
    case JsContext(js) =>
      if js.JsLoaded? then Panics(LoadWhenLoaded)
      else if js.registered then Panics(HandlerExists)
      else Fine(JsContext(JsLoaded(program.image)))
    case NativeContext(_, _) => Fine(context)
  }

  function Unload<G>(context: Context<G>): Outcome<Context<G>> {
    match context
    case WasmContext(state, lifecycle) =>
      if !lifecycle.Restore? then Panics(UnloadWithoutRestore)
      else if state.WasmUnloaded? then Panics(UnloadWhenUnloaded)
      else Fine(WasmContext(WasmUnloaded, lifecycle))
    case WasmtimeContext(store, instance) =>
      if instance.Empty? || store.Empty? then Panics(NothingToTake) else Fine(WasmtimeContext(Empty, Empty))
    case JsContext(js) =>
      if js.JsUnloaded? then Panics(UnloadWhenUnloaded) else Fine(JsContext(JsUnloaded(false)))
    case NativeContext(_, restores) =>
      if !restores.Restore? then Panics(UnloadWithoutRestore) else Fine(NativeContext(restores.snapshot, restores))
  }

  /** The guest that would answer a request. */
  function GuestOf<G>(context: Context<G>): Slot<G> {
    match context
    case WasmContext(state, _) => if state.WasmLoaded? then Full(state.guest) else Empty
    case WasmtimeContext(store, instance) => if instance.Empty? then Empty else store
    case JsContext(js) => if js.JsLoaded? then Full(js.guest) else Empty
    case NativeContext(sandbox, _) => Full(sandbox)
  }

  function WithGuest<G>(context: Context<G>, guest: G): Context<G> {
    match context
    case WasmContext(_, lifecycle) => WasmContext(WasmLoaded(guest), lifecycle)
    case WasmtimeContext(_, instance) => WasmtimeContext(Full(guest), instance)
    case JsContext(_) => JsContext(JsLoaded(guest))
    case NativeContext(_, restores) => NativeContext(guest, restores)
  }

  datatype Handled<G> = Handled(context: Context<G>, response: Text)

  function HandleRequest<G>(program: Program<G>, context: Context<G>): Outcome<Handled<G>> {
    match GuestOf(context)
    case Empty => Panics(if context.WasmtimeContext? then NothingToTake else HandleWhenUnloaded)
    case Full(guest) =>
      match program.step(guest)
      case Trapped => Panics(GuestFailed)
      case Answered(next, response) => Fine(Handled(WithGuest(context, next), response))
  }

  // ---------------------------------------------------------------- contexts that are updated in place

  /** A result and the new context are what a function on contexts says. A panic ends the process. */
  ghost predicate Does<G>(result: Outcome<()>, after: Context<G>, expected: Outcome<Context<G>>) {
    match expected
    case Fine(c) => result == Fine(()) && after == c
    case Panics(p) => result == Panics(p)
  }

  ghost predicate Responds<G>(result: Outcome<Text>, after: Context<G>, expected: Outcome<Handled<G>>) {
    match expected
    case Fine(h) => result == Fine(h.response) && after == h.context
    case Panics(p) => result == Panics(p)
  }

  class WasmSandbox<!G> {
    var state: WasmState<G>
    const lifecycle: Lifecycle<G>
    const program: Program<G>

    ghost function Value(): Context<G>
      reads this
    {
      WasmContext(state, lifecycle)
    }

    constructor (program: Program<G>, strategy: ReuseStrategy)
      ensures this.program == program && Value() == NewContext(Wasm, program, strategy)
    {
      this.program := program;
      lifecycle := LifecycleFor(program, strategy);
      state := WasmUnloaded;
    }

    method LoadModule() returns (r: Outcome<()>)
      modifies this
      ensures Does(r, Value(), Load(program, old(Value())))
    {
      if state.WasmLoaded? {
        return Panics(LoadWhenLoaded);
      }
      var guest;
      match lifecycle {
        case Renew => guest := program.image;
        case Restore(snapshot) => guest := snapshot;
        case KeepFor(snapshot) => guest := snapshot;
      }
      state := WasmLoaded(guest);
      return Fine(());
    }

    method UnloadModule() returns (r: Outcome<()>)
      modifies this
      ensures Does(r, Value(), Unload(old(Value())))
    {
      if !lifecycle.Restore? {
        return Panics(UnloadWithoutRestore);
      }
      if state.WasmUnloaded? {
        return Panics(UnloadWhenUnloaded);
      }
      state := WasmUnloaded;
      return Fine(());
    }

    method Handle() returns (r: Outcome<Text>)
      modifies this
      ensures Responds(r, Value(), HandleRequest(program, old(Value())))
    {
      if state.WasmUnloaded? {
        return Panics(HandleWhenUnloaded);
      }
      match program.step(state.guest) {
        case Trapped => return Panics(GuestFailed);
        case Answered(next, response) =>
          state := WasmLoaded(next);
          return Fine(response);
      }
    }
  }

  class WasmtimeStore<!G> {
    var store: Slot<G>
    var instance: Slot<()>
    const program: Program<G>

    ghost function Value(): Context<G>
      reads this
    {
      WasmtimeContext(store, instance)
    }

    constructor (program: Program<G>, strategy: ReuseStrategy)
      ensures this.program == program && Value() == NewContext(Wasmtime, program, strategy)
    {
      this.program := program;
      store, instance := Empty, Empty;
    }

    /** A second load replaces the store and the instance. */
    method Instantiate() returns (r: Outcome<()>)
      modifies this
      ensures Does(r, Value(), Load(program, old(Value())))
    {
      instance := Full(());
      store := Full(program.image);
      return Fine(());
    }

    method Take() returns (r: Outcome<()>)
      modifies this
      ensures Does(r, Value(), Unload(old(Value())))
    {
      if instance.Empty? {
        return Panics(NothingToTake);
      }
      instance := Empty;
      if store.Empty? {
        return Panics(NothingToTake);
      }
      store := Empty;
      return Fine(());
    }

    method Handle() returns (r: Outcome<Text>)
      modifies this
      ensures Responds(r, Value(), HandleRequest(program, old(Value())))
    {
      if instance.Empty? || store.Empty? {
        return Panics(NothingToTake);
      }
      match program.step(store.content) {
        case Trapped => return Panics(GuestFailed);
        case Answered(next, response) =>
          store := Full(next);
          return Fine(response);
      }
    }
  }

  class NativeSandbox<!G> {
    var sandbox: G
    const restores: Lifecycle<G>
    const program: Program<G>

    ghost function Value(): Context<G>
      reads this
    {
      NativeContext(sandbox, restores)
    }

    constructor (program: Program<G>, strategy: ReuseStrategy)
      ensures this.program == program && Value() == NewContext(Native, program, strategy)
    {
      this.program := program;
      restores := LifecycleFor(program, strategy);
      sandbox := program.image;
    }

    method RestoreSnapshot() returns (r: Outcome<()>)
      modifies this
      ensures Does(r, Value(), Unload(old(Value())))
    {
      match restores {
        case Restore(snapshot) =>
          sandbox := snapshot;
          return Fine(());
        case _ => return Panics(UnloadWithoutRestore);
      }
    }

    method Handle() returns (r: Outcome<Text>)
      modifies this
      ensures Responds(r, Value(), HandleRequest(program, old(Value())))
    {
      match program.step(sandbox) {
        case Trapped => return Panics(GuestFailed);
        case Answered(next, response) =>
          sandbox := next;
          return Fine(response);
      }
    }
  }

  // ---------------------------------------------------------------- any handler

  /** The sandbox of a worker. A script sandbox is a value: loading and unloading consume it. */
  datatype Sandbox<!G> =
    | WasmBox(wasm: WasmSandbox<G>)
    | WasmtimeBox(wasmtime: WasmtimeStore<G>)
    | JsBox(js: JsState<G>)
    | NativeBox(native: NativeSandbox<G>)

  ghost function Parts<G>(box: Sandbox<G>): set<object> {
    match box
    case WasmBox(b) => {b}
    case WasmtimeBox(b) => {b}
    case JsBox(_) => {}
    case NativeBox(b) => {b}
  }

  ghost function ContextOf<G>(box: Sandbox<G>): Context<G>
    reads Parts(box)
  {
    match box
    case WasmBox(b) => b.Value()
    case WasmtimeBox(b) => b.Value()
    case JsBox(js) => JsContext(js)
    case NativeBox(b) => b.Value()
  }

  ghost predicate Runs<G>(box: Sandbox<G>, program: Program<G>) {
    match box
    case WasmBox(b) => b.program == program
    case WasmtimeBox(b) => b.program == program
    case JsBox(_) => true
    case NativeBox(b) => b.program == program
  }

  method CreateSandbox<G>(kind: Kind, program: Program<G>, strategy: ReuseStrategy) returns (box: Sandbox<G>)
    ensures ContextOf(box) == NewContext(kind, program, strategy) && Runs(box, program) && fresh(Parts(box))
  {
    match kind {
      case Wasm =>
        var b := new WasmSandbox(program, strategy);
        box := WasmBox(b);
      case Wasmtime =>
        var b := new WasmtimeStore(program, strategy);
        box := WasmtimeBox(b);
      case Js => box := JsBox(JsUnloaded(false));
      case Native =>
        var b := new NativeSandbox(program, strategy);
        box := NativeBox(b);
    }
  }

  method LoadInto<G>(program: Program<G>, box: Sandbox<G>) returns (r: Outcome<()>, after: Sandbox<G>)
    requires Runs(box, program)
    modifies Parts(box)
    ensures Does(r, ContextOf(after), Load(program, old(ContextOf(box))))
    ensures Parts(after) == Parts(box) && Runs(after, program)
  {
    after := box;
    match box {
      case WasmBox(b) => r := b.LoadModule();
      case WasmtimeBox(b) => r := b.Instantiate();
      case JsBox(js) =>
        if js.JsLoaded? {
          r := Panics(LoadWhenLoaded);
        } else if js.registered {
          r := Panics(HandlerExists);
        } else {
          after := JsBox(JsLoaded(program.image));
          r := Fine(());
        }
      case NativeBox(_) => r := Fine(());
    }
  }

  method UnloadFrom<G>(program: Program<G>, box: Sandbox<G>) returns (r: Outcome<()>, after: Sandbox<G>)
    requires Runs(box, program)
    modifies Parts(box)
    ensures Does(r, ContextOf(after), Unload(old(ContextOf(box))))
    ensures Parts(after) == Parts(box) && Runs(after, program)
  {
    after := box;
    match box {
      case WasmBox(b) => r := b.UnloadModule();
      case WasmtimeBox(b) => r := b.Take();
      case JsBox(js) =>
        if js.JsUnloaded? {
          r := Panics(UnloadWhenUnloaded);
        } else {
          after := JsBox(JsUnloaded(false));
          r := Fine(());
        }
      case NativeBox(b) => r := b.RestoreSnapshot();
    }
  }

  method HandleIn<G>(program: Program<G>, box: Sandbox<G>) returns (r: Outcome<Text>, after: Sandbox<G>)
    requires Runs(box, program)
    modifies Parts(box)
    ensures Responds(r, ContextOf(after), HandleRequest(program, old(ContextOf(box))))
    ensures Parts(after) == Parts(box) && Runs(after, program)
  {
    after := box;
    match box {
      case WasmBox(b) => r := b.Handle();
      case WasmtimeBox(b) => r := b.Handle();
      case JsBox(js) =>
        if js.JsUnloaded? {
          r := Panics(HandleWhenUnloaded);
        } else {
          match program.step(js.guest) {
            case Trapped => r := Panics(GuestFailed);
            case Answered(next, response) =>
              after := JsBox(JsLoaded(next));
              r := Fine(response);
          }
        }
      case NativeBox(b) => r := b.Handle();
    }
  }

  // ---------------------------------------------------------------- which call sequences panic

  datatype Operation = DoLoad | DoUnload | DoHandle

  function Perform<G>(program: Program<G>, context: Context<G>, operation: Operation): Outcome<Context<G>> {
    match operation
    case DoLoad => Load(program, context)
    case DoUnload => Unload(context)
    case DoHandle =>
      match HandleRequest(program, context)
      case Panics(p) => Panics(p)
      case Fine(h) => Fine(h.context)
  }

  /** The context after a sequence of operations, or the first panic. */
  function PerformAll<G>(program: Program<G>, context: Context<G>, operations: seq<Operation>): Outcome<Context<G>> {
    if operations == [] then Fine(context)
    else
      match PerformAll(program, context, operations[..|operations| - 1])
      case Panics(p) => Panics(p)
      case Fine(c) => Perform(program, c, operations[|operations| - 1])
  }

  /** There was a load, and no unload since. */
  ghost predicate LoadedAt(operations: seq<Operation>, i: nat) {
    exists j :: 0 <= j < i <= |operations| && LoadLast(operations, j, i)
  }

  ghost predicate LoadLast(operations: seq<Operation>, j: nat, i: nat)
    requires j < i <= |operations|
  {
    operations[j].DoLoad? && forall k :: j < k < i ==> !operations[k].DoUnload?
  }

  /** Which operation may come next. */
  ghost predicate Allowed(kind: Kind, strategy: ReuseStrategy, operations: seq<Operation>, i: nat)
    requires i < |operations|
  {
    match operations[i]
    case DoLoad => kind.Wasm? || kind.Js? ==> !LoadedAt(operations, i)
    case DoUnload =>
      && (kind.Wasm? || kind.Native? ==> strategy.Reload?)
      && (kind.Native? || LoadedAt(operations, i))
    case DoHandle => kind.Native? || LoadedAt(operations, i)
  }

  ghost predicate NeverTraps<G(!new)>(program: Program<G>) {
    forall g :: program.step(g).Answered?
  }

  /** How a context looks after operations that did not panic. */
  ghost predicate Consistent<G>(kind: Kind, strategy: ReuseStrategy, program: Program<G>, context: Context<G>,
                                loaded: bool) {
    match context
    case WasmContext(state, lifecycle) =>
      kind.Wasm? && lifecycle == LifecycleFor(program, strategy) && (state.WasmLoaded? <==> loaded)
    case WasmtimeContext(store, instance) => kind.Wasmtime? && (store.Full? <==> loaded) && (instance.Full? <==> loaded)
    case JsContext(js) => kind.Js? && (js.JsLoaded? <==> loaded) && (js.JsUnloaded? ==> !js.registered)
    case NativeContext(_, restores) => kind.Native? && restores == LifecycleFor(program, strategy)
  }

  lemma LoadedStep(operations: seq<Operation>)
    requires operations != []
    ensures
      var n, last := |operations| - 1, operations[|operations| - 1];
      LoadedAt(operations, |operations|) <==> last.DoLoad? || (last.DoHandle? && LoadedAt(operations[..n], n))
  {
    var n, last := |operations| - 1, operations[|operations| - 1];
    if last.DoLoad? {
      assert LoadLast(operations, n, n + 1);
    }
    if last.DoHandle? && LoadedAt(operations[..n], n) {
      var j :| 0 <= j < n && LoadLast(operations[..n], j, n);
      assert LoadLast(operations, j, n + 1);
    }
    if LoadedAt(operations, n + 1) && !last.DoLoad? {
      var j :| 0 <= j < n + 1 && LoadLast(operations, j, n + 1);
      assert j < n;
      assert LoadLast(operations[..n], j, n);
    }
  }

  lemma LoadedPrefix(operations: seq<Operation>, n: nat, i: nat)
    requires i <= n <= |operations|
    ensures LoadedAt(operations[..n], i) <==> LoadedAt(operations, i)
  {
    if LoadedAt(operations, i) {
      var j :| 0 <= j < i && LoadLast(operations, j, i);
      assert LoadLast(operations[..n], j, i);
    }
    if LoadedAt(operations[..n], i) {
      var j :| 0 <= j < i && LoadLast(operations[..n], j, i);
      assert LoadLast(operations, j, i);
    }
  }

  lemma PerformStep<G(!new)>(kind: Kind, strategy: ReuseStrategy, program: Program<G>, context: Context<G>,
                             operations: seq<Operation>)
    requires NeverTraps(program) && operations != []
    requires Consistent(kind, strategy, program, context, LoadedAt(operations, |operations| - 1))
    ensures
      var result := Perform(program, context, operations[|operations| - 1]);
      && (result.Fine? <==> Allowed(kind, strategy, operations, |operations| - 1))
      && (result.Fine? ==> Consistent(kind, strategy, program, result.value, LoadedAt(operations, |operations|)))
  {
    LoadedStep(operations);
    LoadedPrefix(operations, |operations| - 1, |operations| - 1);
  }

  /** Exactly these call sequences run without a panic when the guest does not trap: no load of a loaded
      sandbox, no unload where the strategy keeps no snapshot, and nothing that needs a loaded guest
      without one. */
  lemma {:induction false} PanicsExactly<G(!new)>(kind: Kind, strategy: ReuseStrategy, program: Program<G>,
                                                  operations: seq<Operation>)
    requires NeverTraps(program)
    ensures
      var result := PerformAll(program, NewContext(kind, program, strategy), operations);
      && (result.Fine? <==> forall i :: 0 <= i < |operations| ==> Allowed(kind, strategy, operations, i))
      && (result.Fine? ==> Consistent(kind, strategy, program, result.value, LoadedAt(operations, |operations|)))
  {
    if operations == [] {
    } else {
      var n := |operations| - 1;
      var front := operations[..n];
      PanicsExactly(kind, strategy, program, front);
      forall i | 0 <= i < n
        ensures Allowed(kind, strategy, front, i) <==> Allowed(kind, strategy, operations, i)
      {
        LoadedPrefix(operations, n, i);
      }
      LoadedPrefix(operations, n, n);
      var before := PerformAll(program, NewContext(kind, program, strategy), front);
      if before.Fine? {
        PerformStep(kind, strategy, program, before.value, operations);
      }
    }
  }

  // ---------------------------------------------------------------- the worker loops

  /** The responses that were sent, and how the worker ended. */
  datatype Service = Service(responses: seq<Text>, ended: Outcome<()>)

  /** Every job is answered by the program as it was loaded. */
  function Fresh<G>(program: Program<G>, jobs: nat): Service {
    if jobs == 0 then Service([], Fine(()))
    else
      match program.step(program.image)
      case Trapped => Service([], Panics(GuestFailed))
      case Answered(_, response) =>
        var rest := Fresh(program, jobs - 1);
        Service([response] + rest.responses, rest.ended)
  }

  /** One guest answers all jobs, each from the state that the previous one left. */
  function Continued<G>(program: Program<G>, guest: G, jobs: nat): Service
    decreases jobs
  {
    if jobs == 0 then Service([], Fine(()))
    else
      match program.step(guest)
      case Trapped => Service([], Panics(GuestFailed))
      case Answered(next, response) =>
        var rest := Continued(program, next, jobs - 1);
        Service([response] + rest.responses, rest.ended)
  }

  function Ended<T>(outcome: Outcome<T>): Outcome<()> {
    match outcome
    case Fine(_) => Fine(())
    case Panics(panic) => Panics(panic)
  }

  function Prepend(responses: seq<Text>, s: Service): Service {
    Service(responses + s.responses, s.ended)
  }

  lemma LoadsImage<G>(kind: Kind, program: Program<G>, strategy: ReuseStrategy)
    ensures
      var loaded := Load(program, NewContext(kind, program, strategy));
      loaded.Fine? && GuestOf(loaded.value) == Full(program.image)
  {
  }

  /** Exact restore: whatever the guest did, unloading a reloading context gives back the context that
      was loaded. */
  lemma UnloadRestores<G>(kind: Kind, program: Program<G>, guest: G)
    ensures
      var loaded := Load(program, NewContext(kind, program, Reload));
      loaded.Fine? && Unload(WithGuest(loaded.value, guest)) == Fine(NewContext(kind, program, Reload))
  {
  }

  lemma GuestUpdated<G>(context: Context<G>, guest: G)
    requires GuestOf(context).Full?
    ensures GuestOf(WithGuest(context, guest)) == Full(guest)
    ensures forall other :: WithGuest(WithGuest(context, guest), other) == WithGuest(context, other)
    ensures WithGuest(context, GuestOf(context).content) == context
  {
  }

  /** A request takes the guest one step, and leaves the next one in the context. */
  lemma HandledAnswers<G>(program: Program<G>, context: Context<G>)
    requires GuestOf(context).Full?
    ensures
      match HandleRequest(program, context)
      case Panics(p) => p == GuestFailed && program.step(GuestOf(context).content).Trapped?
      case Fine(h) =>
        && GuestOf(h.context).Full?
        && program.step(GuestOf(context).content) == Answered(GuestOf(h.context).content, h.response)
  {
  }

  lemma PrependStep(sent: seq<Text>, response: Text, rest: Service)
    ensures Prepend(sent, Service([response] + rest.responses, rest.ended)) == Prepend(sent + [response], rest)
  {
  }

  /** A new sandbox for every job. */
  method WorkerNew<G>(kind: Kind, program: Program<G>, jobs: nat) returns (s: Service)
    ensures s == Fresh(program, jobs)
  {
    var sent: seq<Text> := [];
    for i := 0 to jobs
      invariant Fresh(program, jobs) == Prepend(sent, Fresh(program, jobs - i))
    {
      LoadsImage(kind, program, New);
      var box := CreateSandbox(kind, program, New);
      var loaded, full := LoadInto(program, box);
      if loaded.Panics? {
        return Service(sent, Ended(loaded));
      }
      var handled, _ := HandleIn(program, full);
      if handled.Panics? {
        return Service(sent, Ended(handled));
      }
      PrependStep(sent, handled.value, Fresh(program, jobs - i - 1));
      sent := sent + [handled.value];
    }
    return Service(sent, Fine(()));
  }

  /** One sandbox, loaded before every job and unloaded after it. */
  method WorkerReload<G>(kind: Kind, program: Program<G>, jobs: nat) returns (s: Service)
    ensures s == Fresh(program, jobs)
  {
    var box := CreateSandbox(kind, program, Reload);
    var sent: seq<Text> := [];
    for i := 0 to jobs
      invariant Runs(box, program) && fresh(Parts(box))
      invariant ContextOf(box) == NewContext(kind, program, Reload)
      invariant Fresh(program, jobs) == Prepend(sent, Fresh(program, jobs - i))
    {
      LoadsImage(kind, program, Reload);
      var loaded, full := LoadInto(program, box);
      if loaded.Panics? {
        return Service(sent, Ended(loaded));
      }
      ghost var ready := ContextOf(full);
      var handled, used := HandleIn(program, full);
      if handled.Panics? {
        return Service(sent, Ended(handled));
      }
      PrependStep(sent, handled.value, Fresh(program, jobs - i - 1));
      sent := sent + [handled.value];
      UnloadRestores(kind, program, GuestOf(ContextOf(used)).content);
      GuestUpdated(ready, GuestOf(ContextOf(used)).content);
      var unloaded, empty := UnloadFrom(program, used);
      if unloaded.Panics? {
        return Service(sent, Ended(unloaded));
      }
      box := empty;
    }
    return Service(sent, Fine(()));
  }

  /** One sandbox, loaded once. */
  method WorkerReuse<G>(kind: Kind, program: Program<G>, jobs: nat) returns (s: Service)
    ensures s == Continued(program, program.image, jobs)
  {
    LoadsImage(kind, program, Reuse);
    var created := CreateSandbox(kind, program, Reuse);
    var loaded, box := LoadInto(program, created);
    if loaded.Panics? {
      return Service([], Ended(loaded));
    }
    var sent: seq<Text> := [];
    for i := 0 to jobs
      invariant Runs(box, program) && fresh(Parts(box))
      invariant GuestOf(ContextOf(box)).Full?
      invariant Continued(program, program.image, jobs) ==
        Prepend(sent, Continued(program, GuestOf(ContextOf(box)).content, jobs - i))
    {
      ghost var before := ContextOf(box);
      var handled, used := HandleIn(program, box);
      if handled.Panics? {
        return Service(sent, Ended(handled));
      }
      HandledAnswers(program, before);
      PrependStep(sent, handled.value, Continued(program, GuestOf(ContextOf(used)).content, jobs - i - 1));
      box := used;
      sent := sent + [handled.value];
    }
    return Service(sent, Fine(()));
  }

  // ---------------------------------------------------------------- what the strategies answer

  /** The states of one guest, as far as it does not trap. */
  ghost predicate Stepped<G>(program: Program<G>, states: seq<G>, responses: seq<Text>) {
    && |states| == |responses| + 1
    && forall i :: 0 <= i < |responses| ==> program.step(states[i]) == Answered(states[i + 1], responses[i])
  }

  /** Reuse gives the responses of one guest stepped through the jobs, until it traps. */
  lemma {:induction false} ReuseStepsOneGuest<G>(program: Program<G>, guest: G, jobs: nat) returns (states: seq<G>)
    ensures
      var s := Continued(program, guest, jobs);
      && Stepped(program, states, s.responses) && states[0] == guest
      && |s.responses| <= jobs && (s.ended == Fine(()) <==> |s.responses| == jobs)
      && (s.ended != Fine(()) ==> s.ended == Panics(GuestFailed) && program.step(states[|s.responses|]).Trapped?)
    decreases jobs
  {
    states := [guest];
    if jobs > 0 && program.step(guest).Answered? {
      var rest := ReuseStepsOneGuest(program, program.step(guest).next, jobs - 1);
      states := [guest] + rest;
    }
  }

  /** New and Reload give every job the same response, that of the program as it was loaded, unless that
      program traps, which is then the only panic and comes with the first job. */
  lemma {:induction false} FreshRepeats<G>(program: Program<G>, jobs: nat)
    ensures
      var s, answer := Fresh(program, jobs), program.step(program.image);
      && (s.ended == Fine(()) <==> jobs == 0 || answer.Answered?)
      && (s.ended != Fine(()) ==> s.ended == Panics(GuestFailed) && s.responses == [])
      && (s.ended == Fine(()) ==>
        |s.responses| == jobs && forall i :: 0 <= i < jobs ==> s.responses[i] == answer.response)
  {
    if jobs > 0 {
      FreshRepeats(program, jobs - 1);
    }
  }

  /** The guest before a job, if all earlier jobs were answered. */
  function GuestBefore<G>(program: Program<G>, job: nat): Slot<G> {
    if job == 0 then Full(program.image)
    else
      match GuestBefore(program, job - 1)
      case Empty => Empty
      case Full(guest) =>
        match program.step(guest)
        case Trapped => Empty
        case Answered(next, _) => Full(next)
  }

  lemma {:induction false} GuestsStepped<G>(program: Program<G>, states: seq<G>, responses: seq<Text>, job: nat)
    requires Stepped(program, states, responses) && states[0] == program.image && job <= |responses|
    ensures GuestBefore(program, job) == Full(states[job])
  {
    if job > 0 {
      GuestsStepped(program, states, responses, job - 1);
      assert program.step(states[job - 1]) == Answered(states[job], responses[job - 1]);
    }
  }

  /** The guest answers a job like the program as it was loaded. */
  predicate AnswersLikeNew<G>(program: Program<G>, job: nat)
    requires program.step(program.image).Answered?
  {
    match GuestBefore(program, job)
    case Empty => false
    case Full(guest) =>
      match program.step(guest)
      case Trapped => false
      case Answered(_, response) => response == program.step(program.image).response
  }

  /** Reuse gives the responses of New exactly when no job changes how the guest answers the later ones. */
  lemma ReuseLikeNewIff<G>(program: Program<G>, jobs: nat)
    requires program.step(program.image).Answered?
    ensures Continued(program, program.image, jobs) == Fresh(program, jobs) <==>
      forall i :: 0 <= i < jobs ==> AnswersLikeNew(program, i)
  {
    var s, always := Continued(program, program.image, jobs), Fresh(program, jobs);
    FreshRepeats(program, jobs);
    var states := ReuseStepsOneGuest(program, program.image, jobs);
    forall i | 0 <= i <= |s.responses|
      ensures GuestBefore(program, i) == Full(states[i])
    {
      GuestsStepped(program, states, s.responses, i);
    }
    if s == always {
      forall i | 0 <= i < jobs
        ensures AnswersLikeNew(program, i)
      {
        assert program.step(states[i]) == Answered(states[i + 1], s.responses[i]);
      }
    }
    if forall i :: 0 <= i < jobs ==> AnswersLikeNew(program, i) {
      assert |s.responses| < jobs ==> AnswersLikeNew(program, |s.responses|);
      forall i | 0 <= i < |s.responses|
        ensures s.responses[i] == program.step(program.image).response
      {
        assert AnswersLikeNew(program, i);
        assert program.step(states[i]) == Answered(states[i + 1], s.responses[i]);
      }
      assert s.responses == always.responses;
    }
  }

  /** A set of guest states that contains the loaded program, is closed under steps, and on which the guest
      answers like the loaded program. */
  ghost predicate Stateless<G(!new)>(program: Program<G>, guests: iset<G>)
    requires program.step(program.image).Answered?
  {
    && program.image in guests
    && forall g :: g in guests ==>
      && program.step(g).Answered?
      && program.step(g).response == program.step(program.image).response
      && program.step(g).next in guests
  }

  lemma {:induction false} StatelessBefore<G(!new)>(program: Program<G>, guests: iset<G>, job: nat)
    requires program.step(program.image).Answered? && Stateless(program, guests)
    ensures GuestBefore(program, job).Full? && GuestBefore(program, job).content in guests
  {
    if job > 0 {
      StatelessBefore(program, guests, job - 1);
    }
  }

  ghost predicate AlwaysLikeNew<G>(program: Program<G>) {
    forall jobs: nat :: Continued(program, program.image, jobs) == Fresh(program, jobs)
  }

  lemma StatelessLikeNew<G(!new)>(program: Program<G>, guests: iset<G>)
    requires program.step(program.image).Answered? && Stateless(program, guests)
    ensures AlwaysLikeNew(program)
  {
    forall jobs: nat
      ensures Continued(program, program.image, jobs) == Fresh(program, jobs)
    {
      forall i | 0 <= i < jobs
        ensures AnswersLikeNew(program, i)
      {
        StatelessBefore(program, guests, i);
      }
      ReuseLikeNewIff(program, jobs);
    }
  }

  lemma LikeNewStateless<G(!new)>(program: Program<G>) returns (guests: iset<G>)
    requires program.step(program.image).Answered? && AlwaysLikeNew(program)
    ensures Stateless(program, guests)
  {
    guests := iset job: nat | GuestBefore(program, job).Full? :: GuestBefore(program, job).content;
    forall g | g in guests
      ensures
        && program.step(g).Answered?
        && program.step(g).response == program.step(program.image).response
        && program.step(g).next in guests
    {
      var job: nat :| GuestBefore(program, job) == Full(g);
      assert Continued(program, program.image, job + 1) == Fresh(program, job + 1);
      ReuseLikeNewIff(program, job + 1);
      assert AnswersLikeNew(program, job);
      assert GuestBefore(program, job + 1) == Full(program.step(g).next);
    }
    assert GuestBefore(program, 0) == Full(program.image);
  }

  /** Reuse answers like New for every number of jobs exactly when the guest has such a set of states,
      which can be checked on its transition function without running any job. */
  lemma ReuseAlwaysLikeNewIff<G(!new)>(program: Program<G>)
    requires program.step(program.image).Answered?
    ensures AlwaysLikeNew(program) <==> exists guests: iset<G> :: Stateless(program, guests)
  {
    if AlwaysLikeNew(program) {
      var guests := LikeNewStateless(program);
    }
    if guests: iset<G> :| Stateless(program, guests) {
      StatelessLikeNew(program, guests);
    }
  }
}
