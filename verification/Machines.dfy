/** The transaction manager of one asynchronous chain, one step at a time: what runs
    next, and the frames that wait for its outcome. */
module Machines {
  import opened Wrappers
  import opened Programs
  import opened Reference
  import opened Contexts
  import opened Databases
  import opened Worlds
  import opened WorldSteps
  import opened WorldParts

  /** The attempt of a run that a transaction belongs to: `left` attempts remain with
      it, and `outermost` ones have a store of their own. */
  datatype Job = Job(left: nat, options: Options, body: Program, handle: nat, outermost: bool)

  datatype Frame =
    | SecondFrame(second: Program)
    | HandlerFrame(handler: Program, rethrow: bool)
    | RethrowFrame(thrown: Outcome)
    | ResumeFrame(tx: ActiveTransaction)
    | SavepointFrame(options: Options, handle: nat, name: nat)
    | CallbackFrame(job: Job, next: nat)
    | AfterFrame(job: Job, phase: Phase, next: nat, outcome: Outcome)

  datatype Control =
    | Perform(program: Program)
    | Give(outcome: Outcome)
    | Try(left: nat, options: Options, body: Program)
    | Decide(left: nat, options: Options, body: Program, outcome: Outcome)

  /** `world.marked` are the errors this chain's own transactions were rolled back
      for; `store` is the correlation id of the current store. */
  datatype Config = Config(
    world: World,
    store: Option<nat>,
    stores: nat,
    control: Control,
    stack: seq<Frame>)

  function Giving(c: Config, outcome: Outcome): Config {
    c.(control := Give(outcome))
  }

  function Performing(c: Config, p: Program): Config {
    c.(control := Perform(p))
  }

  function Pushing(c: Config, f: Frame): Config {
    c.(stack := [f] + c.stack)
  }

  function Popping(c: Config): Config {
    if c.stack == [] then c else c.(stack := c.stack[1..])
  }

  function Noting(c: Config, e: Entry): Config {
    c.(world := c.world.(log := c.world.log + [e]))
  }

  function Raising(c: Config, classes: set<ErrorClass>): Config {
    Giving(c.(world := c.world.(errors := c.world.errors + 1)), Fail(Object(Fresh(c.world.errors), classes)))
  }

  function Answered(c: Config): Config {
    c.(world := c.world.(clock := c.world.clock + 1))
  }

  /** One step. `marked` is what the manager's set of rolled-back errors says to this
      chain; only the retry decision looks at it. */
  ghost function Step(env: Environment, marked: set<Identity>, c: Config): Config {
    match c.control
    case Perform(p) => StepProgram(env, c, p)
    case Give(outcome) => if c.stack == [] then c else StepFrame(env, Popping(c), c.stack[0], outcome)
    case Try(left, o, body) => StepBegin(env, c, left, o, body)
    case Decide(left, o, body, outcome) => StepDecide(marked, c, left, o, body, outcome)
  }

  ghost function StepProgram(env: Environment, c: Config, p: Program): Config {
    var w := c.world;
    match p
    case Skip => Giving(c, Ok)
    case Emit(note) => Giving(Noting(c, Noted(note)), Ok)
    case Write(d, row) =>
      if Entered(w, d) && w.entries[d].handle < |w.sessions|
      then Giving(c.(world := Inserted(w, d, row)), Ok)
      else Giving(Noting(c, Autocommitted(d, row)), Ok)
    case Throw(error) => Giving(c, Fail(error))
    case ThrowFresh(classes) => Raising(c, classes)
    case Then(first, second) => Pushing(Performing(c, first), SecondFrame(second))
    case Catch(body, handler, rethrow) => Pushing(Performing(c, body), HandlerFrame(handler, rethrow))
    case Choose(normally, otherwise) =>
      Performing(Answered(c), if env.signal(w.clock).Proceed? then normally else otherwise)
    case Attach(d, phase, hook) =>
      Giving(if Entered(w, d) then c.(world := WorldSteps.Pushed(w, d, phase, hook)) else c, Ok)
    case Register(phase, hook) =>
      if w.order == [] || !Entered(w, w.order[0]) then Raising(c, {ILLEGAL_STATE})
      else Giving(c.(world := WorldSteps.Pushed(w, w.order[0], phase, hook)), Ok)
    case Run(o, body) =>
      if env.misses(o.dataSource).Some? then Raising(c, {env.misses(o.dataSource).value}) else StepRun(env, c, o, body)
  }

  ghost function Starting(c: Config, o: Options, body: Program): Config {
    if ValidRetry(o.retry) then c.(control := Try(Attempts(o.retry), o, body)) else Raising(c, {TYPE_ERROR})
  }

  ghost function Suspending(c: Config, d: DataSource): Config
    requires d in c.world.entries
  {
    Pushing(c.(world := Suspended(c.world, d)), ResumeFrame(c.world.entries[d]))
  }

  ghost function StepRun(env: Environment, c: Config, o: Options, body: Program): Config {
    var w, d := c.world, o.dataSource;
    match o.propagation
    case REQUIRED => if d in w.entries then Performing(c, body) else Starting(c, o, body)
    case REQUIRES_NEW => Starting(if d in w.entries then Suspending(c, d) else c, o, body)
    case NESTED =>
      if d !in w.entries then Starting(c, o, body)
      else if d !in env.savepoints || |w.sessions| <= w.entries[d].handle then Raising(c, {ILLEGAL_STATE})
      else
        var h := w.entries[d].handle;
        Pushing(Performing(c.(world := Saved(w, h)), body), SavepointFrame(o, h, w.names))
    case SUPPORTS => Performing(c, body)
    case NOT_SUPPORTED => Performing(if d in w.entries then Suspending(c, d) else c, body)
    case NEVER => if d in w.entries then Raising(c, {ILLEGAL_STATE}) else Performing(c, body)
    case MANDATORY => if d in w.entries then Performing(c, body) else Raising(c, {ILLEGAL_STATE})
  }

  /** BEGIN, and the slot of the new transaction. */
  ghost function StepBegin(env: Environment, c: Config, left: nat, o: Options, body: Program): Config {
    var c', d := Answered(c), o.dataSource;
    match env.signal(c.world.clock)
    case Fault(classes) =>
      var id := Fresh(c.world.errors);
      c'.(world := c'.world.(errors := c.world.errors + 1, marked := c.world.marked + {id}),
          stores := if c.store.Some? then c.stores else c.stores + 1,
          control := Decide(left, o, body, Fail(Object(id, classes))))
    case Proceed =>
      var id := if c.store.Some? then c.store.value else c.stores;
      var tx := ActiveTransaction(|c.world.lists|, env.adapterOf(d), d, id);
      Pushing(Performing(c', body).(
                world := Opened(c'.world, tx),
                store := Some(id),
                stores := if c.store.Some? then c.stores else c.stores + 1),
              CallbackFrame(Job(left, o, body, tx.handle, c.store.None?), 0))
  }

  /** The retry decision. */
  ghost function StepDecide(marked: set<Identity>, c: Config, left: nat, o: Options, body: Program,
                            outcome: Outcome): Config {
    if outcome.Fail? && left > 1 && outcome.error.Object? && outcome.error.id in marked
      && Retryable(outcome.error, o.retry)
    then
      var wait := Wait(left, o, outcome.error);
      (if wait > 0 then Noting(c, Waited(wait)) else c).(control := Try(left - 1, o, body))
    else Giving(c, outcome)
  }

  ghost function HooksAt(w: World, handle: nat, phase: Phase): seq<Program> {
    if handle < |w.lists| then HooksOf(w.lists[handle], phase) else []
  }

  ghost function StepFrame(env: Environment, c: Config, f: Frame, outcome: Outcome): Config {
    match f
    case SecondFrame(second) => if outcome.Ok? then Performing(c, second) else Giving(c, outcome)
    case HandlerFrame(handler, rethrow) =>
      if outcome.Ok? then Giving(c, Ok)
      else if rethrow then Pushing(Performing(c, handler), RethrowFrame(outcome))
      else Performing(c, handler)
    case RethrowFrame(thrown) => Giving(c, if outcome.Ok? then thrown else outcome)
    case ResumeFrame(tx) => Giving(c.(world := Resumed(c.world, tx.dataSource, tx)), outcome)
    case SavepointFrame(o, handle, name) =>
      var back := outcome.Fail? && ShouldRollback(outcome.error, o);
      Giving(c.(world := LeaveSavepoint(c.world, handle, name, back)), outcome)
    case CallbackFrame(job, next) => StepCallback(env, c, job, next, outcome)
    case AfterFrame(job, phase, next, ending) => StepAfter(c, job, phase, next, ending)
  }

  /** ROLLBACK TO SAVEPOINT, or RELEASE SAVEPOINT. */
  ghost function LeaveSavepoint(w: World, handle: nat, name: nat, back: bool): World {
    if |w.sessions| <= handle || Find(w.sessions[handle].savepoints, name) < 0 then w
    else
      var s := w.sessions[handle];
      var i := Find(s.savepoints, name);
      var s' := if back && s.savepoints[i].mark <= |s.rows|
                then Session(s.rows[..s.savepoints[i].mark], s.savepoints[..i + 1])
                else s.(savepoints := s.savepoints[..i]);
      w.(sessions := w.sessions[handle := s'])
  }

  /** The body or a before-commit hook has ended: the next hook of the live array, or
      the end of the callback. */
  ghost function StepCallback(env: Environment, c: Config, job: Job, next: nat, outcome: Outcome): Config {
    var hooks := HooksAt(c.world, job.handle, BeforeCommit);
    if outcome.Ok? && next < |hooks|
    then Pushing(Performing(Noting(c, Fired(job.handle, BeforeCommit, next)), hooks[next]),
                 CallbackFrame(job, next + 1))
    else StepSettle(env, c.(world := Suspended(c.world, job.options.dataSource)), job, outcome)
  }

  /** COMMIT or ROLLBACK, with the slot removed. */
  ghost function StepSettle(env: Environment, c: Config, job: Job, outcome: Outcome): Config {
    var w, d := c.world, job.options.dataSource;
    if outcome.Fail? && ShouldRollback(outcome.error, job.options)
    then Settled(c, RolledBack(job.handle, d), job, AfterRollback, outcome)
    else
      match env.signal(w.clock)
      case Proceed =>
        var rows := if job.handle < |w.sessions| then w.sessions[job.handle].rows else [];
        Settled(Answered(c), Committed(job.handle, d, rows), job, AfterCommit, outcome)
      case Fault(classes) =>
        var c' := Answered(c);
        Settled(c'.(world := c'.world.(errors := w.errors + 1)), RolledBack(job.handle, d), job, AfterRollback,
               Fail(Object(Fresh(w.errors), classes)))
  }

  ghost function Settled(c: Config, entry: Entry, job: Job, phase: Phase, outcome: Outcome): Config {
    Pushing(Giving(Noting(c, entry), Ok), AfterFrame(job, phase, 0, outcome))
  }

  /** An after-phase hook has ended, however: the next one, or the end of the attempt. */
  ghost function StepAfter(c: Config, job: Job, phase: Phase, next: nat, outcome: Outcome): Config {
    var hooks := HooksAt(c.world, job.handle, phase);
    if next < |hooks|
    then Pushing(Performing(Noting(c, Fired(job.handle, phase, next)), hooks[next]),
                 AfterFrame(job, phase, next + 1, outcome))
    else
      var marks := if phase.AfterRollback? && outcome.Fail? && outcome.error.Object? then {outcome.error.id} else {};
      c.(world := c.world.(marked := c.world.marked + marks),
         store := if job.outermost then None else c.store,
         control := Decide(job.left, job.options, job.body, outcome))
  }

  // A chain alone.

  ghost function SoloStep(env: Environment, c: Config): Config {
    Step(env, c.world.marked, c)
  }

  ghost function Solo(env: Environment, c: Config, n: nat): Config {
    if n == 0 then c else SoloStep(env, Solo(env, c, n - 1))
  }

  function Initially(p: Program): Config {
    Config(World([], map[], [], [], 0, 0, 0, {}, []), None, 0, Perform(p), [])
  }
}
