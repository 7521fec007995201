/** The reference semantics: a pure evaluator with a lexical environment. A
    transaction's rows and hooks are returned to whoever encloses it instead of
    being stored in shared, mutable objects. */
module Reference {
  import opened Programs
  import opened Effects
  import opened Orders

  /** `handle` numbers the transactions in the order they begin. */
  datatype Entry =
    | Noted(note: int)
    | Waited(milliseconds: int)
    | Autocommitted(dataSource: DataSource, row: Row)
    | Began(handle: nat, dataSource: DataSource)
    | Fired(handle: nat, phase: Phase, index: nat)
    | Committed(handle: nat, dataSource: DataSource, rows: seq<Row>)
    | RolledBack(handle: nat, dataSource: DataSource)

  /** `active` lists the dataSources with a visible transaction, in the order of
      the active-transaction map; the counters number the world's answers, the
      fresh errors and the transactions so far; `marked` are the errors some
      transaction was rolled back for. */
  datatype Scope = Scope(
    active: seq<DataSource>,
    clock: nat,
    errors: nat,
    handles: nat,
    marked: set<Identity>)

  datatype Result = Result(outcome: Outcome, scope: Scope, effects: seq<Effect>, log: seq<Entry>)

  function Quiet(outcome: Outcome, s: Scope): Result {
    Result(outcome, s, [], [])
  }

  function Raise(classes: set<ErrorClass>, s: Scope): Result {
    Quiet(Fail(Object(Fresh(s.errors), classes)), s.(errors := s.errors + 1))
  }

  /** `second`, run after `first`. */
  function Sequence(first: Result, second: Result): Result {
    Result(second.outcome, second.scope, first.effects + second.effects, first.log + second.log)
  }

  /** `r`, noted in the log as `entry` from its start. */
  function Logged(entry: Entry, r: Result): Result {
    r.(log := [entry] + r.log)
  }

  function Suspend(s: Scope, d: DataSource): Scope {
    s.(active := Remove(s.active, d))
  }

  /** A resumed transaction goes to the end of the map. */
  function Resume(r: Result, d: DataSource): Result {
    r.(scope := r.scope.(active := r.scope.active + [d]))
  }

  function Mark(s: Scope, error: Error): Scope {
    if error.Object? then s.(marked := s.marked + {error.id}) else s
  }

  predicate IsMarked(s: Scope, error: Error) {
    error.Object? && error.id in s.marked
  }

  function Eval(p: Program, env: Environment, s: Scope): (r: Result)
    ensures HookSize(r.effects) < Size(p)
    decreases Size(p), 1
  {
    match p
    case Skip => Quiet(Ok, s)
    case Emit(note) => Result(Ok, s, [], [Noted(note)])
    case Write(d, row) =>
      if d in s.active then Result(Ok, s, [Buffered(d, row)], [])
      else Result(Ok, s, [], [Autocommitted(d, row)])
    case Throw(error) => Quiet(Fail(error), s)
    case ThrowFresh(classes) => Raise(classes, s)
    case Then(first, second) =>
      var r := Eval(first, env, s);
      if r.outcome.Fail? then r
      else
        var r' := Eval(second, env, r.scope);
        HookSizeAppend(r.effects, r'.effects);
        Sequence(r, r')
    case Catch(body, handler, rethrow) =>
      var r := Eval(body, env, s);
      if r.outcome.Ok? then r
      else
        var r' := Eval(handler, env, r.scope);
        HookSizeAppend(r.effects, r'.effects);
        Sequence(r, if r'.outcome.Ok? && rethrow then r'.(outcome := r.outcome) else r')
    case Choose(normally, otherwise) =>
      var s' := s.(clock := s.clock + 1);
      if env.signal(s.clock).Proceed? then Eval(normally, env, s') else Eval(otherwise, env, s')
    case Attach(d, phase, hook) =>
      if d in s.active then Result(Ok, s, [Hooked(d, phase, hook)], []) else Quiet(Ok, s)
    case Register(phase, hook) =>
      if s.active == [] then Raise({ILLEGAL_STATE}, s)
      else Result(Ok, s, [Hooked(s.active[0], phase, hook)], [])
    case Run(o, body) =>
      EvalRun(o, body, env, s)
  }

  function EvalRun(o: Options, body: Program, env: Environment, s: Scope): (r: Result)
    ensures HookSize(r.effects) < Size(Run(o, body))
    decreases Size(Run(o, body)), 0
  {
    var d := o.dataSource;
    if env.misses(d).Some? then Raise({env.misses(d).value}, s) else
    match o.propagation
    case REQUIRED =>
      if d in s.active then Eval(body, env, s) else StartWithRetry(o, body, env, s)
    case REQUIRES_NEW =>
      if d in s.active then Resume(StartWithRetry(o, body, env, Suspend(s, d)), d)
      else StartWithRetry(o, body, env, s)
    case NESTED =>
      if d in s.active then Savepoint(o, body, env, s) else StartWithRetry(o, body, env, s)
    case SUPPORTS =>
      Eval(body, env, s)
    case NOT_SUPPORTED =>
      if d in s.active then Resume(Eval(body, env, Suspend(s, d)), d) else Eval(body, env, s)
    case NEVER =>
      if d in s.active then Raise({ILLEGAL_STATE}, s) else Eval(body, env, s)
    case MANDATORY =>
      if d in s.active then Eval(body, env, s) else Raise({ILLEGAL_STATE}, s)
  }

  /** All or nothing for the rows of its own dataSource. */
  function Savepoint(o: Options, body: Program, env: Environment, s: Scope): (r: Result)
    ensures HookSize(r.effects) < Size(body)
    decreases Size(body), 2
  {
    if o.dataSource !in env.savepoints then Raise({ILLEGAL_STATE}, s)
    else
      var r := Eval(body, env, s);
      WithoutRowsHookSize(r.effects, o.dataSource);
      if r.outcome.Fail? && ShouldRollback(r.outcome.error, o)
      then r.(effects := WithoutRows(r.effects, o.dataSource))
      else r
  }

  function StartWithRetry(o: Options, body: Program, env: Environment, s: Scope): (r: Result)
    ensures HookSize(r.effects) < Budget(Attempts(o.retry), Size(body))
    decreases Budget(Attempts(o.retry), Size(body)), 4
  {
    if ValidRetry(o.retry) then AttemptUpTo(Attempts(o.retry), o, body, env, s)
    else Raise({TYPE_ERROR}, s)
  }

  /** The transaction rolled back, the error is retryable, and attempts remain. */
  predicate TriesAgain(k: nat, o: Options, r: Result) {
    r.outcome.Fail? && k > 1 && IsMarked(r.scope, r.outcome.error) && Retryable(r.outcome.error, o.retry)
  }

  /** The wait after a failed attempt with `k - 1` more to follow. */
  function Wait(k: nat, o: Options, error: Error): int {
    if o.retry.Retry? then o.retry.delay(Attempts(o.retry) - k + 1, error) else 0
  }

  /** `r`, after a wait; a wait that is not positive is none. */
  function Delayed(wait: int, r: Result): Result {
    if wait > 0 then Logged(Waited(wait), r) else r
  }

  function AttemptUpTo(k: nat, o: Options, body: Program, env: Environment, s: Scope): (r: Result)
    requires 1 <= k
    ensures HookSize(r.effects) < Budget(k, Size(body))
    decreases Budget(k, Size(body)), 3
  {
    var r := StartNew(o, body, env, s).result;
    if !TriesAgain(k, o, r) then r
    else
      var r' := Delayed(Wait(k, o, r.outcome.error), AttemptUpTo(k - 1, o, body, env, r.scope));
      HookSizeAppend(r.effects, r'.effects);
      Sequence(r, r')
  }

  datatype Verdict = NotBegun | DidCommit | DidRollBack

  /** One attempt: `inside` is what happened up to the end of the before-commit
      loop, `hooks` the after-phase hooks, `result` the whole attempt. */
  datatype Attempt = Attempt(verdict: Verdict, inside: Result, hooks: Result, result: Result)

  function StartNew(o: Options, body: Program, env: Environment, s: Scope): (a: Attempt)
    ensures HookSize(a.result.effects) < Size(body)
    decreases Size(body), 3
  {
    var begun := s.(clock := s.clock + 1);
    match env.signal(s.clock)
    case Fault(classes) =>
      var r := Raise(classes, begun);
      var r' := r.(scope := Mark(r.scope, r.outcome.error));
      Attempt(NotBegun, r', r', r')
    case Proceed =>
      Settle(o, body, Inside(o.dataSource, body, env, begun), env, s.handles)
  }

  /** The callback of BEGIN: the new transaction is in scope until its end. */
  function Inside(d: DataSource, body: Program, env: Environment, s: Scope): (r: Result)
    ensures OtherHookSize(r.effects, d) < Size(body)
    decreases Size(body), 2, 1
  {
    Logged(Began(s.handles, d),
           BodyAndHooks(d, body, s.handles, env, s.(active := s.active + [d], handles := s.handles + 1)))
  }

  /** The before-commit hooks run only after a body that completes normally. */
  function BodyAndHooks(d: DataSource, body: Program, handle: nat, env: Environment, s: Scope): (r: Result)
    ensures OtherHookSize(r.effects, d) < Size(body)
    decreases Size(body), 2, 0
  {
    var r := Eval(body, env, s);
    HookSizeSplit(r.effects, d);
    if r.outcome.Fail? then r
    else
      var r' := BeforeCommitLoop(Hooks(r.effects, d, BeforeCommit), 0, handle, d, env, r.scope);
      OtherHookSizeAppend(r.effects, r'.effects, d);
      Sequence(r, r')
  }

  /** The hooks not yet run, in push order; a hook may push more at the end. */
  function BeforeCommitLoop(queue: seq<Program>, index: nat, handle: nat, d: DataSource, env: Environment,
                            s: Scope): (r: Result)
    ensures OtherHookSize(r.effects, d) <= QueueSize(queue)
    decreases QueueSize(queue), 3
  {
    if queue == [] then Quiet(Ok, s)
    else
      var r := FireHook(queue[0], BeforeCommit, index, handle, env, s);
      HookSizeSplit(r.effects, d);
      if r.outcome.Fail? then r
      else
        var queue' := queue[1..] + Hooks(r.effects, d, BeforeCommit);
        QueueSizeAppend(queue[1..], Hooks(r.effects, d, BeforeCommit));
        var r' := BeforeCommitLoop(queue', index + 1, handle, d, env, r.scope);
        OtherHookSizeAppend(r.effects, r'.effects, d);
        Sequence(r, r')
  }

  function FireHook(hook: Program, phase: Phase, index: nat, handle: nat, env: Environment, s: Scope): (r: Result)
    ensures HookSize(r.effects) < Size(hook)
    decreases Size(hook), 2
  {
    Logged(Fired(handle, phase, index), Eval(hook, env, s))
  }

  /** COMMIT or ROLLBACK, then the after-phase hooks, with the transaction gone. */
  function Settle(o: Options, body: Program, inside: Result, env: Environment, handle: nat): (a: Attempt)
    requires OtherHookSize(inside.effects, o.dataSource) < Size(body)
    ensures HookSize(a.result.effects) < Size(body)
    decreases Size(body), 0, 1
  {
    var closed := Suspend(inside.scope, o.dataSource);
    if inside.outcome.Fail? && ShouldRollback(inside.outcome.error, o)
    then RollBack(o.dataSource, body, inside, inside.outcome.error, closed, env, handle)
    else AskCommit(o.dataSource, body, inside, closed, env, handle)
  }

  function AskCommit(d: DataSource, body: Program, inside: Result, s: Scope, env: Environment,
                     handle: nat): (a: Attempt)
    requires OtherHookSize(inside.effects, d) < Size(body)
    ensures HookSize(a.result.effects) < Size(body)
    decreases Size(body), 0, 0
  {
    var asked := s.(clock := s.clock + 1);
    match env.signal(s.clock)
    case Fault(classes) =>
      var failed := Raise(classes, asked);
      RollBack(d, body, inside, failed.outcome.error, failed.scope, env, handle)
    case Proceed =>
      Commit(d, body, inside, asked, env, handle)
  }

  function RollBack(d: DataSource, body: Program, inside: Result, error: Error, s: Scope, env: Environment,
                    handle: nat): (a: Attempt)
    requires OtherHookSize(inside.effects, d) < Size(body)
    ensures HookSize(a.result.effects) < Size(body)
    decreases QueueSize(Hooks(inside.effects, d, AfterRollback)), 4
  {
    var hooks := AfterHooks(Hooks(inside.effects, d, AfterRollback), AfterRollback, 0, handle, env, s);
    HookSizeAppend(Without(inside.effects, d), hooks.effects);
    Attempt(DidRollBack, inside, hooks,
      Result(Fail(error), Mark(hooks.scope, error),
        Without(inside.effects, d) + hooks.effects,
        inside.log + [RolledBack(handle, d)] + hooks.log))
  }

  function Commit(d: DataSource, body: Program, inside: Result, s: Scope, env: Environment, handle: nat): (a: Attempt)
    requires OtherHookSize(inside.effects, d) < Size(body)
    ensures HookSize(a.result.effects) < Size(body)
    decreases QueueSize(Hooks(inside.effects, d, AfterCommit)), 4
  {
    var hooks := AfterHooks(Hooks(inside.effects, d, AfterCommit), AfterCommit, 0, handle, env, s);
    HookSizeAppend(Without(inside.effects, d), hooks.effects);
    Attempt(DidCommit, inside, hooks,
      Result(inside.outcome, hooks.scope,
        Without(inside.effects, d) + hooks.effects,
        inside.log + [Committed(handle, d, Rows(inside.effects, d))] + hooks.log))
  }

  /** After-phase hooks all run, whatever the earlier ones threw. */
  function AfterHooks(hooks: seq<Program>, phase: Phase, index: nat, handle: nat, env: Environment,
                      s: Scope): (r: Result)
    ensures HookSize(r.effects) <= QueueSize(hooks)
    decreases QueueSize(hooks), 3
  {
    if hooks == [] then Quiet(Ok, s)
    else
      var r := FireHook(hooks[0], phase, index, handle, env, s);
      var r' := AfterHooks(hooks[1..], phase, index + 1, handle, env, r.scope);
      HookSizeAppend(r.effects, r'.effects);
      Sequence(r, r')
  }
}
