/** Where in a program something happens, and what of it reaches the transactions
    around: through joined calls, savepoints, catches, hooks and transactions of
    other dataSources. */
module Places {
  import opened Wrappers
  import opened Programs
  import opened Effects
  import opened Orders
  import opened Reference
  import opened ReferenceLaws
  import opened EngineLaws

  /** A program with one hole. `InHook` and `InAfterHook` put the hole in hook `index`,
      a before-commit or an after-phase one, of a transaction that a run of `body`
      starts; `attempt` is the one of a run that starts transactions. */
  datatype Place =
    | Here
    | InFirst(place: Place, second: Program)
    | InSecond(first: Program, place: Place)
    | InBody(place: Place, handler: Program, rethrow: bool)
    | InHandler(body: Program, place: Place, rethrow: bool)
    | InNormally(place: Place, otherwise: Program)
    | InOtherwise(normally: Program, place: Place)
    | InRun(options: Options, attempt: nat, place: Place)
    | InHook(options: Options, body: Program, attempt: nat, index: nat, place: Place)
    | InAfterHook(options: Options, body: Program, attempt: nat, index: nat, place: Place)

  function Fill(c: Place, p: Program): Program {
    match c
    case Here => p
    case InFirst(c', second) => Then(Fill(c', p), second)
    case InSecond(first, c') => Then(first, Fill(c', p))
    case InBody(c', handler, rethrow) => Catch(Fill(c', p), handler, rethrow)
    case InHandler(body, c', rethrow) => Catch(body, Fill(c', p), rethrow)
    case InNormally(c', otherwise) => Choose(Fill(c', p), otherwise)
    case InOtherwise(normally, c') => Choose(normally, Fill(c', p))
    case InRun(o, _, c') => Run(o, Fill(c', p))
    case InHook(o, body, _, _, _) => Run(o, body)
    case InAfterHook(o, body, _, _, _) => Run(o, body)
  }

  /** The scope of a callback whose BEGIN has worked. */
  function Begun(s: Scope, d: DataSource): Scope {
    s.(active := s.active + [d], clock := s.clock + 1, handles := s.handles + 1)
  }

  /** Every before-commit hook the callback of a transaction ever has. */
  function CallbackHooks(d: DataSource, body: Program, handle: nat, env: Environment, s: Scope): seq<Program> {
    Hooks(BodyAndHooks(d, body, handle, env, s).effects, d, BeforeCommit)
  }

  /** The scope in which hook `index` of a callback runs, if it does. */
  function HookScope(d: DataSource, body: Program, handle: nat, index: nat, env: Environment, s: Scope): Option<Scope> {
    var r, hooks := Eval(body, env, s), CallbackHooks(d, body, handle, env, s);
    if r.outcome.Fail? || |hooks| <= index then None
    else
      var before := Straight(hooks[..index], 0, handle, env, r.scope);
      if before.outcome.Fail? then None else Some(before.scope)
  }

  /** How a run treats its body. */
  datatype Treatment = Joins | Suspends | Starts(from: Scope) | Refuses

  function TreatmentOf(o: Options, env: Environment, s: Scope): Treatment {
    var d := o.dataSource;
    if env.misses(d).Some? then Refuses
    else
      match o.propagation
      case REQUIRED => if d in s.active then Joins else Starts(s)
      case REQUIRES_NEW => Starts(Suspend(s, d))
      case NESTED => if d !in s.active then Starts(s) else if d in env.savepoints then Joins else Refuses
      case SUPPORTS => Joins
      case NOT_SUPPORTED => if d in s.active then Suspends else Joins
      case NEVER => if d in s.active then Refuses else Joins
      case MANDATORY => if d in s.active then Joins else Refuses
  }

  /** The scope in which attempt `attempt` of a run starts, if it is made and begins. */
  ghost function AttemptFrom(attempt: nat, k: nat, o: Options, body: Program, env: Environment, s: Scope)
    : Option<Scope>
    requires 1 <= k
  {
    if attempt == 0 then if env.signal(s.clock).Proceed? then Some(s) else None
    else
      var r := StartNew(o, body, env, s).result;
      if TriesAgain(k, o, r) then AttemptFrom(attempt - 1, k - 1, o, body, env, r.scope) else None
  }

  ghost function AttemptAt(attempt: nat, o: Options, body: Program, env: Environment, s: Scope): Option<Scope> {
    if ValidRetry(o.retry) then AttemptFrom(attempt, Attempts(o.retry), o, body, env, s) else None
  }

  /** The scope in which the after-phase hooks of a callback start. */
  function EndScope(o: Options, inside: Result, env: Environment): Scope {
    var closed := Suspend(inside.scope, o.dataSource);
    if !AsksForCommit(inside, o) then closed
    else if env.signal(closed.clock).Proceed? then closed.(clock := closed.clock + 1)
    else closed.(clock := closed.clock + 1, errors := closed.errors + 1)
  }

  /** The after-phase hooks that an attempt runs. */
  function EndHooks(a: Attempt, d: DataSource): seq<Program> {
    Hooks(a.inside.effects, d, PhaseOf(a.verdict))
  }

  /** The scope in which the hole is filled, if it is reached with the transaction on
      `d` that is visible in `s` still visible. */
  ghost function At(c: Place, p: Program, env: Environment, s: Scope, d: DataSource): Option<Scope>
    decreases c, 0
  {
    match c
    case Here => if d in s.active then Some(s) else None
    case InFirst(c', _) => At(c', p, env, s, d)
    case InSecond(first, c') =>
      var r := Eval(first, env, s);
      if r.outcome.Ok? then At(c', p, env, r.scope, d) else None
    case InBody(c', _, _) => At(c', p, env, s, d)
    case InHandler(body, c', _) =>
      var r := Eval(body, env, s);
      if r.outcome.Fail? then At(c', p, env, r.scope, d) else None
    case InNormally(c', _) =>
      if env.signal(s.clock).Proceed? then At(c', p, env, s.(clock := s.clock + 1), d) else None
    case InOtherwise(_, c') =>
      if env.signal(s.clock).Fault? then At(c', p, env, s.(clock := s.clock + 1), d) else None
    case InRun(o, attempt, c') =>
      (match TreatmentOf(o, env, s)
       case Joins => At(c', p, env, s, d)
       case Suspends => if o.dataSource == d then None else At(c', p, env, Suspend(s, o.dataSource), d)
       case Starts(from) =>
         var scope := AttemptAt(attempt, o, Fill(c', p), env, from);
         if o.dataSource == d || scope.None? then None
         else At(c', p, env, Begun(scope.value, o.dataSource), d)
       case Refuses => None)
    case InHook(o, body, attempt, index, c') =>
      (match TreatmentOf(o, env, s)
       case Starts(from) =>
         var x, scope := o.dataSource, AttemptAt(attempt, o, body, env, from);
         if x == d || scope.None? then None
         else AtHook(index, c', p, x, body, scope.value.handles, env, Begun(scope.value, x), d)
       case _ => None)
    case InAfterHook(o, body, attempt, index, c') =>
      (match TreatmentOf(o, env, s)
       case Starts(from) =>
         var scope := AttemptAt(attempt, o, body, env, from);
         if o.dataSource == d || scope.None? then None
         else AtAfterHook(index, c', p, o, body, env, scope.value, d)
       case _ => None)
  }

  /** The same, with the hole in hook `index` of the callback of a transaction on `x`. */
  ghost function AtHook(index: nat, c: Place, p: Program, x: DataSource, body: Program, handle: nat, env: Environment,
                        s: Scope, d: DataSource): Option<Scope>
    decreases c, 1
  {
    var scope := HookScope(x, body, handle, index, env, s);
    if scope.Some? && CallbackHooks(x, body, handle, env, s)[index] == Fill(c, p)
    then At(c, p, env, scope.value, d) else None
  }

  /** The scope in which after-phase hook `index` of an attempt runs, if it has one. */
  function AfterHookScope(index: nat, o: Options, body: Program, env: Environment, s: Scope): Option<Scope> {
    var a := StartNew(o, body, env, s);
    var hooks, phase := EndHooks(a, o.dataSource), PhaseOf(a.verdict);
    if |hooks| <= index then None
    else Some(AfterHooks(hooks[..index], phase, 0, s.handles, env, EndScope(o, a.inside, env)).scope)
  }

  ghost function AtAfterHook(index: nat, c: Place, p: Program, o: Options, body: Program, env: Environment, s: Scope,
                             d: DataSource): Option<Scope>
    decreases c, 1
  {
    var scope := AfterHookScope(index, o, body, env, s);
    if scope.Some? && EndHooks(StartNew(o, body, env, s), o.dataSource)[index] == Fill(c, p)
    then At(c, p, env, scope.value, d) else None
  }

  // What reaches the transaction.

  /** `block` is a contiguous part of `hooks`. */
  ghost predicate Contains(hooks: seq<Program>, block: seq<Program>) {
    exists before, after :: hooks == before + block + after
  }

  lemma ContainsItself(block: seq<Program>)
    ensures Contains(block, block)
  {
    assert block == [] + block + [];
  }

  lemma ContainsMore(hooks: seq<Program>, block: seq<Program>, front: seq<Program>, back: seq<Program>)
    requires Contains(hooks, block)
    ensures Contains(front + hooks + back, block)
  {
    var before, after :| hooks == before + block + after;
    assert front + hooks + back == (front + before) + block + (after + back);
  }

  /** The effects push `block` on list `phase` of the transaction on `d`. */
  ghost predicate Carries(effects: seq<Effect>, d: DataSource, phase: Phase, block: seq<Program>) {
    Contains(Hooks(effects, d, phase), block)
  }

  lemma CarriesInSequence(first: seq<Effect>, second: seq<Effect>, d: DataSource, phase: Phase, block: seq<Program>)
    requires Carries(first, d, phase, block) || Carries(second, d, phase, block)
    ensures Carries(first + second, d, phase, block)
  {
    HooksAppend(first, second, d, phase);
    var a, b := Hooks(first, d, phase), Hooks(second, d, phase);
    if Carries(first, d, phase, block) {
      ContainsMore(a, block, [], b);
      assert [] + a + b == a + b;
    } else {
      ContainsMore(b, block, a, []);
      assert a + b + [] == a + b;
    }
  }

  /** Whatever the filled hole pushes on the transaction on `d` is pushed on it by the
      whole program. */
  lemma {:induction false} PlacePushes(c: Place, p: Program, env: Environment, s: Scope, d: DataSource, phase: Phase,
                                       block: seq<Program>)
    requires At(c, p, env, s, d).Some?
    requires Carries(Eval(p, env, At(c, p, env, s, d).value).effects, d, phase, block)
    ensures Carries(Eval(Fill(c, p), env, s).effects, d, phase, block)
    decreases c, 0
  {
    hide Carries, EvalRun, TreatmentOf, Begun, AttemptAt, AfterHookScope;
    match c
    case Here =>
    case InFirst(c', second) =>
      PlacePushes(c', p, env, s, d, phase, block);
      var r := Eval(Fill(c', p), env, s);
      if r.outcome.Ok? {
        CarriesInSequence(r.effects, Eval(second, env, r.scope).effects, d, phase, block);
      }
    case InSecond(first, c') =>
      var r := Eval(first, env, s);
      PlacePushes(c', p, env, r.scope, d, phase, block);
      CarriesInSequence(r.effects, Eval(Fill(c', p), env, r.scope).effects, d, phase, block);
    case InBody(c', handler, _) =>
      PlacePushes(c', p, env, s, d, phase, block);
      var r := Eval(Fill(c', p), env, s);
      if r.outcome.Fail? {
        CarriesInSequence(r.effects, Eval(handler, env, r.scope).effects, d, phase, block);
      }
    case InHandler(body, c', _) =>
      var r := Eval(body, env, s);
      PlacePushes(c', p, env, r.scope, d, phase, block);
      CarriesInSequence(r.effects, Eval(Fill(c', p), env, r.scope).effects, d, phase, block);
    case InNormally(c', _) =>
      PlacePushes(c', p, env, s.(clock := s.clock + 1), d, phase, block);
    case InOtherwise(_, c') =>
      PlacePushes(c', p, env, s.(clock := s.clock + 1), d, phase, block);
    case InRun(o, attempt, c') =>
      PlaceInRunPushes(o, attempt, c', p, env, s, d, phase, block);
    case InHook(o, body, attempt, index, c') =>
      PlaceInHookPushes(o, body, attempt, index, c', p, env, s, d, phase, block);
    case InAfterHook(o, body, attempt, index, c') =>
      PlaceInAfterHookPushes(o, body, attempt, index, c', p, env, s, d, phase, block);
  }

  lemma {:induction false} PlaceInRunPushes(o: Options, attempt: nat, c: Place, p: Program, env: Environment,
                                            s: Scope, d: DataSource, phase: Phase, block: seq<Program>)
    requires var whole := InRun(o, attempt, c);
             && At(whole, p, env, s, d).Some?
             && Carries(Eval(p, env, At(whole, p, env, s, d).value).effects, d, phase, block)
    ensures Carries(Eval(Run(o, Fill(c, p)), env, s).effects, d, phase, block)
    decreases c, 2
  {
    hide Carries, Eval, EvalRun, TreatmentOf, Begun, AttemptAt, StartNew;
    var body := Fill(c, p);
    match TreatmentOf(o, env, s)
    case Joins =>
      PlacePushes(c, p, env, s, d, phase, block);
      JoinedPushes(o, body, env, s, d, phase, block);
    case Suspends =>
      PlacePushes(c, p, env, Suspend(s, o.dataSource), d, phase, block);
      SuspendedPushes(o, body, env, s, d, phase, block);
    case Starts(from) =>
      var scope := AttemptAt(attempt, o, body, env, from).value;
      var begun := Begun(scope, o.dataSource);
      PlacePushes(c, p, env, begun, d, phase, block);
      BodyPushes(o.dataSource, body, scope.handles, env, begun, d, phase, block);
      AttemptBegins(attempt, o, body, env, from);
      CallbackPushes(o, body, env, scope, d, phase, block);
      StartedPushes(attempt, o, body, env, s, from, d, phase, block);
  }

  lemma {:induction false} PlaceInHookPushes(o: Options, body: Program, attempt: nat, index: nat, c: Place,
                                             p: Program, env: Environment, s: Scope, d: DataSource, phase: Phase,
                                             block: seq<Program>)
    requires var whole := InHook(o, body, attempt, index, c);
             && At(whole, p, env, s, d).Some?
             && Carries(Eval(p, env, At(whole, p, env, s, d).value).effects, d, phase, block)
    ensures Carries(Eval(Run(o, body), env, s).effects, d, phase, block)
    decreases c, 2
  {
    hide Carries, Eval, EvalRun, TreatmentOf, Begun, AttemptAt, StartNew;
    var from := TreatmentOf(o, env, s).from;
    var scope := AttemptAt(attempt, o, body, env, from).value;
    HookPushes(index, c, p, o.dataSource, body, scope.handles, env, Begun(scope, o.dataSource), d, phase, block);
    AttemptBegins(attempt, o, body, env, from);
    CallbackPushes(o, body, env, scope, d, phase, block);
    StartedPushes(attempt, o, body, env, s, from, d, phase, block);
  }

  lemma {:induction false} PlaceInAfterHookPushes(o: Options, body: Program, attempt: nat, index: nat, c: Place,
                                                  p: Program, env: Environment, s: Scope, d: DataSource, phase: Phase,
                                                  block: seq<Program>)
    requires var whole := InAfterHook(o, body, attempt, index, c);
             && At(whole, p, env, s, d).Some?
             && Carries(Eval(p, env, At(whole, p, env, s, d).value).effects, d, phase, block)
    ensures Carries(Eval(Run(o, body), env, s).effects, d, phase, block)
    decreases c, 2
  {
    hide Carries, Eval, EvalRun, TreatmentOf, Begun, AttemptAt, AfterHookScope, EndHooks;
    var from := TreatmentOf(o, env, s).from;
    var scope := AttemptAt(attempt, o, body, env, from).value;
    var at := AfterHookScope(index, o, body, env, scope).value;
    PlacePushes(c, p, env, at, d, phase, block);
    AttemptBegins(attempt, o, body, env, from);
    AfterHookPushes(index, o, body, env, scope, d, phase, block);
    StartedPushes(attempt, o, body, env, s, from, d, phase, block);
  }

  lemma {:induction false} JoinedPushes(o: Options, body: Program, env: Environment, s: Scope, d: DataSource,
                                        phase: Phase, block: seq<Program>)
    requires TreatmentOf(o, env, s).Joins? && Carries(Eval(body, env, s).effects, d, phase, block)
    ensures Carries(Eval(Run(o, body), env, s).effects, d, phase, block)
  {
    assert Eval(Run(o, body), env, s) == EvalRun(o, body, env, s);
    if o.propagation.NESTED? {
      WithoutRowsKeepsOthers(Eval(body, env, s).effects, o.dataSource, d, phase);
      assert EvalRun(o, body, env, s) == Savepoint(o, body, env, s);
    } else {
      assert EvalRun(o, body, env, s) == Eval(body, env, s);
    }
  }

  lemma {:induction false} SuspendedPushes(o: Options, body: Program, env: Environment, s: Scope, d: DataSource,
                                           phase: Phase, block: seq<Program>)
    requires TreatmentOf(o, env, s).Suspends?
    requires Carries(Eval(body, env, Suspend(s, o.dataSource)).effects, d, phase, block)
    ensures Carries(Eval(Run(o, body), env, s).effects, d, phase, block)
  {
    assert Eval(Run(o, body), env, s) == EvalRun(o, body, env, s);
  }

  lemma {:induction false} BodyPushes(x: DataSource, body: Program, handle: nat, env: Environment, s: Scope,
                                      d: DataSource, phase: Phase, block: seq<Program>)
    requires Carries(Eval(body, env, s).effects, d, phase, block)
    ensures Carries(BodyAndHooks(x, body, handle, env, s).effects, d, phase, block)
  {
    hide Carries;
    var r := Eval(body, env, s);
    if r.outcome.Ok? {
      var r' := BeforeCommitLoop(Hooks(r.effects, x, BeforeCommit), 0, handle, x, env, r.scope);
      CarriesInSequence(r.effects, r'.effects, d, phase, block);
    }
  }

  /** A before-commit hook pushes on its own transaction, or on another. */
  lemma {:induction false} HookPushes(index: nat, c: Place, p: Program, x: DataSource, body: Program, handle: nat,
                                      env: Environment, s: Scope, d: DataSource, phase: Phase, block: seq<Program>)
    requires AtHook(index, c, p, x, body, handle, env, s, d).Some?
    requires Carries(Eval(p, env, AtHook(index, c, p, x, body, handle, env, s, d).value).effects, d, phase, block)
    ensures Carries(BodyAndHooks(x, body, handle, env, s).effects, d, phase, block)
    decreases c, 1
  {
    hide Carries;
    var r, hooks := Eval(body, env, s), CallbackHooks(x, body, handle, env, s);
    PlacePushes(c, p, env, HookScope(x, body, handle, index, env, s).value, d, phase, block);
    CallbackRunsEveryHook(x, body, handle, env, s);
    StraightPushes(hooks, index, 0, handle, env, r.scope, d, phase, block);
    CarriesInSequence(r.effects, Straight(hooks, 0, handle, env, r.scope).effects, d, phase, block);
  }

  /** What hook `i` of a straight run pushes, if it is reached. */
  lemma {:induction false} StraightPushes(hooks: seq<Program>, i: nat, index: nat, handle: nat, env: Environment,
                                          s: Scope, d: DataSource, phase: Phase, block: seq<Program>)
    requires i < |hooks| && Straight(hooks[..i], index, handle, env, s).outcome.Ok?
    requires Carries(Eval(hooks[i], env, Straight(hooks[..i], index, handle, env, s).scope).effects, d, phase, block)
    ensures Carries(Straight(hooks, index, handle, env, s).effects, d, phase, block)
    decreases i
  {
    hide Carries;
    var r := FireHook(hooks[0], BeforeCommit, index, handle, env, s);
    if i == 0 {
      if r.outcome.Ok? {
        CarriesInSequence(r.effects, Straight(hooks[1..], index + 1, handle, env, r.scope).effects, d, phase, block);
      }
    } else {
      assert hooks[..i][1..] == hooks[1..][..i - 1] && hooks[1..][i - 1] == hooks[i];
      StraightPushes(hooks[1..], i - 1, index + 1, handle, env, r.scope, d, phase, block);
      CarriesInSequence(r.effects, Straight(hooks[1..], index + 1, handle, env, r.scope).effects, d, phase, block);
    }
  }

  /** What the callback of a transaction on another dataSource pushes on `d` stays,
      whatever becomes of that transaction. */
  lemma {:induction false} CallbackPushes(o: Options, body: Program, env: Environment, s: Scope, d: DataSource,
                                          phase: Phase, block: seq<Program>)
    requires o.dataSource != d && env.signal(s.clock).Proceed?
    requires Carries(BodyAndHooks(o.dataSource, body, s.handles, env, Begun(s, o.dataSource)).effects, d, phase, block)
    ensures Carries(StartNew(o, body, env, s).result.effects, d, phase, block)
  {
    hide Carries, Settle;
    var x, inside := o.dataSource, Inside(o.dataSource, body, env, s.(clock := s.clock + 1));
    assert inside.effects == BodyAndHooks(x, body, s.handles, env, Begun(s, x)).effects;
    WithoutStillCarries(inside.effects, x, d, phase, block);
    var a := Settle(o, body, inside, env, s.handles);
    SettleEffects(o, body, inside, env, s.handles);
    CarriesInSequence(Without(inside.effects, x), a.hooks.effects, d, phase, block);
  }

  lemma {:induction false} AfterHookPushes(index: nat, o: Options, body: Program, env: Environment, s: Scope,
                                           d: DataSource, phase: Phase, block: seq<Program>)
    requires env.signal(s.clock).Proceed? && AfterHookScope(index, o, body, env, s).Some?
    requires var hook := EndHooks(StartNew(o, body, env, s), o.dataSource)[index];
             Carries(Eval(hook, env, AfterHookScope(index, o, body, env, s).value).effects, d, phase, block)
    ensures Carries(StartNew(o, body, env, s).result.effects, d, phase, block)
  {
    hide Carries, Settle, Inside;
    var x, inside := o.dataSource, Inside(o.dataSource, body, env, s.(clock := s.clock + 1));
    var a := Settle(o, body, inside, env, s.handles);
    assert StartNew(o, body, env, s) == a;
    SettleEffects(o, body, inside, env, s.handles);
    AfterPushes(EndHooks(a, x), index, PhaseOf(a.verdict), 0, s.handles, env, EndScope(o, inside, env),
                d, phase, block);
    CarriesInSequence(Without(inside.effects, x), a.hooks.effects, d, phase, block);
  }

  /** What after-phase hook `i` pushes, whatever the earlier ones threw. */
  lemma {:induction false} AfterPushes(hooks: seq<Program>, i: nat, end: Phase, index: nat, handle: nat,
                                       env: Environment, s: Scope, d: DataSource, phase: Phase, block: seq<Program>)
    requires i < |hooks|
    requires Carries(Eval(hooks[i], env, AfterHooks(hooks[..i], end, index, handle, env, s).scope).effects,
                     d, phase, block)
    ensures Carries(AfterHooks(hooks, end, index, handle, env, s).effects, d, phase, block)
    decreases i
  {
    hide Carries;
    var r := FireHook(hooks[0], end, index, handle, env, s);
    if i > 0 {
      assert hooks[..i][1..] == hooks[1..][..i - 1] && hooks[1..][i - 1] == hooks[i];
      AfterPushes(hooks[1..], i - 1, end, index + 1, handle, env, r.scope, d, phase, block);
    }
    CarriesInSequence(r.effects, AfterHooks(hooks[1..], end, index + 1, handle, env, r.scope).effects, d, phase, block);
  }

  lemma {:induction false} AttemptBegins(attempt: nat, o: Options, body: Program, env: Environment, s: Scope)
    requires AttemptAt(attempt, o, body, env, s).Some?
    ensures env.signal(AttemptAt(attempt, o, body, env, s).value.clock).Proceed?
  {
    AttemptFromBegins(attempt, Attempts(o.retry), o, body, env, s);
  }

  lemma {:induction false} AttemptFromBegins(attempt: nat, k: nat, o: Options, body: Program, env: Environment,
                                             s: Scope)
    requires 1 <= k && AttemptFrom(attempt, k, o, body, env, s).Some?
    ensures env.signal(AttemptFrom(attempt, k, o, body, env, s).value.clock).Proceed?
  {
    hide StartNew;
    if attempt > 0 {
      AttemptFromBegins(attempt - 1, k - 1, o, body, env, StartNew(o, body, env, s).result.scope);
    }
  }

  /** What one attempt pushes the run pushes. */
  lemma {:induction false} AttemptPushes(attempt: nat, k: nat, o: Options, body: Program, env: Environment, s: Scope,
                                         d: DataSource, phase: Phase, block: seq<Program>)
    requires 1 <= k && AttemptFrom(attempt, k, o, body, env, s).Some?
    requires var scope := AttemptFrom(attempt, k, o, body, env, s).value;
             Carries(StartNew(o, body, env, scope).result.effects, d, phase, block)
    ensures Carries(AttemptUpTo(k, o, body, env, s).effects, d, phase, block)
    decreases attempt
  {
    hide Carries, StartNew, TriesAgain;
    var r := StartNew(o, body, env, s).result;
    if attempt > 0 {
      AgainIsFail(k, o, r);
      AttemptPushes(attempt - 1, k - 1, o, body, env, r.scope, d, phase, block);
    }
    if TriesAgain(k, o, r) {
      AgainIsFail(k, o, r);
      var rest := Delayed(Wait(k, o, r.outcome.error), AttemptUpTo(k - 1, o, body, env, r.scope));
      CarriesInSequence(r.effects, rest.effects, d, phase, block);
    }
  }

  lemma {:induction false} StartedPushes(attempt: nat, o: Options, body: Program, env: Environment, s: Scope,
                                         from: Scope, d: DataSource, phase: Phase, block: seq<Program>)
    requires TreatmentOf(o, env, s) == Starts(from) && AttemptAt(attempt, o, body, env, from).Some?
    requires var scope := AttemptAt(attempt, o, body, env, from).value;
             Carries(StartNew(o, body, env, scope).result.effects, d, phase, block)
    ensures Carries(Eval(Run(o, body), env, s).effects, d, phase, block)
  {
    hide Carries, StartNew;
    AttemptPushes(attempt, Attempts(o.retry), o, body, env, from, d, phase, block);
    StartIsRun(o, body, env, s, from);
  }

  lemma WithoutStillCarries(effects: seq<Effect>, x: DataSource, d: DataSource, phase: Phase, block: seq<Program>)
    requires x != d && Carries(effects, d, phase, block)
    ensures Carries(Without(effects, x), d, phase, block)
  {
    WithoutKeepsOthers(effects, x, d, phase);
  }

  lemma StartIsRun(o: Options, body: Program, env: Environment, s: Scope, from: Scope)
    requires TreatmentOf(o, env, s) == Starts(from) && ValidRetry(o.retry)
    ensures Eval(Run(o, body), env, s).effects == AttemptUpTo(Attempts(o.retry), o, body, env, from).effects
  {
    var d := o.dataSource;
    if d !in s.active {
      RemoveNothing(s.active, d);
    }
    assert Eval(Run(o, body), env, s) == EvalRun(o, body, env, s);
    assert StartWithRetry(o, body, env, from) == AttemptUpTo(Attempts(o.retry), o, body, env, from);
  }

  lemma RemoveNothing(active: seq<DataSource>, d: DataSource)
    requires d !in active
    ensures Remove(active, d) == active
  {
    if active != [] {
      RemoveNothing(active[1..], d);
    }
  }

  lemma {:induction false} SettleEffects(o: Options, body: Program, inside: Result, env: Environment, h: nat)
    requires OtherHookSize(inside.effects, o.dataSource) < Size(body)
    ensures var a := Settle(o, body, inside, env, h);
            && a.inside == inside && a.result.effects == Without(inside.effects, o.dataSource) + a.hooks.effects
            && a.hooks == AfterHooks(EndHooks(a, o.dataSource), PhaseOf(a.verdict), 0, h, env, EndScope(o, inside, env))
  {
    var d, closed := o.dataSource, Suspend(inside.scope, o.dataSource);
    if AsksForCommit(inside, o) {
      AskCommitEffects(d, body, inside, closed, env, h);
      assert Settle(o, body, inside, env, h) == AskCommit(d, body, inside, closed, env, h);
    } else {
      assert Settle(o, body, inside, env, h) == RollBack(d, body, inside, inside.outcome.error, closed, env, h);
    }
  }

  lemma {:induction false} AskCommitEffects(d: DataSource, body: Program, inside: Result, s: Scope, env: Environment,
                                            h: nat)
    requires OtherHookSize(inside.effects, d) < Size(body)
    ensures var a := AskCommit(d, body, inside, s, env, h);
            && a.inside == inside && a.result.effects == Without(inside.effects, d) + a.hooks.effects
            && a.hooks == AfterHooks(EndHooks(a, d), PhaseOf(a.verdict), 0, h, env,
                                     if env.signal(s.clock).Proceed? then s.(clock := s.clock + 1)
                                     else s.(clock := s.clock + 1, errors := s.errors + 1))
  {
    hide AfterHooks, Without, Hooks, OtherHookSize;
    var asked := s.(clock := s.clock + 1);
    match env.signal(s.clock)
    case Proceed =>
      assert AskCommit(d, body, inside, s, env, h) == Commit(d, body, inside, asked, env, h);
    case Fault(classes) =>
      var failed := Raise(classes, asked);
      assert AskCommit(d, body, inside, s, env, h)
          == RollBack(d, body, inside, failed.outcome.error, failed.scope, env, h);
  }

  // The callback of one transaction.

  /** In the body of the callback, or in one of its before-commit hooks. */
  datatype Spot = BodySpot(place: Place) | HookSpot(index: nat, place: Place)

  /** The scope in which `p` runs at that spot of the callback of a transaction on
      `d`, if it is there and reached with the transaction visible. */
  ghost function AtSpot(spot: Spot, p: Program, d: DataSource, body: Program, handle: nat, env: Environment, s: Scope)
    : Option<Scope>
  {
    match spot
    case BodySpot(c) => if body == Fill(c, p) then At(c, p, env, s, d) else None
    case HookSpot(index, c) => AtHook(index, c, p, d, body, handle, env, s, d)
  }

  lemma {:induction false} SpotPushes(spot: Spot, p: Program, d: DataSource, body: Program, handle: nat,
                                      env: Environment, s: Scope, phase: Phase, block: seq<Program>)
    requires AtSpot(spot, p, d, body, handle, env, s).Some?
    requires Carries(Eval(p, env, AtSpot(spot, p, d, body, handle, env, s).value).effects, d, phase, block)
    ensures Carries(BodyAndHooks(d, body, handle, env, s).effects, d, phase, block)
  {
    hide Carries;
    match spot
    case BodySpot(c) =>
      PlacePushes(c, p, env, s, d, phase, block);
      BodyPushes(d, body, handle, env, s, d, phase, block);
    case HookSpot(index, c) =>
      HookPushes(index, c, p, d, body, handle, env, s, d, phase, block);
  }

  /** The transaction is visible wherever the hole is filled. */
  lemma {:induction false} PlaceSeesTransaction(c: Place, p: Program, env: Environment, s: Scope, d: DataSource)
    requires At(c, p, env, s, d).Some?
    ensures d in At(c, p, env, s, d).value.active
    decreases c
  {
    hide Eval, TreatmentOf, Begun, AttemptAt, HookScope, AfterHookScope, EndHooks;
    match c
    case Here =>
    case InFirst(c', _) => PlaceSeesTransaction(c', p, env, s, d);
    case InSecond(first, c') => PlaceSeesTransaction(c', p, env, Eval(first, env, s).scope, d);
    case InBody(c', _, _) => PlaceSeesTransaction(c', p, env, s, d);
    case InHandler(body, c', _) => PlaceSeesTransaction(c', p, env, Eval(body, env, s).scope, d);
    case InNormally(c', _) => PlaceSeesTransaction(c', p, env, s.(clock := s.clock + 1), d);
    case InOtherwise(_, c') => PlaceSeesTransaction(c', p, env, s.(clock := s.clock + 1), d);
    case InRun(o, attempt, c') =>
      var from := match TreatmentOf(o, env, s)
        case Suspends => Suspend(s, o.dataSource)
        case Starts(from) => Begun(AttemptAt(attempt, o, Fill(c', p), env, from).value, o.dataSource)
        case _ => s;
      PlaceSeesTransaction(c', p, env, from, d);
    case InHook(o, body, attempt, index, c') =>
      var from := AttemptAt(attempt, o, body, env, TreatmentOf(o, env, s).from).value;
      var scope := HookScope(o.dataSource, body, from.handles, index, env, Begun(from, o.dataSource));
      PlaceSeesTransaction(c', p, env, scope.value, d);
    case InAfterHook(o, body, attempt, index, c') =>
      var from := AttemptAt(attempt, o, body, env, TreatmentOf(o, env, s).from).value;
      PlaceSeesTransaction(c', p, env, AfterHookScope(index, o, body, env, from).value, d);
  }

  lemma {:induction false} SpotSeesTransaction(spot: Spot, p: Program, d: DataSource, body: Program, handle: nat,
                                               env: Environment, s: Scope)
    requires AtSpot(spot, p, d, body, handle, env, s).Some?
    ensures d in AtSpot(spot, p, d, body, handle, env, s).value.active
  {
    match spot
    case BodySpot(c) => PlaceSeesTransaction(c, p, env, s, d);
    case HookSpot(index, c) => PlaceSeesTransaction(c, p, env, HookScope(d, body, handle, index, env, s).value, d);
  }
}
