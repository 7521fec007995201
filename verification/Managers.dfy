/** The transaction manager over its mutable state, proved against the reference
    semantics: every method's effect on the state is the reference result. */
module Managers {
  import opened Wrappers
  import opened Programs
  import opened Effects
  import opened Orders
  import opened Reference
  import opened ReferenceLaws
  import opened Keys
  import opened Contexts
  import opened Databases
  import opened Worlds
  import opened WorldSteps
  import opened WorldParts

  /** `r` has happened of `whole`, and up to `k` attempts are left. */
  ghost predicate LeftOf(whole: Result, r: Result, k: int, o: Options, body: Program, env: Environment) {
    1 <= k && whole == Sequence(r, AttemptUpTo(k, o, body, env, r.scope))
  }

  lemma AllIsLeft(k: nat, o: Options, body: Program, env: Environment, s: Scope)
    requires 1 <= k
    ensures LeftOf(AttemptUpTo(k, o, body, env, s), Quiet(Ok, s), k, o, body, env)
  {
    SequenceOfQuiet(AttemptUpTo(k, o, body, env, s), s, Ok);
  }

  /** One more attempt after `r`: the last one, or one with a wait and attempts to follow. */
  lemma AttemptUpToStep(whole: Result, r: Result, r': Result, k: nat, o: Options, body: Program, env: Environment)
    requires LeftOf(whole, r, k, o, body, env) && r' == Reference.StartNew(o, body, env, r.scope).result
    ensures Sequence(r, r').outcome == r'.outcome && Sequence(r, r').scope == r'.scope
    ensures if !TriesAgain(k, o, r') then whole == Sequence(r, r')
            else
              var waited := Delayed(Wait(k, o, r'.outcome.error), Quiet(r'.outcome, r'.scope));
              && Sequence(Sequence(r, r'), waited).scope == r'.scope
              && LeftOf(whole, Sequence(Sequence(r, r'), waited), k - 1, o, body, env)
  {
    hide Reference.StartNew, TriesAgain, Wait;
    if TriesAgain(k, o, r') {
      AgainIsFail(k, o, r');
      var wait, rest := Wait(k, o, r'.outcome.error), AttemptUpTo(k - 1, o, body, env, r'.scope);
      var waited := Delayed(wait, Quiet(r'.outcome, r'.scope));
      assert [] + rest.effects == rest.effects && [] + rest.log == rest.log;
      assert Sequence(waited, rest) == Delayed(wait, rest);
      SequenceIsAssociative(r, r', Delayed(wait, rest));
      SequenceIsAssociative(Sequence(r, r'), waited, rest);
    }
  }

  /** Transaction `h`, and no other, has the hook at the end of its list of that phase. */
  ghost predicate HookJoined(before: seq<HookLists>, after: seq<HookLists>, h: nat, phase: Phase, hook: Program) {
    && |after| == |before| && h < |before|
    && (forall g | 0 <= g < |before| && g != h :: after[g] == before[g])
    && after[h].dataSource == before[h].dataSource
    && after[h].beforeCommit == before[h].beforeCommit + (if phase.BeforeCommit? then [hook] else [])
    && after[h].afterCommit == before[h].afterCommit + (if phase.AfterCommit? then [hook] else [])
    && after[h].afterRollback == before[h].afterRollback + (if phase.AfterRollback? then [hook] else [])
  }

  class TransactionManager {
    const env: Environment
    const context: TransactionContext
    const database: Database
    /** The hook arrays of every active transaction ever created, by handle. */
    var lists: seq<HookLists>
    /** The errors some transaction was rolled back for; never cleared. */
    var rolledBack: set<Identity>
    var errors: nat
    var correlationIds: nat

    constructor (env: Environment)
      requires forall d :: COLON !in env.adapterOf(d)
      ensures Valid() && this.env == env && context.store == None
      ensures W() == World([], map[], [], [], 0, 0, 0, {}, [])
      ensures fresh(context) && fresh(database)
    {
      this.env := env;
      context := new TransactionContext(env.adapterOf);
      database := new Database(env.signal);
      lists, rolledBack, errors, correlationIds := [], {}, 0, 0;
    }

    ghost function W(): World
      reads this, context, database
    {
      World(context.order, context.entries, lists, database.sessions, database.names, database.clock, errors,
            rolledBack, database.log)
    }

    ghost function S(): Scope
      reads this, context, database
    {
      ScopeOf(W())
    }

    ghost predicate Valid()
      reads this, context, database
    {
      && Consistent(W())
      && context.Valid() && context.adapterOf == env.adapterOf
      && database.signal == env.signal
      && forall d | d in context.entries ::
           context.store.Some? && context.entries[d].correlationId == context.store.value.correlationId
    }

    /** No transaction, hook or row has changed since `before`. */
    ghost predicate SameTransactions(before: World)
      reads this, context, database
    {
      context.entries == before.entries && lists == before.lists && database.sessions == before.sessions
    }

    /** The scope and its correlation id are those of the caller. */
    ghost predicate SameStore(before: Option<Store>)
      reads context
    {
      && context.store.Some? == before.Some?
      && (before.Some? ==> context.store.value.correlationId == before.value.correlationId)
    }

    function ContextKey(d: DataSource): string {
      KeyFor(env.adapterOf(d), d.name)
    }

    method NewError(classes: set<ErrorClass>) returns (e: Error)
      modifies this`errors
      ensures e == Object(Fresh(old(errors)), classes) && errors == old(errors) + 1
    {
      e := Object(Fresh(errors), classes);
      errors := errors + 1;
    }

    method Raising(classes: set<ErrorClass>) returns (out: Outcome)
      requires Valid()
      modifies this`errors
      ensures Valid()
      ensures out == Raise(classes, old(S())).outcome
      ensures Simulates(old(W()), W(), Raise(classes, old(S())))
    {
      ghost var w := W();
      var e := NewError(classes);
      out := Fail(e);
      assert w.log + [] == w.log;
      SimulatesIdle(w, W(), out, []);
    }

    /** The driver refuses a statement with a new error. */
    method Refuse(classes: set<ErrorClass>) returns (e: Error)
      requires Valid()
      modifies this`errors
      ensures Valid()
      ensures e == Object(Fresh(old(errors)), classes) && S() == old(S()).(errors := old(S()).errors + 1)
      ensures SameTransactions(old(W()))
      ensures Simulates(old(W()), W(), Quiet(Ok, S()))
    {
      ghost var w := W();
      e := NewError(classes);
      assert w.log + [] == w.log;
      SimulatesIdle(w, W(), Ok, []);
    }

    // Statements.

    method WriteRow(d: DataSource, row: Row)
      requires Valid()
      modifies database
      ensures Valid()
      ensures Simulates(old(W()), W(), Eval(Write(d, row), env, old(S())))
      ensures d !in context.entries ==>
                && database.log == old(database.log) + [Autocommitted(d, row)]
                && database.sessions == old(database.sessions)
      ensures d in context.entries ==>
                && database.log == old(database.log) && |database.sessions| == |old(database.sessions)|
                && forall h | 0 <= h < |database.sessions| ::
                     database.sessions[h].rows
                     == old(database.sessions[h].rows) + if h == context.entries[d].handle then [row] else []
    {
      ghost var w := W();
      var tx := context.GetActiveTransactionByDataSource(d);
      if tx.Some? {
        SimulatesInsert(w, d, row);
        database.Insert(tx.value.handle, row);
      } else {
        database.Autocommit(d, row);
        SimulatesIdle(w, W(), Ok, [Autocommitted(d, row)]);
      }
    }

    method PushHook(handle: nat, phase: Phase, hook: Program)
      requires handle < |lists|
      modifies this`lists
      ensures lists == old(lists)[handle := Push(old(lists)[handle], phase, hook)]
    {
      lists := lists[handle := Push(lists[handle], phase, hook)];
    }

    method AttachHook(d: DataSource, phase: Phase, hook: Program)
      requires Valid()
      modifies this`lists
      ensures Valid()
      ensures Simulates(old(W()), W(), Eval(Attach(d, phase, hook), env, old(S())))
      ensures d !in context.entries ==> lists == old(lists)
      ensures d in context.entries ==> HookJoined(old(lists), lists, context.entries[d].handle, phase, hook)
    {
      ghost var w := W();
      SimulatesNothing(w, Ok);
      var tx := context.GetActiveTransactionByDataSource(d);
      if tx.Some? {
        SimulatesPush(w, d, phase, hook);
        PushHook(tx.value.handle, phase, hook);
      }
    }

    method RegisterHook(phase: Phase, hook: Program) returns (out: Outcome)
      requires Valid()
      modifies this`lists, this`errors
      ensures Valid()
      ensures out == Eval(Register(phase, hook), env, old(S())).outcome
      ensures Simulates(old(W()), W(), Eval(Register(phase, hook), env, old(S())))
      ensures context.order == [] ==>
                lists == old(lists) && out == Fail(Object(Fresh(old(errors)), {"IllegalTransactionStateError"}))
      ensures context.order != [] ==>
                && out == Ok && context.order[0] in context.entries
                && HookJoined(old(lists), lists, context.entries[context.order[0]].handle, phase, hook)
    {
      ghost var w := W();
      var first := context.GetFirst();
      if first.None? {
        out := Raising({ILLEGAL_STATE});
      } else {
        assert context.order[0] in context.order;
        SimulatesPush(w, context.order[0], phase, hook);
        PushHook(first.value.handle, phase, hook);
        out := Ok;
      }
    }

    method Exec(p: Program) returns (out: Outcome)
      requires Valid()
      modifies this, context, database
      ensures Valid() && SameStore(old(context.store))
      ensures out == Eval(p, env, old(S())).outcome
      ensures Simulates(old(W()), W(), Eval(p, env, old(S())))
      decreases Size(p), 1
    {
      ghost var w := W();
      out := Ok;
      match p {
        case Skip =>
          SimulatesNothing(w, Ok);
        case Emit(note) =>
          database.Observe(Noted(note));
          SimulatesIdle(w, W(), Ok, [Noted(note)]);
        case Write(d, row) =>
          WriteRow(d, row);
        case Throw(error) =>
          SimulatesNothing(w, Fail(error));
          out := Fail(error);
        case ThrowFresh(classes) =>
          out := Raising(classes);
        case Then(first, second) =>
          out := ExecThen(first, second);
        case Catch(body, handler, rethrow) =>
          out := ExecCatch(body, handler, rethrow);
        case Choose(normally, otherwise) =>
          out := ExecChoose(normally, otherwise);
        case Attach(d, phase, hook) =>
          AttachHook(d, phase, hook);
        case Register(phase, hook) =>
          out := RegisterHook(phase, hook);
        case Run(o, body) =>
          out := RunIn(o, body);
      }
    }

    method ExecThen(first: Program, second: Program) returns (out: Outcome)
      requires Valid()
      modifies this, context, database
      ensures Valid() && SameStore(old(context.store))
      ensures out == Eval(Then(first, second), env, old(S())).outcome
      ensures Simulates(old(W()), W(), Eval(Then(first, second), env, old(S())))
      decreases Size(Then(first, second)), 0
    {
      hide Consistent, Simulates;
      ghost var w := W();
      out := Exec(first);
      ghost var r := Eval(first, env, ScopeOf(w));
      if out.Ok? {
        ghost var w' := W();
        out := Exec(second);
        SimulatesSequence(w, w', W(), r, Eval(second, env, r.scope));
      }
    }

    method ExecCatch(body: Program, handler: Program, rethrow: bool) returns (out: Outcome)
      requires Valid()
      modifies this, context, database
      ensures Valid() && SameStore(old(context.store))
      ensures out == Eval(Catch(body, handler, rethrow), env, old(S())).outcome
      ensures Simulates(old(W()), W(), Eval(Catch(body, handler, rethrow), env, old(S())))
      decreases Size(Catch(body, handler, rethrow)), 0
    {
      hide Consistent, Simulates;
      ghost var w := W();
      out := Exec(body);
      ghost var r := Eval(body, env, ScopeOf(w));
      if out.Fail? {
        ghost var w' := W();
        var handled := Exec(handler);
        ghost var r' := Eval(handler, env, r.scope);
        out := if handled.Ok? && rethrow then out else handled;
        SimulatesSequence(w, w', W(), r, r'.(outcome := out));
      }
    }

    method ExecChoose(normally: Program, otherwise: Program) returns (out: Outcome)
      requires Valid()
      modifies this, context, database
      ensures Valid() && SameStore(old(context.store))
      ensures out == Eval(Choose(normally, otherwise), env, old(S())).outcome
      ensures Simulates(old(W()), W(), Eval(Choose(normally, otherwise), env, old(S())))
      decreases Size(Choose(normally, otherwise)), 0
    {
      hide Consistent, Simulates;
      ghost var w := W();
      var answer := Ask();
      ghost var w' := W();
      if answer.Proceed? {
        out := Exec(normally);
        SimulatesAfterIdle(w, w', W(), Eval(normally, env, ScopeOf(w')));
      } else {
        out := Exec(otherwise);
        SimulatesAfterIdle(w, w', W(), Eval(otherwise, env, ScopeOf(w')));
      }
    }

    /** The next answer of the world. */
    method Ask() returns (s: Signal)
      requires Valid()
      modifies database
      ensures Valid()
      ensures s == env.signal(old(S()).clock) && S() == old(S()).(clock := old(S()).clock + 1)
      ensures SameTransactions(old(W()))
      ensures Simulates(old(W()), W(), Quiet(Ok, S()))
    {
      ghost var w := W();
      s := database.Answer();
      assert w.log + [] == w.log;
      SimulatesIdle(w, W(), Ok, []);
    }

    // `run`, one branch per propagation mode.

    method RunIn(o: Options, body: Program) returns (out: Outcome)
      requires Valid()
      modifies this, context, database
      ensures Valid() && SameStore(old(context.store))
      ensures out == EvalRun(o, body, env, old(S())).outcome
      ensures Simulates(old(W()), W(), EvalRun(o, body, env, old(S())))
      decreases Size(Run(o, body)), 0
    {
      hide Consistent, Simulates;
      if env.misses(o.dataSource).Some? {
        out := Raising({env.misses(o.dataSource).value});
        return;
      }
      var existing := context.GetActiveTransaction(ContextKey(o.dataSource), o.dataSource);
      match o.propagation {
        case REQUIRED =>
          if existing.Some? {
            out := Exec(body);
          } else {
            out := StartNewWithRetry(o, body);
          }
        case REQUIRES_NEW =>
          if existing.None? {
            out := StartNewWithRetry(o, body);
          } else {
            out := RunRequiresNew(o, body, existing.value);
          }
        case NESTED =>
          if existing.None? {
            out := StartNewWithRetry(o, body);
          } else {
            out := RunNestedSavepoint(o, body, existing.value);
          }
        case SUPPORTS =>
          out := Exec(body);
        case NOT_SUPPORTED =>
          if existing.None? {
            out := Exec(body);
          } else {
            out := RunNotSupported(o, body, existing.value);
          }
        case NEVER =>
          if existing.Some? {
            out := Raising({ILLEGAL_STATE});
          } else {
            out := Exec(body);
          }
        case MANDATORY =>
          if existing.None? {
            out := Raising({ILLEGAL_STATE});
          } else {
            out := Exec(body);
          }
      }
    }

    method RunRequiresNew(o: Options, body: Program, existing: ActiveTransaction) returns (out: Outcome)
      requires Valid()
      requires o.dataSource in context.entries && context.entries[o.dataSource] == existing
      modifies this, context, database
      ensures Valid() && SameStore(old(context.store))
      ensures var r := StartWithRetry(o, body, env, Suspend(old(S()), o.dataSource));
              out == r.outcome && Simulates(old(W()), W(), Resume(r, o.dataSource))
      decreases Budget(Attempts(o.retry), Size(body)), 8
    {
      var d := o.dataSource;
      ghost var w := W();
      Close(d);
      ghost var v := W();
      out := StartNewWithRetry(o, body);
      ghost var w' := W();
      ghost var r := StartWithRetry(o, body, env, ScopeOf(v));
      TidyStartWithRetry(o, body, env, ScopeOf(v));
      SimulatesSuspended(w, w', d, r);
      var restored := context.SetActiveTransaction(ContextKey(d), existing);
      assert W() == Resumed(w', d, existing);
    }

    method RunNotSupported(o: Options, body: Program, existing: ActiveTransaction) returns (out: Outcome)
      requires Valid()
      requires o.dataSource in context.entries && context.entries[o.dataSource] == existing
      modifies this, context, database
      ensures Valid() && SameStore(old(context.store))
      ensures var r := Eval(body, env, Suspend(old(S()), o.dataSource));
              out == r.outcome && Simulates(old(W()), W(), Resume(r, o.dataSource))
      decreases Size(body), 2
    {
      var d := o.dataSource;
      ghost var w := W();
      Close(d);
      ghost var v := W();
      out := Exec(body);
      ghost var w' := W();
      ghost var r := Eval(body, env, ScopeOf(v));
      TidyEval(body, env, ScopeOf(v));
      SimulatesSuspended(w, w', d, r);
      var restored := context.SetActiveTransaction(ContextKey(d), existing);
      assert W() == Resumed(w', d, existing);
    }

    method RunNestedSavepoint(o: Options, body: Program, parent: ActiveTransaction) returns (out: Outcome)
      requires Valid()
      requires o.dataSource in context.entries && context.entries[o.dataSource] == parent
      modifies this, context, database
      ensures Valid() && SameStore(old(context.store))
      ensures out == Savepoint(o, body, env, old(S())).outcome
      ensures Simulates(old(W()), W(), Savepoint(o, body, env, old(S())))
      decreases Size(body), 2, 1
    {
      hide Consistent, Simulates;
      if o.dataSource !in env.savepoints {
        out := Raising({ILLEGAL_STATE});
        return;
      }
      out := InSavepoint(o, body, parent);
    }

    /** SAVEPOINT, the body, then RELEASE or ROLLBACK TO. */
    method InSavepoint(o: Options, body: Program, parent: ActiveTransaction) returns (out: Outcome)
      requires Valid() && o.dataSource in env.savepoints
      requires o.dataSource in context.entries && context.entries[o.dataSource] == parent
      modifies this, context, database
      ensures Valid() && SameStore(old(context.store))
      ensures out == Savepoint(o, body, env, old(S())).outcome
      ensures Simulates(old(W()), W(), Savepoint(o, body, env, old(S())))
      decreases Size(body), 2, 0
    {
      hide Consistent, Simulates, ShouldRollback, WithoutRows, Eval;
      ghost var w := W();
      EntryParts(w, o.dataSource);
      SavedIsConsistent(w, parent.handle);
      var name := database.Savepoint(parent.handle);
      ghost var v := W();
      assert v == Saved(w, parent.handle);
      out := Exec(body);
      ghost var r := Eval(body, env, ScopeOf(v));
      ghost var w' := W();
      SimulatesParts(v, w', r);
      FindSaved(w, w', o.dataSource, r);
      if out.Fail? && ShouldRollback(out.error, o) {
        SimulatesRolledBackTo(w, w', o.dataSource, r);
        database.RollbackTo(parent.handle, name);
        SimulatesParts(w, W(), r.(effects := WithoutRows(r.effects, o.dataSource)));
      } else {
        SimulatesReleased(w, w', o.dataSource, r);
        database.Release(parent.handle, name);
        SimulatesParts(w, W(), r);
      }
    }

    // A new transaction.

    method StartNewWithRetry(o: Options, body: Program) returns (out: Outcome)
      requires Valid() && o.dataSource !in context.entries
      modifies this, context, database
      ensures Valid() && SameStore(old(context.store))
      ensures out == StartWithRetry(o, body, env, old(S())).outcome
      ensures Simulates(old(W()), W(), StartWithRetry(o, body, env, old(S())))
      decreases Budget(Attempts(o.retry), Size(body)), 7
    {
      hide Consistent, Simulates, AttemptUpTo, Reference.StartNew, Retryable, Sequence, Delayed, LeftOf;
      if !ValidRetry(o.retry) {
        out := Raising({TYPE_ERROR});
        return;
      }
      ghost var w := W();
      var maxAttempts := Attempts(o.retry);
      var attempt, again := 1, true;
      ghost var r, whole := Quiet(Ok, ScopeOf(w)), AttemptUpTo(maxAttempts, o, body, env, ScopeOf(w));
      SimulatesNothing(w, Ok);
      AllIsLeft(maxAttempts, o, body, env, ScopeOf(w));
      out := Ok;
      while again
        invariant Valid() && SameStore(old(context.store)) && o.dataSource !in context.entries
        invariant Simulates(w, W(), r)
        invariant 1 <= attempt <= maxAttempts + 1
        invariant if again then attempt <= maxAttempts && LeftOf(whole, r, maxAttempts - attempt + 1, o, body, env)
                  else r == whole && out == r.outcome
        decreases maxAttempts + 1 - attempt
      {
        ghost var r';
        out, r' := Attempt(o, body, w, r);
        again := out.Fail? && attempt < maxAttempts && out.error.Object? && out.error.id in rolledBack
                 && Retryable(out.error, o.retry);
        AttemptUpToStep(whole, r, r', maxAttempts - attempt + 1, o, body, env);
        r := Sequence(r, r');
        if again {
          r := PauseAfter(o.retry.delay(attempt, out.error), out, w, r);
        }
        attempt := attempt + 1;
      }
    }

    /** One attempt after what `r` describes. */
    method Attempt(o: Options, body: Program, ghost w: World, ghost r: Result) returns (out: Outcome, ghost r': Result)
      requires Valid() && Simulates(w, W(), r) && o.dataSource !in context.entries
      modifies this, context, database
      ensures Valid() && SameStore(old(context.store)) && context.entries == old(context.entries)
      ensures r' == Reference.StartNew(o, body, env, r.scope).result && out == r'.outcome && S() == r'.scope
      ensures Simulates(w, W(), Sequence(r, r'))
      decreases Size(body), 6
    {
      hide Consistent, Simulates, Reference.StartNew;
      ghost var w' := W();
      SimulatesParts(w, w', r);
      out := StartNew(o, body);
      r' := Reference.StartNew(o, body, env, ScopeOf(w')).result;
      SimulatesParts(w', W(), r');
      SimulatesSequence(w, w', W(), r, r');
    }

    /** A wait after what `r` describes. */
    method PauseAfter(wait: int, ghost out: Outcome, ghost w: World, ghost r: Result) returns (ghost r': Result)
      requires Valid() && Simulates(w, W(), r)
      modifies database
      ensures Valid() && Simulates(w, W(), r')
      ensures r' == Sequence(r, Delayed(wait, Quiet(out, r.scope)))
    {
      hide Consistent, Simulates, Delayed, Sequence;
      ghost var w1 := W();
      SimulatesParts(w, w1, r);
      Pause(wait, out);
      r' := Sequence(r, Delayed(wait, Quiet(out, r.scope)));
      SimulatesSequence(w, w1, W(), r, Delayed(wait, Quiet(out, r.scope)));
    }

    /** `setTimeout`, for a positive wait. */
    method Pause(wait: int, ghost out: Outcome)
      requires Valid()
      modifies database
      ensures Valid()
      ensures Simulates(old(W()), W(), Delayed(wait, Quiet(out, old(S()))))
    {
      ghost var w := W();
      if wait > 0 {
        database.Observe(Waited(wait));
      }
      assert [Waited(wait)] + [] == [Waited(wait)];
      assert w.log + [] == w.log;
      SimulatesIdle(w, W(), out, if wait > 0 then [Waited(wait)] else []);
    }

    /** One attempt, in a store of its own when there is none. */
    method StartNew(o: Options, body: Program) returns (out: Outcome)
      requires Valid() && o.dataSource !in context.entries
      modifies this, context, database
      ensures Valid() && SameStore(old(context.store))
      ensures out == Reference.StartNew(o, body, env, old(S())).result.outcome
      ensures Simulates(old(W()), W(), Reference.StartNew(o, body, env, old(S())).result)
      decreases Size(body), 5
    {
      var outer := context.store;
      if outer.None? {
        context.Enter(correlationIds);
        correlationIds := correlationIds + 1;
      }
      assert W() == old(W());
      out := InTransaction(o, body);
      if outer.None? {
        FirstIsEntered(W());
        context.Leave();
      }
    }

    method BeginFailed(classes: set<ErrorClass>) returns (out: Outcome)
      requires Valid()
      modifies this`errors, this`rolledBack
      ensures Valid()
      ensures var r := Raise(classes, old(S()));
              out == r.outcome && Simulates(old(W()), W(), r.(scope := Reference.Mark(r.scope, r.outcome.error)))
    {
      ghost var w := W();
      var e := NewError(classes);
      rolledBack := rolledBack + {e.id};
      out := Fail(e);
      assert w.log + [] == w.log;
      SimulatesIdle(w, W(), out, []);
    }

    /** BEGIN; when it fails, no transaction exists and no hook can run. */
    method InTransaction(o: Options, body: Program) returns (out: Outcome)
      requires Valid() && o.dataSource !in context.entries && context.store.Some?
      modifies this, context, database
      ensures Valid() && SameStore(old(context.store))
      ensures out == Reference.StartNew(o, body, env, old(S())).result.outcome
      ensures Simulates(old(W()), W(), Reference.StartNew(o, body, env, old(S())).result)
      decreases Size(body), 4
    {
      hide Consistent, Simulates;
      ghost var w := W();
      var begin := Ask();
      ghost var w' := W();
      if begin.Fault? {
        out := BeginFailed(begin.classes);
        ghost var r := Raise(begin.classes, ScopeOf(w'));
        SimulatesAfterIdle(w, w', W(), r.(scope := Reference.Mark(r.scope, r.outcome.error)));
      } else {
        out := Begun(o, body);
        ghost var inside := Inside(o.dataSource, body, env, ScopeOf(w'));
        SimulatesAfterIdle(w, w', W(), Settle(o, body, inside, env, |w.lists|).result);
      }
    }

    /** The callback, then COMMIT or ROLLBACK and the after-phase hooks. */
    method Begun(o: Options, body: Program) returns (out: Outcome)
      requires Valid() && o.dataSource !in context.entries && context.store.Some?
      modifies this, context, database
      ensures Valid() && SameStore(old(context.store))
      ensures var inside := Inside(o.dataSource, body, env, old(S()));
              var r := Settle(o, body, inside, env, |old(lists)|).result;
              out == r.outcome && Simulates(old(W()), W(), r)
      decreases Size(body), 3, 3
    {
      ghost var w := W();
      ghost var inside := Inside(o.dataSource, body, env, ScopeOf(w));
      var handle;
      handle, out := Callback(o.dataSource, body);
      if out.Fail? && ShouldRollback(out.error, o) {
        SimulatesNothing(W(), Ok);
        FinishRollback(handle, o.dataSource, out.error, body, w, W(), inside);
      } else {
        out := TryCommit(handle, o.dataSource, out, body, w, inside);
      }
    }

    method TryCommit(handle: nat, d: DataSource, result: Outcome, ghost body: Program, ghost w: World,
                     ghost inside: Result)
      returns (out: Outcome)
      requires Valid() && InsideDone(w, W(), inside, handle, d)
      requires result == inside.outcome && OtherHookSize(inside.effects, d) < Size(body)
      modifies this, context, database
      ensures Valid() && SameStore(old(context.store))
      ensures var r := AskCommit(d, body, inside, old(S()), env, handle).result;
              out == r.outcome && Simulates(w, W(), r)
      decreases Size(body), 3, 2
    {
      hide Consistent, Simulates, InsideDone, OtherHookSize, AfterHooks, Distinct;
      ghost var w1 := W();
      var commit := Ask();
      if commit.Fault? {
        out := FinishRefused(handle, d, commit.classes, body, w, w1, inside);
      } else {
        FinishCommit(handle, d, body, w, w1, inside);
        out := result;
      }
    }

    /** COMMIT failed: the transaction ends rolled back, with the driver's error. */
    method FinishRefused(handle: nat, d: DataSource, classes: set<ErrorClass>, ghost body: Program, ghost w: World,
                         ghost w1: World, ghost inside: Result)
      returns (out: Outcome)
      requires Valid() && InsideDone(w, w1, inside, handle, d)
      requires SameTransactions(w1) && Simulates(w1, W(), Quiet(Ok, S()))
      requires OtherHookSize(inside.effects, d) < Size(body)
      modifies this, context, database
      ensures Valid() && SameStore(old(context.store))
      ensures var failed := Raise(classes, old(S()));
              var r := RollBack(d, body, inside, failed.outcome.error, failed.scope, env, handle).result;
              out == failed.outcome && Simulates(w, W(), r)
      decreases Size(body), 3, 1
    {
      hide Consistent, Simulates, InsideDone, OtherHookSize, AfterHooks, Distinct;
      ghost var w2 := W();
      var e := Refuse(classes);
      SimulatesAfterIdle(w1, w2, W(), Quiet(Ok, ScopeOf(W())));
      FinishRollback(handle, d, e, body, w, w1, inside);
      out := Fail(e);
    }

    method FinishRollback(handle: nat, d: DataSource, error: Error, ghost body: Program, ghost w: World,
                          ghost w1: World, ghost inside: Result)
      requires Valid() && InsideDone(w, w1, inside, handle, d)
      requires SameTransactions(w1) && Simulates(w1, W(), Quiet(Ok, S()))
      requires OtherHookSize(inside.effects, d) < Size(body)
      modifies this, context, database
      ensures Valid() && SameStore(old(context.store))
      ensures Simulates(w, W(), RollBack(d, body, inside, error, old(S()), env, handle).result)
      decreases Size(body), 3, 0
    {
      ghost var w2 := W();
      OwnHooks(inside, w1.lists[handle], d);
      RollbackAndHooks(handle, d, error);
      ghost var hooks := AfterHooks(w2.lists[handle].afterRollback, AfterRollback, 0, handle, env, ScopeOf(w2));
      SimulatesFinished(w, w1, w2, W(), d, inside, handle, Fail(error), Reference.Mark(hooks.scope, error),
                        RolledBack(handle, d), hooks);
    }

    method FinishCommit(handle: nat, d: DataSource, ghost body: Program, ghost w: World, ghost w1: World,
                        ghost inside: Result)
      requires Valid() && InsideDone(w, w1, inside, handle, d)
      requires SameTransactions(w1) && Simulates(w1, W(), Quiet(Ok, S()))
      requires OtherHookSize(inside.effects, d) < Size(body)
      modifies this, context, database
      ensures Valid() && SameStore(old(context.store))
      ensures Simulates(w, W(), Commit(d, body, inside, old(S()), env, handle).result)
      decreases Size(body), 3, 0
    {
      ghost var w2 := W();
      OwnHooks(inside, w1.lists[handle], d);
      CommitAndHooks(handle, d, inside.outcome);
      ghost var hooks := AfterHooks(w2.lists[handle].afterCommit, AfterCommit, 0, handle, env, ScopeOf(w2));
      SimulatesFinished(w, w1, w2, W(), d, inside, handle, inside.outcome, hooks.scope,
                        Committed(handle, d, w2.sessions[handle].rows), hooks);
    }

    /** BEGIN, and the new transaction's slot in the map. The manager to begin on is
        looked up like any other write's; with the slot of `d` empty it is no active
        transaction's, so the new transaction is no part of a suspended one. */
    method Open(d: DataSource) returns (tx: ActiveTransaction)
      requires Valid() && d !in context.entries && context.store.Some?
      modifies this, context, database
      ensures Valid() && SameStore(old(context.store))
      ensures tx.handle == |old(lists)| && tx.dataSource == d && W() == Opened(old(W()), tx)
      ensures d in context.entries && context.entries[d] == tx && lists == old(lists) + [NoHooks(d)]
    {
      hide Consistent;
      ghost var w := W();
      Parts(w);
      var active := context.GetActiveTransactionByDataSource(d);
      var handle := database.Begin(d, HandleOf(active));
      lists := lists + [NoHooks(d)];
      tx := ActiveTransaction(handle, env.adapterOf(d), d, context.store.value.correlationId);
      OpenedIsConsistent(w, tx);
      var ok := context.SetActiveTransaction(ContextKey(d), tx);
      assert W() == Opened(w, tx);
    }

    /** The slot of `d` is removed from the map. */
    method Close(d: DataSource)
      requires Valid()
      modifies context
      ensures Valid() && SameStore(old(context.store)) && W() == Suspended(old(W()), d)
    {
      SuspendedIsConsistent(W(), d);
      context.RemoveActiveTransaction(ContextKey(d), d);
      assert W() == Suspended(old(W()), d);
    }

    /** The adapter's callback: the new slot, the body, the before-commit hooks. */
    method Callback(d: DataSource, body: Program) returns (handle: nat, out: Outcome)
      requires Valid() && d !in context.entries && context.store.Some?
      modifies this, context, database
      ensures Valid() && SameStore(old(context.store))
      ensures handle == |old(lists)|
      ensures var inside := Inside(d, body, env, old(S()));
              out == inside.outcome && InsideDone(old(W()), W(), inside, handle, d)
      decreases Size(body), 3, 0
    {
      hide Consistent, Simulates, Opened, Suspended, InsideDone, Inside, BodyAndHooks, NoHooks;
      ghost var w := W();
      var tx := Open(d);
      handle := tx.handle;
      out := ExecBodyAndHooks(tx, body);
      ClosedInside(w, W(), tx, body, env);
      Close(d);
    }

    method ExecBodyAndHooks(tx: ActiveTransaction, body: Program) returns (out: Outcome)
      requires Valid()
      requires tx.dataSource in context.entries && context.entries[tx.dataSource] == tx
      requires tx.handle < |lists| && lists[tx.handle] == NoHooks(tx.dataSource)
      modifies this, context, database
      ensures Valid() && SameStore(old(context.store))
      ensures var r := BodyAndHooks(tx.dataSource, body, tx.handle, env, old(S()));
              out == r.outcome && Simulates(old(W()), W(), r)
      decreases Size(body), 2
    {
      hide Consistent, Simulates, Eval, BeforeCommitLoop;
      ghost var w := W();
      out := Exec(body);
      ghost var w' := W();
      ghost var r := Eval(body, env, ScopeOf(w));
      HookSizeSplit(r.effects, tx.dataSource);
      FreshHooks(w, w', tx, r);
      if out.Ok? {
        out := RunBeforeCommitHooks(tx);
        ghost var queue := Hooks(r.effects, tx.dataSource, BeforeCommit);
        SimulatesSequence(w, w', W(), r, BeforeCommitLoop(queue, 0, tx.handle, tx.dataSource, env, r.scope));
      }
    }

    /** The live loop: hooks pushed while it runs are run by it. */
    method RunBeforeCommitHooks(tx: ActiveTransaction) returns (out: Outcome)
      requires Valid()
      requires tx.dataSource in context.entries && context.entries[tx.dataSource] == tx && tx.handle < |lists|
      modifies this, context, database
      ensures Valid() && SameStore(old(context.store))
      ensures var r := BeforeCommitLoop(old(lists)[tx.handle].beforeCommit, 0, tx.handle, tx.dataSource, env, old(S()));
              out == r.outcome && Simulates(old(W()), W(), r)
      decreases QueueSize(lists[tx.handle].beforeCommit), 3
    {
      var handle := tx.handle;
      ghost var w, d := W(), tx.dataSource;
      ghost var whole := BeforeCommitLoop(lists[handle].beforeCommit, 0, handle, d, env, ScopeOf(w));
      ghost var r := Quiet(Ok, ScopeOf(w));
      SimulatesNothing(w, Ok);
      SequenceOfQuiet(whole, ScopeOf(w), Ok);
      out := Ok;
      var i := 0;
      while i < |lists[handle].beforeCommit| && out.Ok?
        invariant Valid() && SameStore(old(context.store))
        invariant handle < |lists| && i <= |lists[handle].beforeCommit|
        invariant Simulates(w, W(), r) && r.outcome == out
        invariant out.Fail? ==> r == whole
        invariant out.Ok? ==>
                    whole == Sequence(r, BeforeCommitLoop(lists[handle].beforeCommit[i..], i, handle, d, env, r.scope))
        invariant QueueSize(lists[handle].beforeCommit[i..]) <= QueueSize(old(lists[handle].beforeCommit))
        decreases QueueSize(lists[handle].beforeCommit[i..])
      {
        ghost var w', queue := W(), lists[handle].beforeCommit;
        HookFits(queue, i);
        out := FireHookAt(handle, BeforeCommit, i);
        ghost var r' := FireHook(queue[i], BeforeCommit, i, handle, env, r.scope);
        LoopStep(w', W(), tx, queue, i, r, r', env);
        SimulatesSequence(w, w', W(), r, r');
        r := Sequence(r, r');
        i := i + 1;
      }
      SequenceOfQuiet(r, r.scope, Ok);
    }

    method FireHookAt(handle: nat, phase: Phase, index: nat) returns (out: Outcome)
      requires Valid() && handle < |lists| && index < |HooksOf(lists[handle], phase)|
      modifies this, context, database
      ensures Valid() && SameStore(old(context.store))
      ensures var r := FireHook(HooksOf(old(lists)[handle], phase)[index], phase, index, handle, env, old(S()));
              out == r.outcome && Simulates(old(W()), W(), r)
      decreases Size(HooksOf(lists[handle], phase)[index]), 2
    {
      ghost var w := W();
      var hook := HooksOf(lists[handle], phase)[index];
      database.Observe(Fired(handle, phase, index));
      ghost var w' := W();
      SimulatesIdle(w, w', Ok, [Fired(handle, phase, index)]);
      out := Exec(hook);
      SimulatesLogged(w, w', W(), Fired(handle, phase, index), Eval(hook, env, ScopeOf(w)));
    }

    method RollbackAndHooks(handle: nat, d: DataSource, error: Error)
      requires Valid() && handle < |lists| && !IsLive(W(), handle)
      modifies this, context, database
      ensures Valid() && SameStore(old(context.store))
      ensures var hooks := AfterHooks(old(lists)[handle].afterRollback, AfterRollback, 0, handle, env, old(S()));
              Simulates(old(W()), W(),
                        Ending(Fail(error), Reference.Mark(hooks.scope, error), RolledBack(handle, d), hooks))
      decreases QueueSize(lists[handle].afterRollback), 5
    {
      ghost var w := W();
      database.Rollback(handle, d);
      ghost var w1 := W();
      SimulatesIdle(w, w1, Ok, [RolledBack(handle, d)]);
      RunHooks(handle, AfterRollback);
      ghost var w2 := W();
      ghost var hooks := AfterHooks(w.lists[handle].afterRollback, AfterRollback, 0, handle, env, ScopeOf(w));
      SimulatesLogged(w, w1, w2, RolledBack(handle, d), hooks);
      if error.Object? {
        rolledBack := rolledBack + {error.id};
      }
      assert w2.log + [] == w2.log;
      SimulatesIdle(w2, W(), Ok, []);
      SimulatesBeforeIdle(w, w2, W(), Logged(RolledBack(handle, d), hooks));
    }

    method CommitAndHooks(handle: nat, d: DataSource, ghost out: Outcome)
      requires Valid() && handle < |lists| && !IsLive(W(), handle)
      modifies this, context, database
      ensures Valid() && SameStore(old(context.store))
      ensures var hooks := AfterHooks(old(lists)[handle].afterCommit, AfterCommit, 0, handle, env, old(S()));
              var rows := old(database.sessions)[handle].rows;
              Simulates(old(W()), W(), Ending(out, hooks.scope, Committed(handle, d, rows), hooks))
      decreases QueueSize(lists[handle].afterCommit), 5
    {
      ghost var w := W();
      ghost var committed := Committed(handle, d, database.sessions[handle].rows);
      database.Commit(handle, d);
      ghost var w1 := W();
      SimulatesIdle(w, w1, Ok, [committed]);
      RunHooks(handle, AfterCommit);
      ghost var hooks := AfterHooks(w.lists[handle].afterCommit, AfterCommit, 0, handle, env, ScopeOf(w));
      SimulatesLogged(w, w1, W(), committed, hooks);
    }

    /** After-phase hooks of a finished transaction; errors are swallowed. */
    method RunHooks(handle: nat, phase: Phase)
      requires Valid() && handle < |lists| && !IsLive(W(), handle)
      requires phase != BeforeCommit
      modifies this, context, database
      ensures Valid() && SameStore(old(context.store))
      ensures Simulates(old(W()), W(),
                        AfterHooks(HooksOf(old(lists)[handle], phase), phase, 0, handle, env, old(S())))
      decreases QueueSize(HooksOf(lists[handle], phase)), 4
    {
      hide Consistent, Simulates, AfterHooks, IsLive, Sequence;
      ghost var w := W();
      ghost var hooks := HooksOf(lists[handle], phase);
      ghost var whole := AfterHooks(hooks, phase, 0, handle, env, ScopeOf(w));
      ghost var r := Quiet(Ok, ScopeOf(w));
      SimulatesNothing(w, Ok);
      SequenceOfQuiet(whole, ScopeOf(w), Ok);
      var i := 0;
      while i < |HooksOf(lists[handle], phase)|
        invariant Valid() && SameStore(old(context.store))
        invariant handle < |lists| && !IsLive(W(), handle) && HooksOf(lists[handle], phase) == hooks
        invariant i <= |hooks|
        invariant Simulates(w, W(), r)
        invariant whole == Sequence(r, AfterHooks(hooks[i..], phase, i, handle, env, r.scope))
        decreases |hooks| - i
      {
        ghost var w' := W();
        HookFits(hooks, i);
        var swallowed := FireHookAt(handle, phase, i);
        ghost var r' := FireHook(hooks[i], phase, i, handle, env, ScopeOf(w'));
        FinishedKeeps(w', W(), handle, r');
        SimulatesParts(w, w', r);
        SimulatesSequence(w, w', W(), r, r');
        AfterHooksStep(hooks, i, phase, handle, env, r, r');
        r := Sequence(r, r');
        i := i + 1;
      }
      AfterHooksDone(hooks[i..], i, phase, handle, env, r);
      SimulatesAnyOutcome(w, W(), r, Ok);
    }
  }
}
