/** Conditions on the text of a program that every step keeps to. */
module OutboxPolicies {
  import opened Wrappers
  import opened Programs
  import opened Outboxes
  import opened OutboxBooks
  import opened OutboxLaws

  /** Every event is scheduled where a transaction of the outbox's dataSource is sure to
      be visible; its runs never roll back to a savepoint; its runs have no rollback
      rules. */
  datatype Policy = Sheltered | Flat | Ruleless

  /** Whether the body of a run on the outbox's dataSource is sure to see a transaction. */
  predicate Shelters(propagation: Propagation, visible: bool) {
    match propagation
    case REQUIRED => true
    case REQUIRES_NEW => true
    case NESTED => true
    case MANDATORY => true
    case SUPPORTS => visible
    case NOT_SUPPORTED => false
    case NEVER => false
  }

  /** Some error rolls a run back to its savepoint. */
  predicate Cuts(o: Options) {
    o.propagation.NESTED? && (o.rollbackFor == {} || !(o.rollbackFor <= o.noRollbackFor))
  }

  lemma CutsOrCommits(o: Options, error: Error)
    requires o.propagation.NESTED? && ShouldRollback(error, o)
    ensures Cuts(o)
  {
  }

  /** An error that does. */
  function Cutting(o: Options): Error
    requires Cuts(o)
    ensures ShouldRollback(Cutting(o), o)
  {
    if o.rollbackFor == {} then Primitive(0)
    else
      assert MatchesAny(Object(Shared(0), o.rollbackFor - o.noRollbackFor), o.rollbackFor) by {
        var c :| c in o.rollbackFor && c !in o.noRollbackFor;
      }
      Object(Shared(0), o.rollbackFor - o.noRollbackFor)
  }

  predicate OptionsObey(p: Policy, home: DataSource, o: Options) {
    o.dataSource == home ==>
      match p
      case Sheltered => true
      case Flat => !Cuts(o)
      case Ruleless => NoRules(o)
  }

  /** `visible` says that a transaction of `home` is visible for sure. Only a
      before-commit hook of such a transaction is sure to see it. */
  predicate Obeys(p: Policy, home: DataSource, script: Script, visible: bool) {
    script.Done? || (ActObeys(p, home, script.act, visible) && Obeys(p, home, script.rest, visible))
  }

  predicate ActObeys(p: Policy, home: DataSource, act: Act, visible: bool) {
    match act
    case Schedule(e) => p.Sheltered? && e.externalized ==> visible
    case Hook(d, phase, hook) => Obeys(p, home, hook, d == home && phase == BeforeCommit)
    case Within(o, body) =>
      && OptionsObey(p, home, o)
      && Obeys(p, home, body, if o.dataSource == home then Shelters(o.propagation, visible) else visible)
    case Try(body, handler) => Obeys(p, home, body, visible) && Obeys(p, home, handler, visible)
    case _ => true
  }

  predicate BeforeObeys(p: Policy, home: DataSource, h: BeforeHook, visible: bool) {
    h.Other? ==> Obeys(p, home, h.script, visible)
  }

  predicate AfterObeys(p: Policy, home: DataSource, h: AfterHook) {
    h.After? ==> Obeys(p, home, h.script, false)
  }

  ghost predicate TxObeys(p: Policy, home: DataSource, d: DataSource, t: Tx) {
    && (forall i | 0 <= i < |t.beforeCommit| :: BeforeObeys(p, home, t.beforeCommit[i], d == home))
    && (forall i | 0 <= i < |t.afterCommit| :: AfterObeys(p, home, t.afterCommit[i]))
    && (forall i | 0 <= i < |t.afterRollback| :: AfterObeys(p, home, t.afterRollback[i]))
    && (p.Flat? ==> |t.rows| == t.added)
    && (d != home ==> t.rows == [])
  }

  predicate FinishedObeys(p: Policy, home: DataSource, f: Finished) {
    match p
    case Sheltered => true
    case Flat => |f.tx.rows| == f.tx.added
    case Ruleless => f.options.dataSource == home ==> NoRules(f.options)
  }

  ghost predicate Fine(p: Policy, home: DataSource, s: State) {
    && (forall d | d in s.txs :: TxObeys(p, home, d, s.txs[d]))
    && (forall i | 0 <= i < |s.bus.finished| :: FinishedObeys(p, home, s.bus.finished[i]))
    && (p.Sheltered? ==> s.bus.dropped == [])
  }

  lemma {:induction false} ObeysMore(p: Policy, home: DataSource, script: Script)
    requires Obeys(p, home, script, false)
    ensures Obeys(p, home, script, true)
    decreases script, 1
  {
    if script.Do? {
      ActObeysMore(p, home, script.act);
      ObeysMore(p, home, script.rest);
    }
  }

  lemma {:induction false} ActObeysMore(p: Policy, home: DataSource, act: Act)
    requires ActObeys(p, home, act, false)
    ensures ActObeys(p, home, act, true)
    decreases act, 0
  {
    match act
    case Within(o, body) =>
      if o.dataSource != home || o.propagation.SUPPORTS? {
        ObeysMore(p, home, body);
      }
    case Try(body, handler) =>
      ObeysMore(p, home, body);
      ObeysMore(p, home, handler);
    case _ =>
  }

  /** The bus has changed only in what no policy looks at. */
  lemma FineByBus(p: Policy, home: DataSource, s: State, s': State)
    requires Fine(p, home, s) && s'.txs == s.txs && s'.bus.finished == s.bus.finished && s'.bus.dropped == s.bus.dropped
    ensures Fine(p, home, s')
  {
    hide TxObeys;
  }

  lemma FinePut(p: Policy, home: DataSource, s: State, d: DataSource, t: Tx)
    requires Fine(p, home, s) && TxObeys(p, home, d, t)
    ensures Fine(p, home, Put(s, d, t))
  {
    hide TxObeys;
  }

  lemma FineAt(p: Policy, home: DataSource, s: State, d: DataSource)
    requires Fine(p, home, s) && d in s.txs
    ensures TxObeys(p, home, d, s.txs[d])
  {
  }

  lemma {:induction false} ScheduleFine(p: Policy, w: Outside, s: State, e: Event, visible: bool)
    requires Fine(p, w.home, s) && ActObeys(p, w.home, Schedule(e), visible) && (visible ==> w.home in s.txs)
    ensures Fine(p, w.home, ScheduleIn(w, s, e))
  {
    var s' := ScheduleIn(w, s, e);
    if w.home in s.txs {
      FineByBus(p, w.home, s, s.(bus := s'.bus));
      if e !in s.bus.scheduled && e.externalized {
        FinePut(p, w.home, s.(bus := s'.bus), w.home, BufferIn(s.txs[w.home], e));
      }
    }
  }

  lemma {:induction false} PublishFine(p: Policy, w: Outside, s: State, e: Event, origin: Origin)
    requires Fine(p, w.home, s)
    ensures Fine(p, w.home, PublishIn(w, s, e, origin).state)
  {
    var s' := PublishIn(w, s, e, origin).state;
    FineByBus(p, w.home, s, s.(bus := s'.bus));
    if w.home in s.txs && w.refuses(s.bus.calls).None? {
      FinePut(p, w.home, s.(bus := s'.bus), w.home, AddIn(s.txs[w.home], e, origin));
    }
  }

  lemma {:induction false} HookFine(p: Policy, w: Outside, s: State, d: DataSource, phase: Phase, hook: Script)
    requires Fine(p, w.home, s) && Obeys(p, w.home, hook, d == w.home && phase == BeforeCommit)
    ensures Fine(p, w.home, HookIn(s, d, phase, hook))
  {
    hide Obeys;
    if d in s.txs {
      FinePut(p, w.home, s, d, Pushed(s.txs[d], phase, hook));
    }
  }

  lemma {:induction false} PerformFine(p: Policy, w: Outside, s: State, script: Script, visible: bool)
    requires Fine(p, w.home, s) && Obeys(p, w.home, script, visible) && (visible ==> w.home in s.txs)
    ensures Fine(p, w.home, Perform(w, s, script).state)
    decreases ScriptSize(script), 1
  {
    hide Fine, ActObeys, ActIn;
    if script.Do? {
      var r := ActIn(w, s, script.act);
      ActFine(p, w, s, script.act, visible);
      if r.outcome.Ok? {
        PerformFine(p, w, r.state, script.rest, visible);
      }
    }
  }

  lemma {:induction false} ActFine(p: Policy, w: Outside, s: State, act: Act, visible: bool)
    requires Fine(p, w.home, s) && ActObeys(p, w.home, act, visible) && (visible ==> w.home in s.txs)
    ensures Fine(p, w.home, ActIn(w, s, act).state)
    decreases ActSize(act), 0
  {
    hide Fine, WithinIn, PublishIn, ScheduleIn, HookIn;
    match act
    case Schedule(e) => ScheduleFine(p, w, s, e, visible);
    case Publish(e) => PublishFine(p, w, s, e, Direct);
    case Hook(d, phase, hook) => HookFine(p, w, s, d, phase, hook);
    case Within(o, body) => WithinFine(p, w, s, o, body, visible);
    case Try(body, handler) =>
      PerformFine(p, w, s, body, visible);
      var r := Perform(w, s, body);
      if r.outcome.Fail? {
        PerformFine(p, w, r.state, handler, visible);
      }
    case Raise(_) =>
    case RaiseFresh(classes) => FineByBus(p, w.home, s, Raised(s, classes).state);
  }

  lemma ApartFine(p: Policy, home: DataSource, s: State, d: DataSource)
    requires Fine(p, home, s)
    ensures Fine(p, home, Apart(s, d)) && d !in Apart(s, d).txs
    ensures home != d ==> (home in s.txs <==> home in Apart(s, d).txs)
  {
    hide TxObeys;
  }

  lemma CutBackFine(p: Policy, home: DataSource, s: State, r: Ran, o: Options)
    requires o.dataSource in s.txs && o.dataSource in r.state.txs && Fine(p, home, r.state)
    requires OptionsObey(p, home, o) && o.propagation.NESTED?
    ensures Fine(p, home, CutBack(s, r, o).state)
  {
    var d := o.dataSource;
    var t, t' := s.txs[d], r.state.txs[d];
    FineAt(p, home, r.state, d);
    if r.outcome.Fail? && ShouldRollback(r.outcome.error, o) && |t.rows| <= |t'.rows| {
      CutsOrCommits(o, r.outcome.error);
      FinePut(p, home, r.state, d, t'.(rows := t'.rows[..|t.rows|]));
    }
  }

  lemma {:induction false} WithinFine(p: Policy, w: Outside, s: State, o: Options, body: Script, visible: bool)
    requires Fine(p, w.home, s) && ActObeys(p, w.home, Within(o, body), visible) && (visible ==> w.home in s.txs)
    ensures Fine(p, w.home, WithinIn(w, s, o, body).state)
    decreases Budget(Attempts(o.retry), ScriptSize(body)), 6
  {
    hide Fine, Obeys, Perform, StartIn, CutBack, Apart, Put;
    var d := o.dataSource;
    FineByBus(p, w.home, s, Raised(s, {ILLEGAL_STATE}).state);
    var inside := if d == w.home then Shelters(o.propagation, visible) else visible;
    if w.env.misses(d).Some? {
      FineByBus(p, w.home, s, Raised(s, {w.env.misses(d).value}).state);
    } else if d in s.txs && o.propagation.REQUIRES_NEW? {
      FineAt(p, w.home, s, d);
      ApartFine(p, w.home, s, d);
      StartFine(p, w, Apart(s, d), o, body, inside);
      FinePut(p, w.home, StartIn(w, Apart(s, d), o, body).state, d, s.txs[d]);
    } else if d in s.txs && o.propagation.NOT_SUPPORTED? {
      FineAt(p, w.home, s, d);
      ApartFine(p, w.home, s, d);
      PerformFine(p, w, Apart(s, d), body, inside);
      FinePut(p, w.home, Perform(w, Apart(s, d), body).state, d, s.txs[d]);
    } else if d !in s.txs && (o.propagation.REQUIRED? || o.propagation.REQUIRES_NEW? || o.propagation.NESTED?) {
      StartFine(p, w, s, o, body, inside);
    } else if inside ==> w.home in s.txs {
      PerformFine(p, w, s, body, inside);
      if d in s.txs && o.propagation.NESTED? {
        CutBackFine(p, w.home, s, Perform(w, s, body), o);
      }
    }
  }

  lemma {:induction false} StartFine(p: Policy, w: Outside, s: State, o: Options, body: Script, visible: bool)
    requires Fine(p, w.home, s) && OptionsObey(p, w.home, o) && o.dataSource !in s.txs
    requires Obeys(p, w.home, body, visible) && (visible ==> o.dataSource == w.home || w.home in s.txs)
    ensures Fine(p, w.home, StartIn(w, s, o, body).state)
    decreases Budget(Attempts(o.retry), ScriptSize(body)), 5
  {
    hide Fine, Obeys, AttemptIn;
    if ValidRetry(o.retry) {
      AttemptFine(p, w, s, Attempts(o.retry), o, body, visible);
    } else {
      FineByBus(p, w.home, s, Raised(s, {TYPE_ERROR}).state);
    }
  }

  lemma {:induction false} AttemptFine(p: Policy, w: Outside, s: State, k: nat, o: Options, body: Script, visible: bool)
    requires Fine(p, w.home, s) && OptionsObey(p, w.home, o) && o.dataSource !in s.txs && 1 <= k
    requires Obeys(p, w.home, body, visible) && (visible ==> o.dataSource == w.home || w.home in s.txs)
    ensures Fine(p, w.home, AttemptIn(w, s, k, o, body).state)
    decreases Budget(k, ScriptSize(body)), 4
  {
    hide Fine, Obeys, TransactIn, Retryable;
    TransactFine(p, w, s, o, body, visible);
    var r := TransactIn(w, s, o, body);
    if Repeats(k, o, r) {
      AttemptFine(p, w, r.state, k - 1, o, body, visible);
    }
  }

  lemma {:induction false} TransactFine(p: Policy, w: Outside, s: State, o: Options, body: Script, visible: bool)
    requires Fine(p, w.home, s) && OptionsObey(p, w.home, o) && o.dataSource !in s.txs
    requires Obeys(p, w.home, body, visible) && (visible ==> o.dataSource == w.home || w.home in s.txs)
    ensures Fine(p, w.home, TransactIn(w, s, o, body).state)
    decreases ScriptSize(body), 3
  {
    hide Fine, Obeys, CallbackIn, SettleIn;
    match w.env.signal(s.bus.clock)
    case Fault(classes) => FineByBus(p, w.home, s, TransactIn(w, s, o, body).state);
    case Proceed =>
      CallbackFine(p, w, s, o.dataSource, body, visible);
      SettleFine(p, w, s, o, ScriptSize(body), CallbackIn(w, s, o.dataSource, body));
  }

  lemma {:induction false} CallbackFine(p: Policy, w: Outside, s: State, d: DataSource, body: Script, visible: bool)
    requires Fine(p, w.home, s) && d !in s.txs && Obeys(p, w.home, body, visible)
    requires visible ==> d == w.home || w.home in s.txs
    ensures Fine(p, w.home, CallbackIn(w, s, d, body).ran.state)
    decreases ScriptSize(body), 2, 2
  {
    hide Fine, Obeys, Perform, LoopIn;
    BeginFine(p, w.home, s, d);
    var b := Perform(w, BeginIn(s, d), body);
    PerformFine(p, w, BeginIn(s, d), body, visible);
    CallbackBudget(s, d, b.state, ScriptSize(body));
    if b.outcome.Ok? {
      assert b.state.txs[d].beforeCommit[0..] == b.state.txs[d].beforeCommit;
      LoopFine(p, w, b.state, d, 0);
    }
  }

  lemma BeginFine(p: Policy, home: DataSource, s: State, d: DataSource)
    requires Fine(p, home, s)
    ensures Fine(p, home, BeginIn(s, d))
  {
    FineByBus(p, home, s, State(BeginIn(s, d).bus, s.txs));
    FinePut(p, home, State(BeginIn(s, d).bus, s.txs), d, NewTx());
  }

  lemma {:induction false} LoopFine(p: Policy, w: Outside, s: State, d: DataSource, next: nat)
    requires Fine(p, w.home, s) && d in s.txs && next <= |s.txs[d].beforeCommit|
    ensures Fine(p, w.home, LoopIn(w, s, d, next).state)
    decreases BeforeSize(s.txs[d].beforeCommit[next..]), 2, 1
  {
    hide Fine, TurnIn, Looped, BeforeSize;
    if next < |s.txs[d].beforeCommit| {
      TurnFine(p, w, s, d, next);
      var r := TurnIn(w, s, d, next);
      if r.outcome.Ok? {
        LoopFine(p, w, r.state, d, next + 1);
      }
    }
  }

  lemma {:induction false} TurnFine(p: Policy, w: Outside, s: State, d: DataSource, next: nat)
    requires Fine(p, w.home, s) && d in s.txs && next < |s.txs[d].beforeCommit|
    ensures Fine(p, w.home, TurnIn(w, s, d, next).state)
    decreases BeforeSize(s.txs[d].beforeCommit[next..]), 2, 0
  {
    hide Fine, Obeys, Perform, AddAll, BeforeSize;
    FineAt(p, w.home, s, d);
    var h := s.txs[d].beforeCommit[next];
    assert BeforeObeys(p, w.home, h, d == w.home);
    TurnIsSmall(s.txs[d].beforeCommit, next);
    match h
    case Flush =>
      FinePut(p, w.home, s, d, s.txs[d].(pending := None));
      AddAllFine(p, w, Unbuffered(s, d), Buffer(s.txs[d]));
    case Other(script) =>
      PerformFine(p, w, s, script, d == w.home);
  }

  lemma {:induction false} AddAllFine(p: Policy, w: Outside, s: State, events: seq<Event>)
    requires Fine(p, w.home, s)
    ensures Fine(p, w.home, AddAll(w, s, events).state)
    decreases |events|
  {
    hide Fine, PublishIn;
    if events != [] {
      PublishFine(p, w, s, events[0], Flushed);
      var r := PublishIn(w, s, events[0], Flushed);
      if r.outcome.Ok? {
        AddAllFine(p, w, r.state, events[1..]);
      }
    }
  }

  /** The transaction is closed and has joined those that have ended. */
  lemma CloseFine(p: Policy, home: DataSource, s: State, d: DataSource, f: Finished, s': State)
    requires Fine(p, home, s) && d in s.txs && f.tx == s.txs[d] && OptionsObey(p, home, f.options)
    requires s'.txs == s.txs - {d} && s'.bus.finished == s.bus.finished + [f] && s'.bus.dropped == s.bus.dropped
    ensures Fine(p, home, s')
  {
    FineAt(p, home, s, d);
    assert FinishedObeys(p, home, f);
  }

  lemma {:induction false} SettleFine(p: Policy, w: Outside, before: State, o: Options, size: nat, c: Called)
    requires Affordable(before, c.ran.state, o.dataSource, size)
    requires Fine(p, w.home, c.ran.state) && OptionsObey(p, w.home, o)
    ensures Fine(p, w.home, SettleIn(w, before, o, size, c).state)
    decreases size, 2
  {
    hide Fine, Affordable, AfterIn, AfterSize, Grew;
    var d, outcome := o.dataSource, c.ran.outcome;
    AffordableParts(before, c.ran.state, d, size);
    var t, closed := c.ran.state.txs[d], Apart(c.ran.state, d);
    ClosedBudget(before, c.ran.state, d, size);
    if outcome.Fail? && ShouldRollback(outcome.error, o) {
      RollBackFine(p, w, before, c.ran.state, d, closed, Finished(o, t, c.bodyEnded, outcome, false), outcome.error,
                   size);
    } else {
      var asked := closed.(bus := closed.bus.(clock := closed.bus.clock + 1));
      match w.env.signal(closed.bus.clock) {
        case Fault(classes) =>
          var failed := Raised(asked, classes);
          RollBackFine(p, w, before, c.ran.state, d, failed.state, Finished(o, t, c.bodyEnded, outcome, false),
                       failed.outcome.error, size);
        case Proceed =>
          CommitFine(p, w, before, c.ran.state, d, asked, Finished(o, t, c.bodyEnded, outcome, true), size);
      }
    }
  }

  lemma {:induction false} RollBackFine(p: Policy, w: Outside, before: State, c: State, d: DataSource, closed: State,
                                        f: Finished, error: Error, size: nat)
    requires Fine(p, w.home, c) && d in c.txs && f.tx == c.txs[d] && OptionsObey(p, w.home, f.options)
    requires closed.txs == c.txs - {d} && closed.bus.finished == c.bus.finished && closed.bus.dropped == c.bus.dropped
    requires AfterSize(f.tx.afterRollback) <= size && Grew(before.txs, closed.txs, size - AfterSize(f.tx.afterRollback))
    ensures Fine(p, w.home, RollBackIn(w, before, closed, f, error, size).state)
    decreases size, 1
  {
    hide Fine, AfterIn, AfterSize, Grew, Obeys;
    var s1 := closed.(bus := closed.bus.(finished := closed.bus.finished + [f]));
    CloseFine(p, w.home, c, d, f, s1);
    FineAt(p, w.home, c, d);
    AfterFine(p, w, s1, f.tx.afterRollback);
    var s2 := AfterIn(w, s1, f.tx.afterRollback);
    FineByBus(p, w.home, s2, Marked(s2, error));
  }

  lemma {:induction false} CommitFine(p: Policy, w: Outside, before: State, c: State, d: DataSource, closed: State,
                                      f: Finished, size: nat)
    requires Fine(p, w.home, c) && d in c.txs && f.tx == c.txs[d] && OptionsObey(p, w.home, f.options)
    requires closed.txs == c.txs - {d} && closed.bus.finished == c.bus.finished && closed.bus.dropped == c.bus.dropped
    requires AfterSize(f.tx.afterCommit) <= size && Grew(before.txs, closed.txs, size - AfterSize(f.tx.afterCommit))
    ensures Fine(p, w.home, CommitIn(w, before, closed, f, size).state)
    decreases size, 1
  {
    hide Fine, AfterIn, AfterSize, Grew, Obeys;
    var s1 := closed.(bus := closed.bus.(finished := closed.bus.finished + [f],
                                         durable := closed.bus.durable + f.tx.rows));
    CloseFine(p, w.home, c, d, f, s1);
    FineAt(p, w.home, c, d);
    AfterFine(p, w, s1, f.tx.afterCommit);
  }

  lemma {:induction false} AfterFine(p: Policy, w: Outside, s: State, hooks: seq<AfterHook>)
    requires Fine(p, w.home, s) && forall i | 0 <= i < |hooks| :: AfterObeys(p, w.home, hooks[i])
    ensures Fine(p, w.home, AfterIn(w, s, hooks))
    decreases AfterSize(hooks), 0, |hooks|
  {
    hide Fine, Perform, Obeys;
    if hooks != [] {
      assert AfterObeys(p, w.home, hooks[0]);
      if hooks[0].Notify? {
        var s1 := s.(bus := s.bus.(notifications := s.bus.notifications + 1));
        FineByBus(p, w.home, s, s1);
        AfterFine(p, w, s1, hooks[1..]);
      } else {
        PerformFine(p, w, s, hooks[0].script, false);
        AfterFine(p, w, Perform(w, s, hooks[0].script).state, hooks[1..]);
      }
    }
  }

  // Whole programs.

  lemma {:induction false} ProgramFine(p: Policy, w: Outside, known: set<Event>, program: Script)
    requires Obeys(p, w.home, program, false)
    ensures Fine(p, w.home, Perform(w, Start(known), program).state)
  {
    hide Obeys, Perform;
    PerformFine(p, w, Start(known), program, false);
  }
}
