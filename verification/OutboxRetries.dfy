/** Scheduled events of a retried run: an event object counts as scheduled once, so an
    attempt that rolled back takes it away from the next. */
module OutboxRetries {
  import opened Wrappers
  import opened Programs
  import opened Outboxes
  import opened OutboxBooks
  import opened OutboxLaws

  /** COMMIT of a callback without after-rollback hooks fails. */
  lemma {:induction false} CommitFails(w: Outside, s: State, o: Options, body: Script, c: Called,
                                       classes: set<ErrorClass>)
    requires s.txs == map[] && w.env.signal(s.bus.clock).Proceed? && c == CallbackIn(w, s, o.dataSource, body)
    requires w.env.signal(c.ran.state.bus.clock) == Fault(classes)
    requires c.ran.outcome.Fail? ==> !ShouldRollback(c.ran.outcome.error, o)
    requires o.dataSource in c.ran.state.txs && c.ran.state.txs[o.dataSource].afterRollback == []
    ensures var bus, r := c.ran.state.bus, TransactIn(w, s, o, body);
            var error := Object(Fresh(bus.errors), classes);
            && r.outcome == Fail(error) && r.state.txs == map[]
            && r.state.bus == bus.(clock := bus.clock + 1, errors := bus.errors + 1, marked := bus.marked + {error.id},
                                   finished := bus.finished + [Finished(o, c.ran.state.txs[o.dataSource], c.bodyEnded,
                                                                        c.ran.outcome, false)])
  {
    hide CallbackIn, AfterIn, RollBackIn, ShouldRollback;
    var d, size := o.dataSource, ScriptSize(body);
    var closed := Apart(c.ran.state, d);
    var failed := Raised(closed.(bus := closed.bus.(clock := closed.bus.clock + 1)), classes);
    var f := Finished(o, c.ran.state.txs[d], c.bodyEnded, c.ran.outcome, false);
    ClosedBudget(s, c.ran.state, d, size);
    assert closed.txs == map[];
    RollBackPlainly(w, s, failed.state, f, failed.outcome.error, size);
    assert TransactIn(w, s, o, body) == SettleIn(w, s, o, size, c);
    assert SettleIn(w, s, o, size, c) == RollBackIn(w, s, failed.state, f, failed.outcome.error, size);
  }

  lemma RollBackPlainly(w: Outside, before: State, s: State, f: Finished, error: Error, size: nat)
    requires f.tx.afterRollback == [] && error.Object? && Grew(before.txs, s.txs, size)
    ensures AfterSize(f.tx.afterRollback) == 0
    ensures RollBackIn(w, before, s, f, error, size)
            == Ran(s.(bus := s.bus.(finished := s.bus.finished + [f], marked := s.bus.marked + {error.id})),
                   Fail(error))
  {
  }

  /** An event object scheduled in an attempt that rolled back is not scheduled again in
      the next, which commits without it. */
  lemma {:induction false} RetriedEventIsLost(w: Outside, o: Options, e: Event, classes: set<ErrorClass>)
    requires e.externalized && CanBegin(o) && o.dataSource == w.home && w.refuses(0).None? && Attempts(o.retry) > 1
    requires w.env.misses(w.home).None? && w.env.signal(0).Proceed? && w.env.signal(1) == Fault(classes)
    requires w.env.signal(2).Proceed? && w.env.signal(3).Proceed? && Retryable(Object(Fresh(0), classes), o.retry)
    ensures var r := Perform(w, Start({}), Just(Within(o, Just(Schedule(e)))));
            var finished := r.state.bus.finished;
            && |finished| == 2 && finished[0].tx.accepted == [e] && !finished[0].committed
            && finished[1].committed && r.outcome == Ok && r.state.bus.durable == []
  {
    hide TransactIn, CallbackIn, AttemptIn, Perform, CanBegin, LoopIn, Retryable;
    var s, body, d, k := Start({}), Just(Schedule(e)), w.home, Attempts(o.retry);
    BeginsItsOwn(w, s, o, body);
    ScheduledCallback(w, s, e);
    FlushesOne(w, AfterSchedule(s, d, e), e);
    var c := CallbackIn(w, s, d, body);
    CommitFails(w, s, o, body, c, classes);
    var r := TransactIn(w, s, o, body);
    TriesAgain(w, s, k, o, body);
    RepeatedCallback(w, r.state, e);
    Commits(w, r.state, o, body, CallbackIn(w, r.state, d, body));
    OneAttempt(w, r.state, k - 1, o, body);
  }

  lemma TriesAgain(w: Outside, s: State, k: nat, o: Options, body: Script)
    requires o.dataSource !in s.txs && k > 1
    requires var r := TransactIn(w, s, o, body);
             && r.outcome.Fail? && r.outcome.error.Object? && r.outcome.error.id in r.state.bus.marked
             && Retryable(r.outcome.error, o.retry)
    ensures AttemptIn(w, s, k, o, body) == AttemptIn(w, TransactIn(w, s, o, body).state, k - 1, o, body)
  {
    hide TransactIn;
  }

  /** The callback throws an error that rolls back. */
  lemma {:induction false} CallbackRollsBack(w: Outside, s: State, o: Options, body: Script, c: Called)
    requires s.txs == map[] && w.env.signal(s.bus.clock).Proceed? && c == CallbackIn(w, s, o.dataSource, body)
    requires c.ran.outcome.Fail? && ShouldRollback(c.ran.outcome.error, o) && c.ran.outcome.error.Object?
    requires o.dataSource in c.ran.state.txs && c.ran.state.txs[o.dataSource].afterRollback == []
    ensures var bus, r := c.ran.state.bus, TransactIn(w, s, o, body);
            && r.outcome == c.ran.outcome && r.state.txs == map[]
            && r.state.bus == bus.(marked := bus.marked + {c.ran.outcome.error.id},
                                   finished := bus.finished + [Finished(o, c.ran.state.txs[o.dataSource], c.bodyEnded,
                                                                        c.ran.outcome, false)])
  {
    hide CallbackIn, AfterIn, RollBackIn, ShouldRollback;
    var d, size := o.dataSource, ScriptSize(body);
    var closed := Apart(c.ran.state, d);
    var f := Finished(o, c.ran.state.txs[d], c.bodyEnded, c.ran.outcome, false);
    ClosedBudget(s, c.ran.state, d, size);
    assert closed.txs == map[];
    RollBackPlainly(w, s, closed, f, c.ran.outcome.error, size);
    assert TransactIn(w, s, o, body) == SettleIn(w, s, o, size, c);
    assert SettleIn(w, s, o, size, c) == RollBackIn(w, s, closed, f, c.ran.outcome.error, size);
  }

  /** What the callback of a run that schedules `e` comes to: the event is added, or refused. */
  function AfterFlush(w: Outside, s: State, e: Event): Ran {
    PublishIn(w, Unbuffered(AfterSchedule(s, w.home, e), w.home), e, Flushed)
  }

  lemma {:induction false} SchedulingCallback(w: Outside, s: State, e: Event)
    requires s.txs == map[] && e.externalized && e !in s.bus.scheduled
    ensures CallbackIn(w, s, w.home, Just(Schedule(e))) == Called(Ok, AfterFlush(w, s, e))
  {
    hide PublishIn, CallbackIn, LoopIn;
    ScheduledCallback(w, s, e);
    FlushesOne(w, AfterSchedule(s, w.home, e), e);
  }

  /** The state in which the callback ends. */
  lemma {:induction false} FlushedState(w: Outside, s: State, e: Event)
    requires s.txs == map[]
    ensures var c := AfterFlush(w, s, e);
            && w.home in c.state.txs && c.state.bus.scheduled == s.bus.scheduled + {e}
            && c.state.bus.marked == s.bus.marked && c.state.bus.errors == s.bus.errors
            && c.state.bus.clock == s.bus.clock + 1 && c.state.bus.calls == s.bus.calls + 1
            && c.state.bus.durable == s.bus.durable && c.state.bus.finished == s.bus.finished
            && c.state.txs[w.home].accepted == [e] && c.state.txs[w.home].afterRollback == []
            && (match w.refuses(s.bus.calls)
                case None =>
                  c.outcome == Ok && c.state.txs[w.home].afterCommit == [Notify]
                  && c.state.txs[w.home].rows == [Message(e, Flushed)]
                case Some(error) => c.outcome == Fail(error) && c.state.txs[w.home].afterCommit == [])
  {
    assert [] + [Notify] == [Notify] && [] + [Message(e, Flushed)] == [Message(e, Flushed)];
  }

  // Whether the accepted events are durable when the run completes.

  /** Some error object is retried. */
  ghost predicate Retries(o: Options) {
    Attempts(o.retry) > 1 && exists error: Error :: error.Object? && Retryable(error, o.retry)
  }

  /** The events accepted by a transaction on `d` that is begun for `body`. */
  function AcceptedIn(w: Outside, s: State, d: DataSource, body: Script): set<Event>
    requires d !in s.txs
  {
    var c := CallbackIn(w, s, d, body);
    AffordableParts(s, c.ran.state, d, ScriptSize(body));
    set e | e in c.ran.state.txs[d].accepted
  }

  /** The events that the attempts of a run accept, each in its own transaction. */
  function AcceptedByAttempts(w: Outside, s: State, k: nat, o: Options, body: Script): set<Event>
    requires o.dataSource !in s.txs && 1 <= k
    decreases k
  {
    var r := TransactIn(w, s, o, body);
    (if w.env.signal(s.bus.clock).Proceed? then AcceptedIn(w, s, o.dataSource, body) else {})
    + (if Repeats(k, o, r) then AcceptedByAttempts(w, r.state, k - 1, o, body) else {})
  }

  /** If the run of `body` that starts in `s` completes, every event that any of its
      attempts accepted is durable. */
  ghost predicate AllLand(o: Options, w: Outside, s: State, body: Script)
    requires o.dataSource !in s.txs
  {
    var r := StartIn(w, s, o, body);
    r.outcome.Ok? ==>
      AcceptedByAttempts(w, s, Attempts(o.retry), o, body) <= set e | e in FlushedOf(r.state.bus.durable)
  }

  /** If a run that schedules `e`, and then does anything, completes, the event is durable. */
  ghost predicate Survives(o: Options, w: Outside, known: set<Event>, e: Event, rest: Script) {
    var r := Perform(w, Start(known), Just(Within(o, Do(Schedule(e), rest))));
    r.outcome.Ok? ==> e in FlushedOf(r.state.bus.durable)
  }

  lemma IsLast(w: Outside, s: State, k: nat, o: Options, body: Script)
    requires o.dataSource !in s.txs && 1 <= k && !Repeats(k, o, TransactIn(w, s, o, body))
    ensures AttemptIn(w, s, k, o, body) == TransactIn(w, s, o, body)
  {
    hide TransactIn;
  }

  lemma NotBegun(w: Outside, s: State, o: Options, body: Script, classes: set<ErrorClass>)
    requires o.dataSource !in s.txs && w.env.signal(s.bus.clock) == Fault(classes)
    ensures TransactIn(w, s, o, body).outcome == Fail(Object(Fresh(s.bus.errors), classes))
  {
  }

  lemma {:induction false} FlushedLasts(durable: seq<Message>, rows: seq<Message>, durable': seq<Message>)
    requires durable + rows <= durable'
    ensures forall e | e in FlushedOf(rows) :: e in FlushedOf(durable')
  {
    hide FlushedOf;
    var more := durable'[|durable + rows|..];
    assert durable' == durable + rows + more;
    FlushedConcat(durable + rows, more);
    FlushedConcat(durable, rows);
  }

  /** A transaction that completes has committed everything it accepted. */
  lemma {:induction false} CompletedLands(w: Outside, s: State, o: Options, body: Script, next: map<DataSource, nat>)
    requires Kept(w, s, next, {}) && o.dataSource !in s.txs && CanBegin(o)
    requires TransactIn(w, s, o, body).outcome.Ok?
    ensures AcceptedIn(w, s, o.dataSource, body)
            <= set e | e in FlushedOf(TransactIn(w, s, o, body).state.bus.durable)
  {
    hide Kept, Did, Books, CallbackIn, SettleIn, FlushedOf, CanBegin;
    var d := o.dataSource;
    match w.env.signal(s.bus.clock)
    case Fault(classes) => NotBegun(w, s, o, body, classes);
    case Proceed =>
      var c := CallbackIn(w, s, d, body);
      var left, last := CallbackDoes(w, s, d, body, next);
      SettleDoes(w, s, o, ScriptSize(body), c, next, left, last);
      FlushedLasts(c.ran.state.bus.durable, c.ran.state.txs[d].rows, TransactIn(w, s, o, body).state.bus.durable);
  }

  lemma {:induction false} UnretriedLands(o: Options, w: Outside, s: State, body: Script, next: map<DataSource, nat>)
    requires CanBegin(o) && !Retries(o) && Kept(w, s, next, {}) && o.dataSource !in s.txs
    ensures AllLand(o, w, s, body)
  {
    hide TransactIn, Kept, AcceptedIn, FlushedOf, Retryable;
    var k, r := Attempts(o.retry), TransactIn(w, s, o, body);
    assert !Repeats(k, o, r) && StartIn(w, s, o, body) == AttemptIn(w, s, k, o, body);
    IsLast(w, s, k, o, body);
    if r.outcome.Ok? {
      CompletedLands(w, s, o, body, next);
    }
  }

  /** What a body schedules first its own transaction accepts, whatever the rest does. */
  lemma {:induction false} FirstIsAccepted(w: Outside, s: State, e: Event, rest: Script, next: map<DataSource, nat>)
    requires Kept(w, s, next, {}) && w.home !in s.txs && e.externalized && e !in s.bus.scheduled
    ensures e in AcceptedIn(w, s, w.home, Do(Schedule(e), rest))
  {
    hide Kept, Did, Books, Perform, LoopIn, BeginIn, ScheduleIn, Grew, BeforeSize, Looped, FlushedOf;
    var d, body := w.home, Do(Schedule(e), rest);
    var s1, next1 := BeginIn(s, d), next[d := 0];
    BeginIsKept(w, s, d, next);
    var s2 := ScheduleIn(w, s1, e);
    ScheduledFirst(w, s, e);
    ScheduleDoes(w, s1, e, next1);
    DidKept(w, s1, s2, next1, {}, 0);
    var b := Perform(w, s2, rest);
    PerformDoes(w, s2, rest, next1);
    DidKept(w, s2, b.state, next1, {}, 0);
    DidLasts(w, s2, b.state, next1, {}, 0);
    PerformsFirst(w, s1, e, rest);
    if b.outcome.Ok? {
      assert b.state.txs[d].beforeCommit[0..] == b.state.txs[d].beforeCommit;
      var left, last := LoopFlushesAll(w, b.state, d, 0, next1);
      DidLasts(w, b.state, LoopIn(w, b.state, d, 0).state, next1[d := last], {d}, 0);
    }
  }

  lemma ScheduledFirst(w: Outside, s: State, e: Event)
    requires w.home !in s.txs && e.externalized && e !in s.bus.scheduled
    ensures var s2 := ScheduleIn(w, BeginIn(s, w.home), e);
            w.home in s2.txs && e in s2.txs[w.home].accepted
  {
  }

  lemma PerformsFirst(w: Outside, s: State, e: Event, rest: Script)
    ensures Perform(w, s, Do(Schedule(e), rest)) == Perform(w, ScheduleIn(w, s, e), rest)
  {
    hide ScheduleIn;
    assert ActIn(w, s, Schedule(e)) == Ran(ScheduleIn(w, s, e), Ok);
  }

  lemma StartIsKept(w: Outside, known: set<Event>)
    ensures Kept(w, Start(known), map[], {})
  {
  }

  /** A run from the start, as one of the runs of `AllLand`. */
  lemma {:induction false} RunFromStart(o: Options, w: Outside, known: set<Event>, e: Event, rest: Script)
    requires CanBegin(o) && w.home == o.dataSource && e.externalized && e !in known
    requires w.env.misses(w.home).None? && w.env.signal(0).Proceed?
    requires AllLand(o, w, Start(known), Do(Schedule(e), rest))
    ensures Survives(o, w, known, e, rest)
  {
    hide AttemptIn, Perform, TransactIn, AcceptedIn, FlushedOf;
    var s, body := Start(known), Do(Schedule(e), rest);
    BeginsItsOwn(w, s, o, body);
    StartIsKept(w, known);
    FirstIsAccepted(w, s, e, rest, map[]);
  }

  lemma {:induction false} UnretriedSurvives(o: Options, w: Outside, known: set<Event>, e: Event, rest: Script)
    requires CanBegin(o) && !Retries(o) && w.home == o.dataSource && e.externalized && e !in known
    ensures Survives(o, w, known, e, rest)
  {
    hide AttemptIn, TransactIn, Perform, CanBegin, Retryable, AllLand;
    var s, body := Start(known), Do(Schedule(e), rest);
    if w.env.misses(w.home).Some? {
      JustDoes(w, s, Within(o, body));
    } else {
      match w.env.signal(0)
      case Fault(classes) =>
        BeginsItsOwn(w, s, o, body);
        NotBegun(w, s, o, body, classes);
        IsLast(w, s, Attempts(o.retry), o, body);
      case Proceed =>
        StartIsKept(w, known);
        UnretriedLands(o, w, s, body, map[]);
        RunFromStart(o, w, known, e, rest);
    }
  }

  // Runs that lose an event when an error is retried.

  /** The same with a flush that is refused the first time. */
  lemma {:induction false} RefusedEventIsLost(w: Outside, o: Options, e: Event, error: Error)
    requires e.externalized && CanBegin(o) && o.dataSource == w.home && Attempts(o.retry) > 1
    requires w.env.misses(w.home).None? && forall k | 0 <= k < 3 :: w.env.signal(k).Proceed?
    requires w.refuses(0) == Some(error) && error.Object? && ShouldRollback(error, o) && Retryable(error, o.retry)
    ensures var r := Perform(w, Start({}), Just(Within(o, Just(Schedule(e)))));
            var finished := r.state.bus.finished;
            && |finished| == 2 && finished[0].tx.accepted == [e] && !finished[0].committed
            && finished[1].committed && r.outcome == Ok && r.state.bus.durable == []
  {
    hide TransactIn, CallbackIn, AttemptIn, Perform, CanBegin, AfterFlush, Retryable, ShouldRollback;
    var s, body, d, k := Start({}), Just(Schedule(e)), w.home, Attempts(o.retry);
    BeginsItsOwn(w, s, o, body);
    SchedulingCallback(w, s, e);
    FlushedState(w, s, e);
    CallbackRollsBack(w, s, o, body, CallbackIn(w, s, d, body));
    var r := TransactIn(w, s, o, body);
    TriesAgain(w, s, k, o, body);
    RepeatedCallback(w, r.state, e);
    Commits(w, r.state, o, body, CallbackIn(w, r.state, d, body));
    OneAttempt(w, r.state, k - 1, o, body);
  }

  /** A run, in a suspended transaction, of a body that schedules `e`. */
  lemma {:induction false} ApartRun(w: Outside, s: State, inner: Options, e: Event)
    requires w.home in s.txs && w.env.misses(w.home).None?
    requires inner == Options(w.home, REQUIRES_NEW, {}, {}, NoRetry)
    ensures var r := TransactIn(w, Apart(s, w.home), inner, Just(Schedule(e)));
            WithinIn(w, s, inner, Just(Schedule(e))) == Ran(Resumed(r.state, w.home, s.txs[w.home]), r.outcome)
  {
    hide TransactIn, Resumed;
    assert w.home !in Apart(s, w.home).txs;
    IsLast(w, Apart(s, w.home), 1, inner, Just(Schedule(e)));
  }

  /** The body that schedules `e` and then, in a transaction of its own, `other`. */
  function Nesting(home: DataSource, e: Event, other: Event): Script {
    Do(Schedule(e), Just(Within(Options(home, REQUIRES_NEW, {}, {}, NoRetry), Just(Schedule(other)))))
  }

  /** A transaction whose flush is refused rolls back. */
  lemma {:induction false} RefusedRun(w: Outside, s: State, o: Options, e: Event, error: Error)
    requires s.txs == map[] && o.dataSource == w.home && w.env.signal(s.bus.clock).Proceed?
    requires e.externalized && e !in s.bus.scheduled
    requires w.refuses(s.bus.calls) == Some(error) && error.Object? && ShouldRollback(error, o)
    ensures var r := TransactIn(w, s, o, Just(Schedule(e)));
            && r.outcome == Fail(error) && r.state.txs == map[] && r.state.bus.clock == s.bus.clock + 1
            && r.state.bus.marked == s.bus.marked + {error.id} && r.state.bus.scheduled == s.bus.scheduled + {e}
            && r.state.bus.durable == s.bus.durable
  {
    hide TransactIn, AfterFlush, CallbackIn, ShouldRollback;
    SchedulingCallback(w, s, e);
    FlushedState(w, s, e);
    CallbackRollsBack(w, s, o, Just(Schedule(e)), CallbackIn(w, s, w.home, Just(Schedule(e))));
  }

  /** The first time its inner flush is refused. */
  lemma {:induction false} FirstNesting(w: Outside, s: State, e: Event, other: Event, error: Error)
    requires s.txs == map[] && w.env.misses(w.home).None? && w.env.signal(s.bus.clock + 1).Proceed?
    requires e.externalized && other.externalized && e != other && e !in s.bus.scheduled && other !in s.bus.scheduled
    requires w.refuses(s.bus.calls) == Some(error) && error.Object?
    ensures var c := CallbackIn(w, s, w.home, Nesting(w.home, e, other));
            && c.bodyEnded == Fail(error) == c.ran.outcome && c.ran.state.txs == map[w.home := Scheduled(e)]
            && c.ran.state.bus.clock == s.bus.clock + 2 && c.ran.state.bus.marked == s.bus.marked + {error.id}
            && c.ran.state.bus.scheduled == s.bus.scheduled + {e, other} && c.ran.state.bus.durable == s.bus.durable
  {
    hide TransactIn, AfterFlush, CallbackIn, WithinIn;
    var d, inner, b' := w.home, Options(w.home, REQUIRES_NEW, {}, {}, NoRetry), Just(Schedule(other));
    var s1, s2 := BeginIn(s, d), AfterSchedule(s, d, e);
    var a := Apart(s2, d);
    assert a.txs == map[] && s2.txs == map[d := Scheduled(e)];
    SchedulesOne(w, s, e);
    PerformsFirst(w, s1, e, Just(Within(inner, b')));
    JustDoes(w, s2, Within(inner, b'));
    RefusedRun(w, a, inner, other, error);
    ApartRun(w, s2, inner, other);
    FailedCallback(w, s, d, Nesting(d, e, other));
  }

  lemma FailedCallback(w: Outside, s: State, d: DataSource, body: Script)
    requires d !in s.txs && Perform(w, BeginIn(s, d), body).outcome.Fail?
    ensures var b := Perform(w, BeginIn(s, d), body); CallbackIn(w, s, d, body) == Called(b.outcome, b)
  {
    hide Perform;
  }

  /** The second time it schedules nothing. */
  lemma {:induction false} AgainNesting(w: Outside, s: State, e: Event, other: Event)
    requires s.txs == map[] && w.env.misses(w.home).None? && e in s.bus.scheduled && other in s.bus.scheduled
    requires w.env.signal(s.bus.clock + 1).Proceed? && w.env.signal(s.bus.clock + 2).Proceed?
    ensures var c := CallbackIn(w, s, w.home, Nesting(w.home, e, other));
            && c.bodyEnded == Ok == c.ran.outcome && c.ran.state.txs == map[w.home := NewTx()]
            && c.ran.state.bus.clock == s.bus.clock + 3 && c.ran.state.bus.durable == s.bus.durable
  {
    hide TransactIn, CallbackIn, WithinIn;
    var d, inner, b' := w.home, Options(w.home, REQUIRES_NEW, {}, {}, NoRetry), Just(Schedule(other));
    var s1 := BeginIn(s, d);
    var a := Apart(s1, d);
    assert a.txs == map[] && s1.txs == map[d := NewTx()];
    PerformsFirst(w, s1, e, Just(Within(inner, b')));
    JustDoes(w, s1, Within(inner, b'));
    RepeatedCallback(w, a, other);
    Commits(w, a, inner, b', CallbackIn(w, a, d, b'));
    ApartRun(w, s1, inner, other);
    IdleCallback(w, s, d, Nesting(d, e, other));
  }

  lemma IdleCallback(w: Outside, s: State, d: DataSource, body: Script)
    requires d !in s.txs
    requires var b := Perform(w, BeginIn(s, d), body);
             b.outcome.Ok? && d in b.state.txs && b.state.txs[d].beforeCommit == []
    ensures var b := Perform(w, BeginIn(s, d), body); CallbackIn(w, s, d, body) == Called(Ok, Ran(b.state, Ok))
  {
    hide Perform;
    var b := Perform(w, BeginIn(s, d), body);
    assert LoopIn(w, b.state, d, 0) == Ran(b.state, Ok);
  }

  /** An error that does not roll back is retried where an inner transaction was rolled
      back for it: the attempt commits without its flush, and so does the next. */
  lemma {:induction false} ExemptedEventIsLost(w: Outside, o: Options, e: Event, other: Event, error: Error)
    requires CanBegin(o) && o.dataSource == w.home && Attempts(o.retry) > 1 && w.env.misses(w.home).None?
    requires e.externalized && other.externalized && e != other && forall k | 0 <= k < 7 :: w.env.signal(k).Proceed?
    requires w.refuses(0) == Some(error) && error.Object? && !ShouldRollback(error, o) && Retryable(error, o.retry)
    ensures var r := Perform(w, Start({}), Just(Within(o, Nesting(w.home, e, other))));
            r.outcome == Ok && r.state.bus.durable == []
  {
    hide TransactIn, CallbackIn, AttemptIn, Perform, CanBegin, Retryable, ShouldRollback, Nesting;
    var s, body, d, k := Start({}), Nesting(w.home, e, other), w.home, Attempts(o.retry);
    BeginsItsOwn(w, s, o, body);
    FirstNesting(w, s, e, other, error);
    Commits(w, s, o, body, CallbackIn(w, s, d, body));
    var r := TransactIn(w, s, o, body);
    TriesAgain(w, s, k, o, body);
    AgainNesting(w, r.state, e, other);
    Commits(w, r.state, o, body, CallbackIn(w, r.state, d, body));
    OneAttempt(w, r.state, k - 1, o, body);
  }

  /** A world in which a run completes without the event it scheduled first. */
  lemma {:induction false} SomeRunLoses(o: Options) returns (w: Outside, e: Event, rest: Script)
    requires CanBegin(o) && Retries(o)
    ensures w.home == o.dataSource && e.externalized && !Survives(o, w, {}, e, rest)
    ensures w.env.misses(w.home).None? && w.env.signal(0).Proceed?
  {
    hide CanBegin, ShouldRollback, Retryable, Perform;
    var error: Error :| error.Object? && Retryable(error, o.retry);
    w, e := Outside(Obliging(), o.dataSource, k => if k == 0 then Some(error) else None), Event(0, true);
    EmptyIsUnflushed();
    if ShouldRollback(error, o) {
      rest := Done;
      RefusedEventIsLost(w, o, e, error);
    } else {
      var other := Event(1, true);
      rest := Nesting(o.dataSource, e, other).rest;
      ExemptedEventIsLost(w, o, e, other, error);
    }
  }

  // Exactly when.

  /** An event that a run schedules first is durable when the run completes, in every
      world, whatever the run does then and whatever fails, if and only if the options
      retry no error object. */
  lemma {:induction false} SurvivesIff(o: Options)
    requires CanBegin(o)
    ensures (forall w: Outside, known, e: Event, rest: Script |
               w.home == o.dataSource && e.externalized && e !in known :: Survives(o, w, known, e, rest))
            <==> !Retries(o)
  {
    hide Survives, CanBegin, Retries;
    if Retries(o) {
      var w, e, rest := SomeRunLoses(o);
    } else {
      forall w: Outside, known, e: Event, rest: Script | w.home == o.dataSource && e.externalized && e !in known
        ensures Survives(o, w, known, e, rest)
      {
        UnretriedSurvives(o, w, known, e, rest);
      }
    }
  }

  /** All that a run's attempts accept, scheduled anywhere in the body or in the hooks, is
      durable when the run completes, wherever the run starts its transaction and
      whatever fails, if and only if the options retry no error object. */
  lemma {:induction false} AllLandIff(o: Options)
    requires CanBegin(o)
    ensures (forall w: Outside, s: State, next, body: Script |
               Kept(w, s, next, {}) && o.dataSource !in s.txs :: AllLand(o, w, s, body))
            <==> !Retries(o)
  {
    hide AllLand, CanBegin, Retries, Kept, Survives;
    if Retries(o) {
      var w, e, rest := SomeRunLoses(o);
      StartIsKept(w, {});
      if AllLand(o, w, Start({}), Do(Schedule(e), rest)) {
        RunFromStart(o, w, {}, e, rest);
      }
    } else {
      forall w: Outside, s: State, next, body: Script | Kept(w, s, next, {}) && o.dataSource !in s.txs
        ensures AllLand(o, w, s, body)
      {
        UnretriedLands(o, w, s, body, next);
      }
    }
  }
}
