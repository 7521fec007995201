/** The elementary steps of the mutable state, each simulating its reference result. */
module WorldSteps {
  import opened Programs
  import opened Effects
  import opened Orders
  import opened Reference
  import opened ReferenceLaws
  import opened Contexts
  import opened Databases
  import opened Worlds

  // Steps that touch no transaction.

  lemma {:induction false} SimulatesIdle(w: World, w': World, outcome: Outcome, log: seq<Entry>)
    requires Consistent(w)
    requires w' == w.(clock := w'.clock, errors := w'.errors, marked := w'.marked, log := w.log + log)
    ensures Simulates(w, w', Result(outcome, ScopeOf(w'), [], log))
  {
    forall d | d in w'.entries ensures Entered(w', d) {
      assert Entered(w, d);
    }
    forall h | 0 <= h < |w.lists| ensures StepAt(w, w', h, []) {
      StepAtNothing(w, w', h);
    }
  }

  lemma {:induction false} SimulatesNothing(w: World, outcome: Outcome)
    requires Consistent(w)
    ensures Simulates(w, w, Quiet(outcome, ScopeOf(w)))
  {
    assert w.log + [] == w.log;
    SimulatesIdle(w, w, outcome, []);
  }

  // Steps on one visible transaction.

  lemma {:induction false} OneEffect(e: Effect, d: DataSource)
    ensures Rows([e], d) == RowsOf(e, d) && forall phase :: Hooks([e], d, phase) == HookOf(e, d, phase)
  {
    assert [e][1..] == [];
  }

  function Inserted(w: World, d: DataSource, row: Row): World
    requires d in w.entries && w.entries[d].handle < |w.sessions|
  {
    var h := w.entries[d].handle;
    w.(sessions := w.sessions[h := w.sessions[h].(rows := w.sessions[h].rows + [row])])
  }

  function Push(lists: HookLists, phase: Phase, hook: Program): HookLists {
    match phase
    case BeforeCommit => lists.(beforeCommit := lists.beforeCommit + [hook])
    case AfterCommit => lists.(afterCommit := lists.afterCommit + [hook])
    case AfterRollback => lists.(afterRollback := lists.afterRollback + [hook])
  }

  function Pushed(w: World, d: DataSource, phase: Phase, hook: Program): World
    requires d in w.entries && w.entries[d].handle < |w.lists|
  {
    var h := w.entries[d].handle;
    w.(lists := w.lists[h := Push(w.lists[h], phase, hook)])
  }

  lemma {:induction false} SimulatesInsert(w: World, d: DataSource, row: Row)
    requires Consistent(w) && d in w.entries
    ensures Entered(w, d) && Simulates(w, Inserted(w, d, row), Result(Ok, ScopeOf(w), [Buffered(d, row)], []))
  {
    assert Entered(w, d);
    var w' := Inserted(w, d, row);
    assert w.log + [] == w.log;
    forall c | c in w'.entries ensures Entered(w', c) {
      assert Entered(w, c);
    }
    forall h | 0 <= h < |w'.sessions| ensures NamesBelow(w'.sessions[h], w'.names) {
      assert NamesBelow(w.sessions[h], w.names);
    }
    forall h | 0 <= h < |w.lists| ensures StepAt(w, w', h, [Buffered(d, row)]) {
      OneEffect(Buffered(d, row), w.lists[h].dataSource);
    }
  }

  lemma {:induction false} SimulatesPush(w: World, d: DataSource, phase: Phase, hook: Program)
    requires Consistent(w) && d in w.entries
    ensures Entered(w, d)
    ensures Simulates(w, Pushed(w, d, phase, hook), Result(Ok, ScopeOf(w), [Hooked(d, phase, hook)], []))
  {
    assert Entered(w, d);
    var w' := Pushed(w, d, phase, hook);
    assert w.log + [] == w.log;
    forall c | c in w'.entries ensures Entered(w', c) {
      assert Entered(w, c);
    }
    forall h | 0 <= h < |w.lists| ensures StepAt(w, w', h, [Hooked(d, phase, hook)]) {
      OneEffect(Hooked(d, phase, hook), w.lists[h].dataSource);
    }
  }

  // Suspending an entry and resuming it.

  function Suspended(w: World, d: DataSource): World {
    w.(order := Remove(w.order, d), entries := w.entries - {d})
  }

  function Resumed(w: World, d: DataSource, tx: ActiveTransaction): World {
    w.(order := w.order + [d], entries := w.entries[d := tx])
  }

  lemma {:induction false} SuspendedIsConsistent(w: World, d: DataSource)
    requires Consistent(w)
    ensures Consistent(Suspended(w, d)) && ScopeOf(Suspended(w, d)) == Suspend(ScopeOf(w), d)
  {
    RemoveOne(w.order, d);
    forall c | c in Suspended(w, d).entries ensures Entered(Suspended(w, d), c) {
      assert Entered(w, c);
    }
  }

  lemma {:induction false} ResumedIsConsistent(w: World, d: DataSource, tx: ActiveTransaction)
    requires Consistent(w) && d !in w.entries
    requires tx.dataSource == d && tx.handle < |w.lists| && w.lists[tx.handle].dataSource == d
    ensures Consistent(Resumed(w, d, tx))
  {
    var w' := Resumed(w, d, tx);
    DistinctAppend(w.order, d);
    forall c | c in w'.entries ensures Entered(w', c) {
      assert c != d ==> Entered(w, c);
    }
  }

  /** A step taken while the entry of `d` was suspended, seen from around it. */
  lemma {:induction false} SimulatesSuspended(w: World, w': World, d: DataSource, r: Result)
    requires Consistent(w) && d in w.entries
    requires Simulates(Suspended(w, d), w', r)
    requires forall e | e in r.effects :: e.dataSource != d
    ensures d !in w'.entries
    ensures Simulates(w, Resumed(w', d, w.entries[d]), Resume(r, d))
  {
    var v, w'' := Suspended(w, d), Resumed(w', d, w.entries[d]);
    var tx := w.entries[d];
    assert Entered(w, d);
    assert StepAt(v, w', tx.handle, r.effects) && !IsLive(v, tx.handle);
    ResumedIsConsistent(w', d, tx);
    assert w''.entries == w.entries;
    forall h | 0 <= h < |w.lists| ensures StepAt(w, w'', h, r.effects) {
      assert StepAt(v, w', h, r.effects);
      if h == tx.handle {
        NoEffects(r.effects, d, BeforeCommit);
        NoEffects(r.effects, d, AfterCommit);
        NoEffects(r.effects, d, AfterRollback);
        StepAtNothing(w, w, h);
      }
    }
  }

  // A whole transaction: BEGIN and a new entry, what runs inside, the entry removed.

  function NoHooks(d: DataSource): HookLists {
    HookLists(d, [], [], [])
  }

  function Opened(w: World, tx: ActiveTransaction): World {
    var d := tx.dataSource;
    Resumed(w, d, tx).(lists := w.lists + [NoHooks(d)], sessions := w.sessions + [Session([], [])],
                       log := w.log + [Began(|w.lists|, d)])
  }

  lemma {:induction false} OpenedIsConsistent(w: World, tx: ActiveTransaction)
    requires Consistent(w) && tx.handle == |w.lists| && tx.dataSource !in w.entries
    ensures Consistent(Opened(w, tx))
  {
    var d := tx.dataSource;
    var v := w.(lists := w.lists + [NoHooks(d)], sessions := w.sessions + [Session([], [])],
                log := w.log + [Began(|w.lists|, d)]);
    assert Consistent(v) by {
      forall c | c in v.entries ensures Entered(v, c) {
        assert Entered(w, c);
      }
    }
    ResumedIsConsistent(v, d, tx);
  }

  /** The callback ran to its end: `inside` describes it, and the transaction
      `handle`, no longer visible, holds its own rows and hooks. */
  ghost predicate InsideDone(w: World, w': World, inside: Result, handle: nat, d: DataSource) {
    && Simulates(w, w', Result(inside.outcome, Suspend(inside.scope, d), Without(inside.effects, d), inside.log))
    && handle == |w.lists| < |w'.lists|
    && !IsLive(w', handle)
    && ListsGrew(NoHooks(d), w'.lists[handle], inside.effects)
    && w'.sessions[handle].rows == Rows(inside.effects, d)
  }

  /** `r` happened between the opening of `tx` and `w'`; then its entry is removed. */
  lemma {:induction false} SimulatesClosed(w: World, w': World, tx: ActiveTransaction, r: Result)
    requires Consistent(w) && tx.handle == |w.lists| && tx.dataSource !in w.entries
    requires Simulates(Opened(w, tx), w', r)
    ensures var d := tx.dataSource;
            InsideDone(w, Suspended(w', d), Logged(Began(tx.handle, d), r), tx.handle, d)
  {
    var d, v := tx.dataSource, Opened(w, tx);
    var w'' := Suspended(w', d);
    SuspendedIsConsistent(w', d);
    assert StepAt(v, w', tx.handle, r.effects) && IsLive(v, tx.handle);
    assert w''.entries == w.entries;
    Associate(w.log, [Began(tx.handle, d)], r.log);
    forall h | 0 <= h < |w.lists| ensures StepAt(w, w'', h, Without(r.effects, d)) {
      assert StepAt(v, w', h, r.effects);
      assert v.lists[h] == w.lists[h] && v.sessions[h] == w.sessions[h];
      var c := w.lists[h].dataSource;
      WithoutKeepsOthers(r.effects, d, c, BeforeCommit);
      WithoutKeepsOthers(r.effects, d, c, AfterCommit);
      WithoutKeepsOthers(r.effects, d, c, AfterRollback);
    }
  }

  // A savepoint: established, then released or rolled back to.

  function Saved(w: World, handle: nat): World
    requires handle < |w.sessions|
  {
    var s := w.sessions[handle];
    w.(names := w.names + 1,
       sessions := w.sessions[handle := s.(savepoints := s.savepoints + [SavepointMark(w.names, |s.rows|)])])
  }

  lemma {:induction false} SavedIsConsistent(w: World, handle: nat)
    requires Consistent(w) && handle < |w.sessions|
    ensures Consistent(Saved(w, handle))
  {
    var v := Saved(w, handle);
    forall d | d in v.entries ensures Entered(v, d) {
      assert Entered(w, d);
    }
    forall h | 0 <= h < |v.sessions| ensures NamesBelow(v.sessions[h], v.names) {
      assert NamesBelow(w.sessions[h], w.names);
    }
  }

  /** The savepoint is found where it was established, and the buffer before it is intact. */
  lemma {:induction false} FindSaved(w: World, w': World, d: DataSource, r: Result)
    requires Consistent(w) && Entered(w, d)
    requires Simulates(Saved(w, w.entries[d].handle), w', r)
    ensures var h := w.entries[d].handle;
            var s, s' := w.sessions[h], w'.sessions[h];
            && Find(s'.savepoints, w.names) == |s.savepoints|
            && s'.savepoints[|s.savepoints|] == SavepointMark(w.names, |s.rows|)
            && s'.savepoints[..|s.savepoints|] == s.savepoints
            && s'.savepoints[..|s.savepoints| + 1] == s.savepoints + [SavepointMark(w.names, |s.rows|)]
            && |s.rows| <= |s'.rows| && s'.rows[..|s.rows|] == s.rows
  {
    var h := w.entries[d].handle;
    var v := Saved(w, h);
    var s, s' := v.sessions[h].savepoints, w'.sessions[h].savepoints;
    assert StepAt(v, w', h, r.effects) && IsLive(v, h);
    assert s == s'[..|s|];
    assert s'[|s| - 1] == SavepointMark(w.names, |w.sessions[h].rows|);
    var f := Find(s', w.names);
    assert |s| - 1 <= f < |s|;
  }

  lemma {:induction false} SimulatesReleased(w: World, w': World, d: DataSource, r: Result)
    requires Consistent(w) && Entered(w, d)
    requires Simulates(Saved(w, w.entries[d].handle), w', r)
    ensures var h := w.entries[d].handle;
            Simulates(w, w'.(sessions := w'.sessions[h := w'.sessions[h].(savepoints := w.sessions[h].savepoints)]), r)
  {
    var h := w.entries[d].handle;
    var v := Saved(w, h);
    var w'' := w'.(sessions := w'.sessions[h := w'.sessions[h].(savepoints := w.sessions[h].savepoints)]);
    SessionReplaced(w, w', h, w''.sessions[h]);
    forall g | 0 <= g < |w.lists| ensures StepAt(w, w'', g, r.effects) {
      assert StepAt(v, w', g, r.effects);
    }
  }

  lemma {:induction false} SimulatesRolledBackTo(w: World, w': World, d: DataSource, r: Result)
    requires Consistent(w) && Entered(w, d)
    requires Simulates(Saved(w, w.entries[d].handle), w', r)
    ensures var h := w.entries[d].handle;
            Simulates(w, w'.(sessions := w'.sessions[h := Saved(w, h).sessions[h]]),
                      r.(effects := WithoutRows(r.effects, d)))
  {
    var h := w.entries[d].handle;
    var v := Saved(w, h);
    var w'' := w'.(sessions := w'.sessions[h := v.sessions[h]]);
    SavedIsConsistent(w, h);
    assert NamesBelow(v.sessions[h], v.names);
    SessionReplaced(w, w', h, v.sessions[h]);
    forall g | 0 <= g < |w.lists| ensures StepAt(w, w'', g, WithoutRows(r.effects, d)) {
      assert StepAt(v, w', g, r.effects);
      var c := w.lists[g].dataSource;
      WithoutRowsKeepsOthers(r.effects, d, c, BeforeCommit);
      WithoutRowsKeepsOthers(r.effects, d, c, AfterCommit);
      WithoutRowsKeepsOthers(r.effects, d, c, AfterRollback);
      assert w.sessions[g].rows + [] == w.sessions[g].rows;
    }
  }

  lemma {:induction false} SessionReplaced(w: World, w': World, h: nat, s: Session)
    requires Consistent(w) && Consistent(w') && h < |w.lists| <= |w'.lists| && w.names <= w'.names
    requires NamesBelow(s, w'.names) || s.savepoints == w.sessions[h].savepoints
    ensures Consistent(w'.(sessions := w'.sessions[h := s]))
  {
    var w'' := w'.(sessions := w'.sessions[h := s]);
    assert NamesBelow(w.sessions[h], w.names);
    forall d | d in w''.entries ensures Entered(w'', d) {
      assert Entered(w', d);
    }
    forall g | 0 <= g < |w''.sessions| ensures NamesBelow(w''.sessions[g], w''.names) {
      assert NamesBelow(w'.sessions[g], w'.names);
    }
  }

  // Combining steps.

  lemma {:induction false} SequenceOfQuiet(r: Result, s: Scope, outcome: Outcome)
    ensures Sequence(Quiet(outcome, s), r) == r
    ensures Sequence(r, Quiet(outcome, s)) == r.(outcome := outcome, scope := s)
  {
    assert [] + r.effects == r.effects && r.effects + [] == r.effects;
    assert [] + r.log == r.log && r.log + [] == r.log;
  }

  lemma {:induction false} SequenceIsAssociative(a: Result, b: Result, c: Result)
    ensures Sequence(Sequence(a, b), c) == Sequence(a, Sequence(b, c))
  {
    Associate(a.effects, b.effects, c.effects);
    Associate(a.log, b.log, c.log);
  }

  lemma {:induction false} SimulatesAfterIdle(w: World, w': World, w'': World, r: Result)
    requires Simulates(w, w', Quiet(Ok, ScopeOf(w'))) && Simulates(w', w'', r)
    ensures Simulates(w, w'', r)
  {
    SimulatesSequence(w, w', w'', Quiet(Ok, ScopeOf(w')), r);
    SequenceOfQuiet(r, ScopeOf(w'), Ok);
  }

  lemma {:induction false} SimulatesBeforeIdle(w: World, w': World, w'': World, r: Result)
    requires Simulates(w, w', r) && Simulates(w', w'', Quiet(Ok, ScopeOf(w'')))
    ensures Simulates(w, w'', r.(scope := ScopeOf(w'')))
  {
    SimulatesSequence(w, w', w'', r, Quiet(Ok, ScopeOf(w'')));
    SequenceOfQuiet(r, ScopeOf(w''), r.outcome);
  }

  /** A log entry, then the step. */
  lemma {:induction false} SimulatesLogged(w: World, w': World, w'': World, entry: Entry, r: Result)
    requires Consistent(w) && w' == w.(log := w.log + [entry])
    requires Simulates(w', w'', r)
    ensures Simulates(w, w'', Logged(entry, r))
  {
    SimulatesIdle(w, w', Ok, [entry]);
    SimulatesSequence(w, w', w'', Result(Ok, ScopeOf(w'), [], [entry]), r);
    assert [] + r.effects == r.effects;
  }

  /** What follows the callback: `ending` in the log, then the after-phase hooks. */
  function Ending(outcome: Outcome, s: Scope, ending: Entry, hooks: Result): Result {
    Result(outcome, s, hooks.effects, [ending] + hooks.log)
  }

  lemma {:induction false} SimulatesFinished(w: World, w1: World, w2: World, w': World, d: DataSource, inside: Result,
                                             handle: nat, outcome: Outcome, s: Scope, ending: Entry, hooks: Result)
    requires InsideDone(w, w1, inside, handle, d)
    requires Simulates(w1, w2, Quiet(Ok, ScopeOf(w2)))
    requires Simulates(w2, w', Ending(outcome, s, ending, hooks))
    ensures Simulates(w, w', Result(outcome, s, Without(inside.effects, d) + hooks.effects,
                                    inside.log + [ending] + hooks.log))
  {
    var r := Result(inside.outcome, Suspend(inside.scope, d), Without(inside.effects, d), inside.log);
    SimulatesBeforeIdle(w, w1, w2, r);
    SimulatesSequence(w, w2, w', r.(scope := ScopeOf(w2)), Ending(outcome, s, ending, hooks));
    Associate(inside.log, [ending], hooks.log);
  }

  lemma {:induction false} HookFits(hooks: seq<Program>, i: nat)
    requires i < |hooks|
    ensures Size(hooks[i]) + QueueSize(hooks[i + 1..]) == QueueSize(hooks[i..]) <= QueueSize(hooks)
  {
    if i > 0 {
      HookFits(hooks[1..], i - 1);
      assert hooks[1..][i - 1..] == hooks[i..] && hooks[1..][i..] == hooks[i + 1..];
    }
  }
}
