/** What the machines use of the states and steps: the parts of a simulation, the
    hook lists of a transaction, and the turns of the loops over them. */
module WorldParts {
  import opened Programs
  import opened Effects
  import opened Reference
  import opened Contexts
  import opened Worlds
  import opened WorldSteps

  function HooksOf(lists: HookLists, phase: Phase): seq<Program> {
    match phase
    case BeforeCommit => lists.beforeCommit
    case AfterCommit => lists.afterCommit
    case AfterRollback => lists.afterRollback
  }

  /** The state does not depend on what was thrown. */
  lemma SimulatesAnyOutcome(w: World, w': World, r: Result, outcome: Outcome)
    requires Simulates(w, w', r)
    ensures Simulates(w, w', r.(outcome := outcome))
  {
  }

  /** A finished transaction receives nothing any more. */
  lemma FinishedKeeps(w: World, w': World, handle: nat, r: Result)
    requires Simulates(w, w', r) && handle < |w.lists| && !IsLive(w, handle)
    ensures handle < |w'.lists| && w'.lists[handle] == w.lists[handle] && !IsLive(w', handle)
  {
    assert StepAt(w, w', handle, r.effects);
  }

  lemma AfterHooksStep(hooks: seq<Program>, i: nat, phase: Phase, handle: nat, env: Environment, r: Result, r': Result)
    requires i < |hooks| && r' == FireHook(hooks[i], phase, i, handle, env, r.scope)
    ensures Sequence(r, AfterHooks(hooks[i..], phase, i, handle, env, r.scope))
            == Sequence(Sequence(r, r'), AfterHooks(hooks[i + 1..], phase, i + 1, handle, env, Sequence(r, r').scope))
    ensures Sequence(r, r').scope == r'.scope
  {
    assert hooks[i..][1..] == hooks[i + 1..];
    SequenceIsAssociative(r, r', AfterHooks(hooks[i + 1..], phase, i + 1, handle, env, r'.scope));
  }

  lemma AfterHooksDone(hooks: seq<Program>, i: nat, phase: Phase, handle: nat, env: Environment, r: Result)
    requires hooks == []
    ensures Sequence(r, AfterHooks(hooks, phase, i, handle, env, r.scope)) == r.(outcome := Ok)
  {
    SequenceOfQuiet(r, r.scope, Ok);
  }

  lemma FirstIsEntered(w: World)
    requires Consistent(w)
    ensures w.order == [] || w.order[0] in w.entries
  {
    if w.order != [] {
      assert w.order[0] in w.order;
    }
  }

  lemma Parts(w: World)
    requires Consistent(w)
    ensures |w.lists| == |w.sessions|
  {
  }

  /** The callback, from the opening of its transaction to the removal of its slot. */
  lemma ClosedInside(w: World, w': World, tx: ActiveTransaction, body: Program, env: Environment)
    requires Consistent(w) && tx.handle == |w.lists| && tx.dataSource !in w.entries
    requires Simulates(Opened(w, tx), w', BodyAndHooks(tx.dataSource, body, tx.handle, env, ScopeOf(Opened(w, tx))))
    ensures var inside := Inside(tx.dataSource, body, env, ScopeOf(w));
            && inside.outcome == BodyAndHooks(tx.dataSource, body, tx.handle, env, ScopeOf(Opened(w, tx))).outcome
            && InsideDone(w, Suspended(w', tx.dataSource), inside, tx.handle, tx.dataSource)
  {
    SimulatesClosed(w, w', tx, BodyAndHooks(tx.dataSource, body, tx.handle, env, ScopeOf(Opened(w, tx))));
  }

  lemma EntryParts(w: World, d: DataSource)
    requires Consistent(w) && d in w.entries
    ensures Entered(w, d) && |w.lists| == |w.sessions|
  {
  }

  lemma SimulatesParts(w: World, w': World, r: Result)
    requires Simulates(w, w', r)
    ensures Consistent(w') && ScopeOf(w') == r.scope && w'.entries == w.entries
    ensures |w.lists| <= |w'.lists| == |w'.sessions|
  {
  }

  /** A transaction that starts without hooks holds those `r` pushed on it. */
  lemma FreshHooks(w: World, w': World, tx: ActiveTransaction, r: Result)
    requires Simulates(w, w', r) && tx.dataSource in w.entries && w.entries[tx.dataSource] == tx
    requires tx.handle < |w.lists| && w.lists[tx.handle] == NoHooks(tx.dataSource)
    ensures ScopeOf(w') == r.scope && w'.entries == w.entries && tx.handle < |w'.lists|
    ensures w'.lists[tx.handle].beforeCommit == Hooks(r.effects, tx.dataSource, BeforeCommit)
  {
    assert StepAt(w, w', tx.handle, r.effects);
    assert [] + Hooks(r.effects, tx.dataSource, BeforeCommit) == Hooks(r.effects, tx.dataSource, BeforeCommit);
  }

  /** The after-phase hooks of a finished transaction are those its callback left. */
  lemma OwnHooks(inside: Result, lists: HookLists, d: DataSource)
    requires ListsGrew(NoHooks(d), lists, inside.effects)
    ensures lists.afterCommit == Hooks(inside.effects, d, AfterCommit)
    ensures lists.afterRollback == Hooks(inside.effects, d, AfterRollback)
    ensures lists.beforeCommit == Hooks(inside.effects, d, BeforeCommit)
    ensures QueueSize(lists.afterCommit) <= OtherHookSize(inside.effects, d)
    ensures QueueSize(lists.afterRollback) <= OtherHookSize(inside.effects, d)
  {
    assert [] + Hooks(inside.effects, d, AfterCommit) == Hooks(inside.effects, d, AfterCommit);
  }

  /** One turn of the live loop: the hook at `index` ran as `r'`, and what it
      pushed on its own transaction is at the end of the queue. */
  lemma LoopStep(w: World, w': World, tx: ActiveTransaction, queue: seq<Program>, index: nat, r: Result, r': Result,
                 env: Environment)
    requires tx.dataSource in w.entries && w.entries[tx.dataSource] == tx && tx.handle < |w.lists|
    requires index < |queue| && queue == w.lists[tx.handle].beforeCommit
    requires r' == FireHook(queue[index], BeforeCommit, index, tx.handle, env, r.scope)
    requires Simulates(w, w', r')
    ensures tx.handle < |w'.lists| && index < |w'.lists[tx.handle].beforeCommit|
    ensures var whole := BeforeCommitLoop(queue[index..], index, tx.handle, tx.dataSource, env, r.scope);
            var left := w'.lists[tx.handle].beforeCommit[index + 1..];
            && QueueSize(left) < QueueSize(queue[index..])
            && Sequence(r, whole) ==
               if r'.outcome.Fail? then Sequence(r, r')
               else Sequence(Sequence(r, r'),
                             BeforeCommitLoop(left, index + 1, tx.handle, tx.dataSource, env, r'.scope))
  {
    var d := tx.dataSource;
    assert Entered(w, d);
    assert StepAt(w, w', tx.handle, r'.effects);
    var pushed := Hooks(r'.effects, d, BeforeCommit);
    assert w'.lists[tx.handle].beforeCommit == queue + pushed;
    assert (queue + pushed)[index + 1..] == queue[index..][1..] + pushed;
    HookFits(queue, index);
    HookSizeSplit(r'.effects, d);
    QueueSizeAppend(queue[index..][1..], pushed);
    SequenceIsAssociative(r, r',
      BeforeCommitLoop(queue[index..][1..] + pushed, index + 1, tx.handle, d, env, r'.scope));
  }
}
