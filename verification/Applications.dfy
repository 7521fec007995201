/** A whole application program on the transaction manager, in the terms of what an
    observer of the databases sees. */
module Applications {
  import opened Programs
  import opened Orders
  import opened Reference
  import opened ReferenceLaws
  import opened Stories
  import opened Worlds
  import opened Managers

  /** What was appended to `before`. */
  function Since(log: seq<Entry>, before: seq<Entry>): seq<Entry>
    requires |before| <= |log|
  {
    log[|before|..]
  }

  lemma SimulationIsObserved(w: World, w': World, p: Program, env: Environment)
    requires Simulates(w, w', Eval(p, env, ScopeOf(w)))
    ensures |w.log| <= |w'.log| && w'.log == w.log + Since(w'.log, w.log)
    ensures Since(w'.log, w.log) == Eval(p, env, ScopeOf(w)).log
    ensures w'.entries == w.entries && SameMembers(w'.order, w.order)
    ensures Orderly(Since(w'.log, w.log), |w.lists|, |w'.lists|)
    ensures forall h: nat :: Endings(Since(w'.log, w.log), h) == if |w.lists| <= h < |w'.lists| then 1 else 0
  {
    hide Orderly, Eval;
    var r := Eval(p, env, ScopeOf(w));
    assert Since(w.log + r.log, w.log) == r.log;
    TidyEval(p, env, ScopeOf(w));
    OrderlyEval(p, env, ScopeOf(w));
    forall h: nat ensures Endings(r.log, h) == if |w.lists| <= h < |w'.lists| then 1 else 0 {
      EachEndsOnce(p, env, ScopeOf(w), h);
    }
  }

  /** However the program ends, the active transactions are those it found, and each
      transaction it began has lived wholly: its BEGIN, its before-commit hooks in
      order, one COMMIT or ROLLBACK, and the after-phase hooks of that ending. */
  method RunApplication(manager: TransactionManager, p: Program) returns (out: Outcome)
    requires manager.Valid()
    modifies manager, manager.context, manager.database
    ensures manager.Valid() && manager.SameStore(old(manager.context.store))
    ensures out == Eval(p, manager.env, old(manager.S())).outcome
    ensures manager.context.entries == old(manager.context.entries)
    ensures SameMembers(manager.context.order, old(manager.context.order))
    ensures |old(manager.database.log)| <= |manager.database.log|
    ensures var log := Since(manager.database.log, old(manager.database.log));
            && manager.database.log == old(manager.database.log) + log
            && log == Eval(p, manager.env, old(manager.S())).log
            && Orderly(log, |old(manager.lists)|, |manager.lists|)
            && forall h: nat :: Endings(log, h) == if |old(manager.lists)| <= h < |manager.lists| then 1 else 0
  {
    hide Orderly, Eval, Simulates, Consistent, SameMembers;
    ghost var w := manager.W();
    out := manager.Exec(p);
    SimulationIsObserved(w, manager.W(), p, manager.env);
  }
}
