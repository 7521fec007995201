/** The whole mutable state as one value, and what it means that a step from one
    state to another is described by a result of the reference semantics. */
module Worlds {
  import opened Programs
  import opened Effects
  import opened Orders
  import opened Reference
  import opened Contexts
  import opened Databases

  /** The mutable part of an `ActiveTransaction`, with the dataSource it belongs to. */
  datatype HookLists = HookLists(
    dataSource: DataSource,
    beforeCommit: seq<Program>,
    afterCommit: seq<Program>,
    afterRollback: seq<Program>)

  /** `order` and `entries` are the active-transaction map; `lists` and `sessions`
      hold every transaction ever begun, by handle. */
  datatype World = World(
    order: seq<DataSource>,
    entries: map<DataSource, ActiveTransaction>,
    lists: seq<HookLists>,
    sessions: seq<Session>,
    names: nat,
    clock: nat,
    errors: nat,
    marked: set<Identity>,
    log: seq<Entry>)

  function ScopeOf(w: World): Scope {
    Scope(w.order, w.clock, w.errors, |w.lists|, w.marked)
  }

  predicate Entered(w: World, d: DataSource) {
    && d in w.entries
    && w.entries[d].dataSource == d
    && w.entries[d].handle < |w.lists|
    && w.lists[w.entries[d].handle].dataSource == d
  }

  predicate NamesBelow(s: Session, names: nat) {
    forall k | 0 <= k < |s.savepoints| :: s.savepoints[k].name < names
  }

  /** The map's entries are transactions of their own dataSources, and savepoint
      names are fresh. */
  ghost predicate Consistent(w: World) {
    && |w.lists| == |w.sessions|
    && Distinct(w.order)
    && (forall d :: d in w.entries <==> d in w.order)
    && (forall d | d in w.entries :: Entered(w, d))
    && (forall h | 0 <= h < |w.sessions| :: NamesBelow(w.sessions[h], w.names))
  }

  predicate IsLive(w: World, handle: nat)
    requires handle < |w.lists|
  {
    var d := w.lists[handle].dataSource;
    d in w.entries && w.entries[d].handle == handle
  }

  ghost predicate ListsGrew(before: HookLists, after: HookLists, effects: seq<Effect>) {
    var d := before.dataSource;
    after == HookLists(d,
                       before.beforeCommit + Hooks(effects, d, BeforeCommit),
                       before.afterCommit + Hooks(effects, d, AfterCommit),
                       before.afterRollback + Hooks(effects, d, AfterRollback))
  }

  /** The buffer grew by the rows of `d`; savepoints left behind are younger than `names`. */
  predicate SessionGrew(before: Session, after: Session, effects: seq<Effect>, d: DataSource, names: nat) {
    && after.rows == before.rows + Rows(effects, d)
    && before.savepoints <= after.savepoints
    && forall k | |before.savepoints| <= k < |after.savepoints| :: names <= after.savepoints[k].name
  }

  /** A visible transaction received exactly its own effects; another, nothing. */
  ghost predicate StepAt(w: World, w': World, h: nat, effects: seq<Effect>)
    requires h < |w.lists| <= |w'.lists| && |w.lists| == |w.sessions| && |w'.lists| == |w'.sessions|
  {
    if IsLive(w, h)
    then ListsGrew(w.lists[h], w'.lists[h], effects)
         && SessionGrew(w.sessions[h], w'.sessions[h], effects, w.lists[h].dataSource, w.names)
    else w'.lists[h] == w.lists[h] && w'.sessions[h] == w.sessions[h]
  }

  /** The step from `w` to `w'` does what `r` says: the map ends with the same
      entries, in the order of `r`; each transaction received exactly its own
      effects; the log grew by `r.log`. */
  ghost predicate Simulates(w: World, w': World, r: Result) {
    && Consistent(w) && Consistent(w')
    && ScopeOf(w') == r.scope
    && w'.entries == w.entries
    && |w.lists| <= |w'.lists|
    && w.names <= w'.names
    && w'.log == w.log + r.log
    && forall h | 0 <= h < |w.lists| :: StepAt(w, w', h, r.effects)
  }

  lemma Associate<T>(a: seq<T>, b: seq<T>, c: seq<T>)
    ensures (a + b) + c == a + (b + c)
  {
  }

  lemma {:induction false} ListsGrewSequence(a: HookLists, b: HookLists, c: HookLists, first: seq<Effect>,
                                             second: seq<Effect>)
    requires ListsGrew(a, b, first) && ListsGrew(b, c, second)
    ensures ListsGrew(a, c, first + second)
  {
    var d := a.dataSource;
    HooksAppend(first, second, d, BeforeCommit);
    HooksAppend(first, second, d, AfterCommit);
    HooksAppend(first, second, d, AfterRollback);
    Associate(a.beforeCommit, Hooks(first, d, BeforeCommit), Hooks(second, d, BeforeCommit));
    Associate(a.afterCommit, Hooks(first, d, AfterCommit), Hooks(second, d, AfterCommit));
    Associate(a.afterRollback, Hooks(first, d, AfterRollback), Hooks(second, d, AfterRollback));
  }

  lemma {:induction false} SessionGrewSequence(a: Session, b: Session, c: Session, d: DataSource, first: seq<Effect>,
                                               second: seq<Effect>, names: nat, names': nat)
    requires names <= names'
    requires SessionGrew(a, b, first, d, names) && SessionGrew(b, c, second, d, names')
    ensures SessionGrew(a, c, first + second, d, names)
  {
    RowsAppend(first, second, d);
    Associate(a.rows, Rows(first, d), Rows(second, d));
    forall k | |a.savepoints| <= k < |c.savepoints| ensures names <= c.savepoints[k].name {
      if k < |b.savepoints| {
        assert c.savepoints[k] == b.savepoints[k];
      }
    }
  }

  lemma {:induction false} StepAtNothing(w: World, w': World, h: nat)
    requires h < |w.lists| && |w.lists| == |w.sessions| && w'.lists == w.lists && w'.sessions == w.sessions
    ensures StepAt(w, w', h, [])
  {
    assert w.lists[h].beforeCommit + [] == w.lists[h].beforeCommit;
    assert w.lists[h].afterCommit + [] == w.lists[h].afterCommit;
    assert w.lists[h].afterRollback + [] == w.lists[h].afterRollback;
    assert w.sessions[h].rows + [] == w.sessions[h].rows;
  }

  lemma {:induction false} SimulatesSequence(w: World, w': World, w'': World, first: Result, second: Result)
    requires Simulates(w, w', first) && Simulates(w', w'', second)
    ensures Simulates(w, w'', Sequence(first, second))
  {
    Associate(w.log, first.log, second.log);
    forall h | 0 <= h < |w.lists| ensures StepAt(w, w'', h, first.effects + second.effects) {
      assert StepAt(w, w', h, first.effects) && StepAt(w', w'', h, second.effects);
      if IsLive(w, h) {
        ListsGrewSequence(w.lists[h], w'.lists[h], w''.lists[h], first.effects, second.effects);
        SessionGrewSequence(w.sessions[h], w'.sessions[h], w''.sessions[h], w.lists[h].dataSource,
                            first.effects, second.effects, w.names, w'.names);
      }
    }
  }
}
