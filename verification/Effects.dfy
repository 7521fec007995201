/** What a piece of a program leaves on the transactions that enclose it. */
module Effects {
  import opened Programs

  datatype Effect =
    | Buffered(dataSource: DataSource, row: Row)
    | Hooked(dataSource: DataSource, phase: Phase, hook: Program)

  function RowsOf(e: Effect, d: DataSource): seq<Row> {
    if e.Buffered? && e.dataSource == d then [e.row] else []
  }

  function HookOf(e: Effect, d: DataSource, phase: Phase): seq<Program> {
    if e.Hooked? && e.dataSource == d && e.phase == phase then [e.hook] else []
  }

  /** The rows written through the transaction on `d`, in order. */
  function Rows(effects: seq<Effect>, d: DataSource): seq<Row> {
    if effects == [] then [] else RowsOf(effects[0], d) + Rows(effects[1..], d)
  }

  /** The hooks pushed onto one list of the transaction on `d`, in order. */
  function Hooks(effects: seq<Effect>, d: DataSource, phase: Phase): seq<Program> {
    if effects == [] then [] else HookOf(effects[0], d, phase) + Hooks(effects[1..], d, phase)
  }

  /** Everything but what concerns `d`: what outlives the transaction on `d`. */
  function Without(effects: seq<Effect>, d: DataSource): seq<Effect> {
    if effects == [] then []
    else (if effects[0].dataSource == d then [] else [effects[0]]) + Without(effects[1..], d)
  }

  /** Everything but the rows of `d`: what outlives a rollback to a savepoint on `d`. */
  function WithoutRows(effects: seq<Effect>, d: DataSource): seq<Effect> {
    if effects == [] then []
    else (if effects[0].Buffered? && effects[0].dataSource == d then [] else [effects[0]])
         + WithoutRows(effects[1..], d)
  }

  lemma RowsAppend(a: seq<Effect>, b: seq<Effect>, d: DataSource)
    ensures Rows(a + b, d) == Rows(a, d) + Rows(b, d)
  {
    if a == [] {
      assert a + b == b;
    } else {
      assert (a + b)[1..] == a[1..] + b;
      RowsAppend(a[1..], b, d);
    }
  }

  lemma HooksAppend(a: seq<Effect>, b: seq<Effect>, d: DataSource, phase: Phase)
    ensures Hooks(a + b, d, phase) == Hooks(a, d, phase) + Hooks(b, d, phase)
  {
    if a == [] {
      assert a + b == b;
    } else {
      assert (a + b)[1..] == a[1..] + b;
      HooksAppend(a[1..], b, d, phase);
    }
  }

  lemma WithoutAppend(a: seq<Effect>, b: seq<Effect>, d: DataSource)
    ensures Without(a + b, d) == Without(a, d) + Without(b, d)
  {
    if a == [] {
      assert a + b == b;
    } else {
      assert (a + b)[1..] == a[1..] + b;
      WithoutAppend(a[1..], b, d);
    }
  }

  /** A transaction's end removes its own effects and no other's. */
  lemma WithoutKeepsOthers(effects: seq<Effect>, d: DataSource, c: DataSource, phase: Phase)
    ensures Rows(Without(effects, d), c) == if c == d then [] else Rows(effects, c)
    ensures Hooks(Without(effects, d), c, phase) == if c == d then [] else Hooks(effects, c, phase)
  {
    if effects != [] {
      var head := if effects[0].dataSource == d then [] else [effects[0]];
      WithoutKeepsOthers(effects[1..], d, c, phase);
      RowsAppend(head, Without(effects[1..], d), c);
      HooksAppend(head, Without(effects[1..], d), c, phase);
    }
  }

  /** A rollback to a savepoint on `d` removes the rows of `d` and keeps every hook. */
  lemma WithoutRowsKeepsOthers(effects: seq<Effect>, d: DataSource, c: DataSource, phase: Phase)
    ensures Rows(WithoutRows(effects, d), c) == if c == d then [] else Rows(effects, c)
    ensures Hooks(WithoutRows(effects, d), c, phase) == Hooks(effects, c, phase)
  {
    if effects != [] {
      var head := if effects[0].Buffered? && effects[0].dataSource == d then [] else [effects[0]];
      WithoutRowsKeepsOthers(effects[1..], d, c, phase);
      RowsAppend(head, WithoutRows(effects[1..], d), c);
      HooksAppend(head, WithoutRows(effects[1..], d), c, phase);
    }
  }

  // Sizes of the hooks left behind: the budget that makes the live hook loops end.

  function HookSize(effects: seq<Effect>): nat {
    if effects == [] then 0
    else (if effects[0].Hooked? then Size(effects[0].hook) else 0) + HookSize(effects[1..])
  }

  /** The size of all hooks except the before-commit hooks of `d`. */
  function OtherHookSize(effects: seq<Effect>, d: DataSource): nat {
    HookSize(Without(effects, d)) + QueueSize(Hooks(effects, d, AfterCommit))
      + QueueSize(Hooks(effects, d, AfterRollback))
  }

  lemma HookSizeAppend(a: seq<Effect>, b: seq<Effect>)
    ensures HookSize(a + b) == HookSize(a) + HookSize(b)
  {
    if a == [] {
      assert a + b == b;
    } else {
      assert (a + b)[1..] == a[1..] + b;
      HookSizeAppend(a[1..], b);
    }
  }

  lemma OtherHookSizeAppend(a: seq<Effect>, b: seq<Effect>, d: DataSource)
    ensures OtherHookSize(a + b, d) == OtherHookSize(a, d) + OtherHookSize(b, d)
  {
    WithoutAppend(a, b, d);
    HookSizeAppend(Without(a, d), Without(b, d));
    HooksAppend(a, b, d, AfterCommit);
    HooksAppend(a, b, d, AfterRollback);
    QueueSizeAppend(Hooks(a, d, AfterCommit), Hooks(b, d, AfterCommit));
    QueueSizeAppend(Hooks(a, d, AfterRollback), Hooks(b, d, AfterRollback));
  }

  lemma HookSizeSplitOne(e: Effect, d: DataSource)
    ensures HookSize([e]) == OtherHookSize([e], d) + QueueSize(Hooks([e], d, BeforeCommit))
  {
    assert Without([e], d) == if e.dataSource == d then [] else [e];
    forall phase ensures Hooks([e], d, phase) == HookOf(e, d, phase) {
      assert [e][1..] == [];
    }
    assert e.Hooked? ==> QueueSize([e.hook]) == Size(e.hook);
  }

  lemma HookSizeSplit(effects: seq<Effect>, d: DataSource)
    ensures HookSize(effects) == OtherHookSize(effects, d) + QueueSize(Hooks(effects, d, BeforeCommit))
  {
    if effects != [] {
      var head, tail := [effects[0]], effects[1..];
      assert effects == head + tail;
      HookSizeSplitOne(effects[0], d);
      HookSizeSplit(tail, d);
      HookSizeAppend(head, tail);
      OtherHookSizeAppend(head, tail, d);
      HooksAppend(head, tail, d, BeforeCommit);
      QueueSizeAppend(Hooks(head, d, BeforeCommit), Hooks(tail, d, BeforeCommit));
    }
  }

  lemma WithoutRowsHookSize(effects: seq<Effect>, d: DataSource)
    ensures HookSize(WithoutRows(effects, d)) == HookSize(effects)
  {
    if effects != [] {
      var head := if effects[0].Buffered? && effects[0].dataSource == d then [] else [effects[0]];
      HookSizeAppend(head, WithoutRows(effects[1..], d));
    }
  }
}
