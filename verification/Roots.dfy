/** Independently started root runs: each has a store of its own, and all share the
    manager's never-cleared set of the errors a transaction was rolled back for. */
module Roots {
  import opened Wrappers
  import opened Programs
  import opened Reference
  import opened Worlds
  import opened Machines
  import opened MachineRuns

  datatype Root = Root(env: Environment, program: Program)

  /** An error object: one that all roots may throw, or one made in one root. */
  datatype Mark = OfAll(n: nat) | OfRoot(root: nat, n: nat)

  datatype System = System(configs: seq<Config>, rolledBack: set<Mark>)

  function Tag(r: nat, id: Identity): Mark {
    match id
    case Shared(n) => OfAll(n)
    case Fresh(n) => OfRoot(r, n)
  }

  function Tags(r: nat, ids: set<Identity>): set<Mark> {
    set id | id in ids :: Tag(r, id)
  }

  /** Of the objects root `r` can throw, those in the shared set. */
  function Seen(rolledBack: set<Mark>, r: nat): set<Identity> {
    set m | m in rolledBack && (m.OfAll? || m.root == r) :: if m.OfAll? then Shared(m.n) else Fresh(m.n)
  }

  lemma SeenIsTagged(rolledBack: set<Mark>, r: nat, id: Identity)
    ensures id in Seen(rolledBack, r) <==> Tag(r, id) in rolledBack
  {
    if Tag(r, id) in rolledBack {
      var m := Tag(r, id);
      assert (if m.OfAll? then Shared(m.n) else Fresh(m.n)) == id;
    }
  }

  /** One step of root `r`; what it marks is marked for all. */
  ghost function Advance(roots: seq<Root>, sys: System, r: nat): System
    requires r < |roots| == |sys.configs|
  {
    var c := Step(roots[r].env, Seen(sys.rolledBack, r), sys.configs[r]);
    System(sys.configs[r := c], sys.rolledBack + Tags(r, c.world.marked))
  }

  predicate Schedules(roots: seq<Root>, schedule: seq<nat>) {
    forall i | 0 <= i < |schedule| :: schedule[i] < |roots|
  }

  /** All roots, each so far as `schedule` has given it turns. */
  ghost function Interleaved(roots: seq<Root>, schedule: seq<nat>): (sys: System)
    requires Schedules(roots, schedule)
    ensures |sys.configs| == |roots|
  {
    if schedule == []
    then System(seq(|roots|, r requires 0 <= r < |roots| => Initially(roots[r].program)), {})
    else
      var last := |schedule| - 1;
      Advance(roots, Interleaved(roots, schedule[..last]), schedule[last])
  }

  function Turns(schedule: seq<nat>, r: nat): nat {
    if schedule == [] then 0
    else Turns(schedule[..|schedule| - 1], r) + if schedule[|schedule| - 1] == r then 1 else 0
  }

  /** Root `root` after `n` steps with no other root beside it. */
  ghost function Alone(root: Root, n: nat): Config {
    Solo(root.env, Initially(root.program), n)
  }

  ghost predicate ActsAlone(roots: seq<Root>, schedule: seq<nat>)
    requires Schedules(roots, schedule)
  {
    forall r | 0 <= r < |roots| :: Interleaved(roots, schedule).configs[r] == Alone(roots[r], Turns(schedule, r))
  }

  /** `c` is at a retry decision that a mark on `id`, which it has not made itself,
      would turn into another attempt. */
  ghost predicate Tempted(c: Config, id: Identity) {
    && c.control.Decide? && c.control.left > 1
    && c.control.outcome.Fail? && c.control.outcome.error.Object?
    && c.control.outcome.error.id == id && id !in c.world.marked
    && Retryable(c.control.outcome.error, c.control.options.retry)
  }

  /** Alone, `marking` marks the shared object `x`, and `tempted` would retry on it. */
  ghost predicate Clash(marking: Root, tempted: Root, m: nat, n: nat, x: nat) {
    Shared(x) in Alone(marking, m).world.marked && Tempted(Alone(tempted, n), Shared(x))
  }

  /** A condition on the roots run alone, one by one. */
  ghost predicate Independent(roots: seq<Root>) {
    forall q, r, m: nat, n: nat, x: nat | 0 <= q < |roots| && 0 <= r < |roots| && q != r ::
      !Clash(roots[q], roots[r], m, n, x)
  }

  // Independent roots act as alone.

  lemma OnlyDecisionsLook(env: Environment, seen: set<Identity>, c: Config)
    requires c.world.marked <= seen && forall id | id in seen :: !Tempted(c, id)
    ensures Step(env, seen, c) == SoloStep(env, c)
  {
    if c.control.Decide? && c.control.outcome.Fail? && c.control.outcome.error.Object? {
      assert c.control.outcome.error.id in seen ==> !Tempted(c, c.control.outcome.error.id);
    }
  }

  ghost predicate MarkedBy(sys: System, q: nat, mark: Mark)
    requires q < |sys.configs|
  {
    mark in Tags(q, sys.configs[q].world.marked)
  }

  /** The shared set holds what the roots have marked, and nothing else. */
  ghost predicate Accounted(sys: System) {
    && (forall r | 0 <= r < |sys.configs| :: Tags(r, sys.configs[r].world.marked) <= sys.rolledBack)
    && (forall mark | mark in sys.rolledBack :: exists q :: 0 <= q < |sys.configs| && MarkedBy(sys, q, mark))
  }

  lemma MarksStay(env: Environment, seen: set<Identity>, c: Config)
    ensures c.world.marked <= Step(env, seen, c).world.marked
  {
  }

  lemma {:induction false} AdvanceAccounts(roots: seq<Root>, sys: System, r: nat)
    requires r < |roots| == |sys.configs| && Accounted(sys)
    ensures Accounted(Advance(roots, sys, r))
  {
    hide Step;
    var sys' := Advance(roots, sys, r);
    MarksStay(roots[r].env, Seen(sys.rolledBack, r), sys.configs[r]);
    forall mark | mark in sys'.rolledBack ensures exists q :: 0 <= q < |sys'.configs| && MarkedBy(sys', q, mark) {
      if mark in Tags(r, sys'.configs[r].world.marked) {
        assert MarkedBy(sys', r, mark);
      } else {
        var q :| 0 <= q < |sys.configs| && MarkedBy(sys, q, mark);
        assert MarkedBy(sys', q, mark);
      }
    }
  }

  lemma OwnMarksAreSeen(sys: System, r: nat)
    requires r < |sys.configs| && Accounted(sys)
    ensures sys.configs[r].world.marked <= Seen(sys.rolledBack, r)
  {
    forall id | id in sys.configs[r].world.marked ensures id in Seen(sys.rolledBack, r) {
      assert Tag(r, id) in Tags(r, sys.configs[r].world.marked);
      SeenIsTagged(sys.rolledBack, r, id);
    }
  }

  /** What another root has marked tempts no root. */
  lemma {:induction false} NothingTempts(roots: seq<Root>, schedule: seq<nat>, r: nat, id: Identity)
    requires r < |roots| && Schedules(roots, schedule) && Independent(roots) && ActsAlone(roots, schedule)
    requires var sys := Interleaved(roots, schedule); Accounted(sys) && id in Seen(sys.rolledBack, r)
    ensures !Tempted(Interleaved(roots, schedule).configs[r], id)
  {
    hide Alone, Interleaved;
    var sys := Interleaved(roots, schedule);
    SeenIsTagged(sys.rolledBack, r, id);
    var q :| 0 <= q < |sys.configs| && MarkedBy(sys, q, Tag(r, id));
    if q != r {
      assert !Clash(roots[q], roots[r], Turns(schedule, q), Turns(schedule, r), if id.Shared? then id.n else 0);
    }
  }

  lemma {:induction false} IndependentActAlone(roots: seq<Root>, schedule: seq<nat>)
    requires Independent(roots) && Schedules(roots, schedule)
    ensures ActsAlone(roots, schedule) && Accounted(Interleaved(roots, schedule))
    decreases |schedule|
  {
    hide Step, Independent, Tempted, Initially, Accounted;
    if schedule == [] {
      NothingYet(roots);
    } else {
      var before, r := schedule[..|schedule| - 1], schedule[|schedule| - 1];
      IndependentActAlone(roots, before);
      var sys := Interleaved(roots, before);
      AdvanceAccounts(roots, sys, r);
      OwnMarksAreSeen(sys, r);
      forall id | id in Seen(sys.rolledBack, r) ensures !Tempted(sys.configs[r], id) {
        NothingTempts(roots, before, r, id);
      }
      OnlyDecisionsLook(roots[r].env, Seen(sys.rolledBack, r), sys.configs[r]);
    }
  }

  lemma NothingYet(roots: seq<Root>)
    ensures ActsAlone(roots, []) && Accounted(Interleaved(roots, []))
  {
    var sys := Interleaved(roots, []);
    forall r | 0 <= r < |roots| ensures sys.configs[r] == Alone(roots[r], 0) {
    }
  }

  // Roots that clash do not.

  function Times(r: nat, n: nat): seq<nat> {
    if n == 0 then [] else Times(r, n - 1) + [r]
  }

  lemma {:induction false} TurnsAdd(a: seq<nat>, r: nat, n: nat, q: nat)
    ensures Turns(a + Times(r, n), q) == Turns(a, q) + if q == r then n else 0
  {
    if n == 0 {
      assert a + [] == a;
    } else {
      TurnsAdd(a, r, n - 1, q);
      var whole := a + Times(r, n);
      assert whole == (a + Times(r, n - 1)) + [r];
      assert whole[..|whole| - 1] == a + Times(r, n - 1);
    }
  }

  lemma {:induction false} SchedulesTimes(roots: seq<Root>, r: nat, n: nat)
    requires r < |roots|
    ensures Schedules(roots, Times(r, n))
  {
    if n > 0 {
      SchedulesTimes(roots, r, n - 1);
    }
  }

  /** After the marking steps of `q`, the decision of `r` goes another way than alone. */
  lemma {:induction false} ClashDiffers(roots: seq<Root>, q: nat, r: nat, m: nat, n: nat, x: nat)
    returns (schedule: seq<nat>)
    requires q < |roots| && r < |roots| && q != r && Clash(roots[q], roots[r], m, n, x)
    ensures Schedules(roots, schedule) && !ActsAlone(roots, schedule)
  {
    hide Alone, Interleaved, Advance;
    var before := Times(q, m) + Times(r, n);
    SchedulesTimes(roots, q, m);
    SchedulesTimes(roots, r, n);
    TurnsAdd([], q, m, q);
    TurnsAdd([], q, m, r);
    assert [] + Times(q, m) == Times(q, m);
    TurnsAdd(Times(q, m), r, n, q);
    TurnsAdd(Times(q, m), r, n, r);
    if ActsAlone(roots, before) {
      schedule := before + [r];
      TakesTheOtherWay(roots, before, q, r, n, x);
    } else {
      schedule := before;
    }
  }

  lemma TemptedDiffers(env: Environment, seen: set<Identity>, c: Config, id: Identity)
    requires Tempted(c, id) && id in seen
    ensures Step(env, seen, c).control.Try? && SoloStep(env, c).control.Give?
  {
  }

  lemma {:induction false} TakesTheOtherWay(roots: seq<Root>, before: seq<nat>, q: nat, r: nat, n: nat, x: nat)
    requires q < |roots| && r < |roots| && Schedules(roots, before) && ActsAlone(roots, before)
    requires Turns(before, r) == n && Tempted(Alone(roots[r], n), Shared(x))
    requires Shared(x) in Interleaved(roots, before).configs[q].world.marked
    ensures Schedules(roots, before + [r]) && !ActsAlone(roots, before + [r])
  {
    hide Step, Tempted, SoloStep;
    var sys, schedule := Interleaved(roots, before), before + [r];
    assert schedule[..|schedule| - 1] == before;
    BooksAreKept(roots, before);
    assert Tag(q, Shared(x)) in Tags(q, sys.configs[q].world.marked);
    SeenIsTagged(sys.rolledBack, r, Shared(x));
    assert Interleaved(roots, schedule) == Advance(roots, sys, r);
    assert Turns(schedule, r) == n + 1;
    assert Alone(roots[r], n + 1) == SoloStep(roots[r].env, Alone(roots[r], n));
    TemptedDiffers(roots[r].env, Seen(sys.rolledBack, r), sys.configs[r], Shared(x));
  }

  lemma {:induction false} BooksAreKept(roots: seq<Root>, schedule: seq<nat>)
    requires Schedules(roots, schedule)
    ensures Accounted(Interleaved(roots, schedule))
    decreases |schedule|
  {
    hide Advance, Accounted;
    if schedule == [] {
      NothingYet(roots);
    } else {
      var before, r := schedule[..|schedule| - 1], schedule[|schedule| - 1];
      BooksAreKept(roots, before);
      AdvanceAccounts(roots, Interleaved(roots, before), r);
    }
  }

  /** Every interleaving projects, for every root, onto that root's run alone, with the
      same map, rows, hooks, log and correlation ids, if and only if no root marks a
      shared error object that another one, alone, would commit with and could retry. */
  lemma {:induction false} IndependentIffAlone(roots: seq<Root>)
    ensures Independent(roots) <==> forall schedule | Schedules(roots, schedule) :: ActsAlone(roots, schedule)
  {
    hide ActsAlone, Clash;
    if Independent(roots) {
      forall schedule | Schedules(roots, schedule) ensures ActsAlone(roots, schedule) {
        IndependentActAlone(roots, schedule);
      }
    } else {
      var q, r, m: nat, n: nat, x: nat :|
        0 <= q < |roots| && 0 <= r < |roots| && q != r && Clash(roots[q], roots[r], m, n, x);
      var schedule := ClashDiffers(roots, q, r, m, n, x);
    }
  }

  /** Alone or among independent roots, a root that has had its turns has ended as the
      reference semantics says, and left its store. */
  ghost predicate Ended(root: Root, c: Config) {
    var first := Initially(root.program).world;
    var r := Eval(root.program, root.env, ScopeOf(first));
    && c.control == Give(r.outcome) && c.stack == [] && c.store == None
    && Simulates(first, c.world, r) && c.world.log == r.log
  }

  lemma EndsAlone(root: Root) returns (n: nat)
    ensures Ended(root, Alone(root, n))
  {
    hide Eval, Simulates, Solo, Initially;
    n := SoloIsReference(root.program, root.env);
  }

  lemma {:induction false} EndedStays(root: Root, n: nat, k: nat)
    requires Ended(root, Alone(root, n)) && n <= k
    ensures Ended(root, Alone(root, k))
    decreases k
  {
    if n < k {
      EndedStays(root, n, k - 1);
    }
  }

  lemma {:induction false} IndependentRootsEnd(roots: seq<Root>, r: nat) returns (n: nat)
    requires Independent(roots) && r < |roots|
    ensures forall schedule | Schedules(roots, schedule) && Turns(schedule, r) >= n ::
              Ended(roots[r], Interleaved(roots, schedule).configs[r])
  {
    hide Ended, Independent;
    n := EndsAlone(roots[r]);
    forall schedule | Schedules(roots, schedule) && Turns(schedule, r) >= n
      ensures Ended(roots[r], Interleaved(roots, schedule).configs[r])
    {
      IndependentActAlone(roots, schedule);
      EndedStays(roots[r], n, Turns(schedule, r));
    }
  }
}
