/** `trackPending`: the before-commit hook that makes COMMIT wait for writes that
    nobody awaits. The world settles promises in any order, at any time. */
module Drains {
  import opened Wrappers

  type PromiseId = nat

  /** Before it settles, promise `p` tracks the promises `tracks[p]`; those of
      `rejects` settle by rejecting. */
  datatype Promises = Promises(tracks: map<PromiseId, set<PromiseId>>, rejects: set<PromiseId>)

  /** What a before-commit hook does, step by step: it tracks promises and pushes
      further hooks, and may throw. */
  datatype Act = Track(promise: PromiseId) | Push(hook: Work)

  datatype Work = Done | Throw | Do(act: Act, rest: Work)

  datatype BeforeHook = Drain | Other(work: Work)

  function WorkSize(w: Work): nat {
    if !w.Do? then 0 else (if w.act.Track? then 1 else 2 + WorkSize(w.act.hook)) + WorkSize(w.rest)
  }

  function Tracks(w: Work): set<PromiseId> {
    if !w.Do? then {}
    else (if w.act.Track? then {w.act.promise} else {}) + Tracks(w.rest)
  }

  predicate Throws(w: Work) {
    w.Throw? || (w.Do? && Throws(w.rest))
  }

  /** Every promise a hook, or a hook it pushes, may track. */
  function Mentions(w: Work): set<PromiseId> {
    if !w.Do? then {}
    else (if w.act.Track? then {w.act.promise} else Mentions(w.act.hook)) + Mentions(w.rest)
  }

  function QueueSize(queue: seq<BeforeHook>): nat {
    if queue == [] then 0
    else (if queue[0].Drain? then 1 else 2 + WorkSize(queue[0].work)) + QueueSize(queue[1..])
  }

  function Drains(queue: seq<BeforeHook>): nat {
    if queue == [] then 0 else (if queue[0].Drain? then 1 else 0) + Drains(queue[1..])
  }

  lemma {:induction false} QueueAppend(queue: seq<BeforeHook>, h: BeforeHook)
    ensures QueueSize(queue + [h]) == QueueSize(queue) + (if h.Drain? then 1 else 2 + WorkSize(h.work))
    ensures Drains(queue + [h]) == Drains(queue) + (if h.Drain? then 1 else 0)
  {
    if queue == [] {
      assert queue + [h] == [h] && [h][1..] == [];
    } else {
      assert (queue + [h])[1..] == queue[1..] + [h];
      QueueAppend(queue[1..], h);
    }
  }

  /** The queue after a hook: its pushes at the end, and the drain hook where it
      first tracks something. */
  function Queued(queue: seq<BeforeHook>, armed: bool, w: Work): seq<BeforeHook>
    decreases w
  {
    if !w.Do? then queue
    else
      match w.act
      case Track(_) => Queued(if armed then queue else queue + [Drain], true, w.rest)
      case Push(hook) => Queued(queue + [Other(hook)], armed, w.rest)
  }

  /** Everything the hooks of a queue track themselves. */
  function AllTracks(queue: seq<BeforeHook>): set<PromiseId> {
    if queue == [] then {}
    else
      var last := queue[|queue| - 1];
      AllTracks(queue[..|queue| - 1]) + (if last.Drain? then {} else Tracks(last.work))
  }

  // What a set of promises leads to.

  function Children(w: Promises, from: set<PromiseId>): set<PromiseId> {
    set p, c | p in from && p in w.tracks && c in w.tracks[p] :: c
  }

  ghost predicate Closed(w: Promises, s: set<PromiseId>) {
    Children(w, s) <= s
  }

  ghost predicate Exists(w: Promises, s: set<PromiseId>) {
    s <= w.tracks.Keys
  }

  /** The least closed set around `from`: all that tracking ever leads to. */
  ghost function Closure(w: Promises, from: set<PromiseId>): (all: set<PromiseId>)
    requires Exists(w, from) && Closed(w, w.tracks.Keys)
    ensures from <= all && Closed(w, all) && Exists(w, all)
    decreases w.tracks.Keys - from
  {
    var next := from + Children(w, from);
    if next == from then from
    else
      assert Children(w, from) <= Children(w, w.tracks.Keys);
      assert w.tracks.Keys - next < w.tracks.Keys - from by {
        var p :| p in next && p !in from;
        assert p in w.tracks.Keys - from && p !in w.tracks.Keys - next;
      }
      Closure(w, next)
  }

  lemma {:induction false} ClosureIsLeast(w: Promises, from: set<PromiseId>, other: set<PromiseId>)
    requires Exists(w, from) && Closed(w, w.tracks.Keys) && from <= other && Closed(w, other)
    ensures Closure(w, from) <= other
    decreases w.tracks.Keys - from
  {
    var next := from + Children(w, from);
    if next != from {
      assert Children(w, from) <= Children(w, other);
      assert Children(w, from) <= Children(w, w.tracks.Keys);
      assert w.tracks.Keys - next < w.tracks.Keys - from by {
        var p :| p in next && p !in from;
        assert p in w.tracks.Keys - from && p !in w.tracks.Keys - next;
      }
      ClosureIsLeast(w, next, other);
    }
  }

  lemma ClosureContains(w: Promises, from: set<PromiseId>)
    requires Exists(w, from) && Closed(w, w.tracks.Keys)
    ensures from <= Closure(w, from)
  {
  }

  ghost predicate QueueExists(w: Promises, queue: seq<BeforeHook>) {
    forall i | 0 <= i < |queue| && queue[i].Other? :: Exists(w, Mentions(queue[i].work))
  }

  lemma HookExists(w: Promises, queue: seq<BeforeHook>, i: nat)
    requires QueueExists(w, queue) && i < |queue| && queue[i].Other?
    ensures Exists(w, Mentions(queue[i].work))
  {
  }

  /** What the hooks behind the drain hook track: too late for it. */
  function Late(queue: seq<BeforeHook>): set<PromiseId> {
    if queue == [] then {}
    else
      var last := queue[|queue| - 1];
      if last.Drain? || Drains(queue[..|queue| - 1]) == 0 then {}
      else Late(queue[..|queue| - 1]) + Tracks(last.work)
  }

  /** What the hooks before the drain hook track. */
  function Early(queue: seq<BeforeHook>): set<PromiseId> {
    if queue == [] then {}
    else
      var last, before := queue[|queue| - 1], queue[..|queue| - 1];
      Early(before) + if Drains(before) == 0 && last.Other? then Tracks(last.work) else {}
  }

  lemma {:induction false} QueuedGrows(queue: seq<BeforeHook>, armed: bool, w: Work, k: nat)
    requires k <= |queue|
    ensures queue <= Queued(queue, armed, w)
    ensures QueueSize(Queued(queue, armed, w)[k..]) <= QueueSize(queue[k..]) + WorkSize(w)
    decreases w
  {
    if w.Do? {
      var h := if w.act.Track? then Drain else Other(w.act.hook);
      var queue' := if w.act.Track? && armed then queue else queue + [h];
      QueueAppend(queue[k..], h);
      assert (queue + [h])[k..] == queue[k..] + [h];
      QueuedGrows(queue', armed || w.act.Track?, w.rest, k);
    }
  }

  /** The queue when the live loop has run all of it from `i` on, up to a hook that
      throws: each hook's pushes at the end, in turn. */
  function Grown(queue: seq<BeforeHook>, i: nat, armed: bool): (grown: seq<BeforeHook>)
    ensures queue <= grown
    decreases if i < |queue| then QueueSize(queue[i..]) else 0, |queue| - i
  {
    if i >= |queue| then queue
    else
      assert queue[i..][1..] == queue[i + 1..];
      match queue[i]
      case Drain => Grown(queue, i + 1, armed)
      case Other(work) =>
        QueuedGrows(queue, armed, work, i + 1);
        if Throws(work) then Queued(queue, armed, work)
        else Grown(Queued(queue, armed, work), i + 1, armed || Tracks(work) != {})
  }

  /** Some hook of the queue throws. */
  predicate SomeThrows(queue: seq<BeforeHook>) {
    exists i :: 0 <= i < |queue| && HookThrows(queue[i])
  }

  predicate HookThrows(h: BeforeHook) {
    h.Other? && Throws(h.work)
  }

  lemma LateNext(queue: seq<BeforeHook>, i: nat)
    requires i < |queue|
    ensures Drains(queue[..i + 1]) == Drains(queue[..i]) + (if queue[i].Drain? then 1 else 0)
    ensures Late(queue[..i + 1]) == if queue[i].Drain? || Drains(queue[..i]) == 0 then {}
                                    else Late(queue[..i]) + Tracks(queue[i].work)
    ensures AllTracks(queue[..i + 1]) == AllTracks(queue[..i]) + if queue[i].Drain? then {} else Tracks(queue[i].work)
    ensures Early(queue[..i + 1]) ==
            Early(queue[..i]) + if Drains(queue[..i]) == 0 && queue[i].Other? then Tracks(queue[i].work) else {}
  {
    assert queue[..i + 1] == queue[..i] + [queue[i]];
    assert queue[..i + 1][..i] == queue[..i];
    QueueAppend(queue[..i], queue[i]);
  }

  lemma {:induction false} DrainsSplit(queue: seq<BeforeHook>, i: nat)
    requires i <= |queue|
    ensures Drains(queue) == Drains(queue[..i]) + Drains(queue[i..])
  {
    if i > 0 {
      DrainsSplit(queue[1..], i - 1);
      assert queue[1..][..i - 1] == queue[..i][1..] && queue[1..][i - 1..] == queue[i..];
    }
  }

  /** Behind a drain hook nothing is early. */
  lemma {:induction false} EarlyEnds(queue: seq<BeforeHook>, i: nat)
    requires i <= |queue| && Drains(queue[..i]) > 0
    ensures Early(queue) == Early(queue[..i])
  {
    if i < |queue| {
      var before := queue[..|queue| - 1];
      assert before[..i] == queue[..i];
      DrainsSplit(before, i);
      EarlyEnds(before, i);
    } else {
      assert queue[..i] == queue;
    }
  }

  lemma NothingLate(queue: seq<BeforeHook>)
    requires Drains(queue) == 0
    ensures Late(queue) == {}
  {
    if queue != [] {
      DrainsSplit(queue, |queue| - 1);
    }
  }

  lemma {:induction false} TracksAreMentioned(work: Work)
    ensures Tracks(work) <= Mentions(work)
  {
    if work.Do? {
      TracksAreMentioned(work.rest);
    }
  }

  lemma {:induction false} EarlyExists(w: Promises, queue: seq<BeforeHook>)
    requires QueueExists(w, queue)
    ensures Exists(w, Early(queue))
  {
    hide Mentions, Drains, Tracks;
    if queue != [] {
      var last, before := queue[|queue| - 1], queue[..|queue| - 1];
      EarlyExists(w, before);
      if last.Other? {
        HookExists(w, queue, |queue| - 1);
        TracksAreMentioned(last.work);
      }
    }
  }

  lemma NothingYet()
    ensures Early([]) == {} && AllTracks([]) == {} && Late([]) == {} && Drains([]) == 0
  {
  }

  lemma SameFront<T>(a: seq<T>, b: seq<T>, n: nat)
    requires n <= |a| && n <= |b| && a[..n] == b[..n]
    ensures forall j | 0 <= j < n :: a[j] == b[j]
  {
    forall j | 0 <= j < n ensures a[j] == b[j] {
      assert a[..n][j] == b[..n][j];
    }
  }

  /** What lies between a set and its closure leads to the same. */
  lemma ClosureBetween(w: Promises, base: set<PromiseId>, s: set<PromiseId>, more: set<PromiseId>)
    requires Exists(w, base) && Exists(w, s) && Exists(w, more) && Closed(w, w.tracks.Keys)
    requires base <= s <= Closure(w, base)
    ensures Closure(w, s + more) == Closure(w, base + more)
  {
    ClosureIsLeast(w, base, Closure(w, base + more));
    ClosureIsLeast(w, s + more, Closure(w, base + more));
    ClosureIsLeast(w, base + more, Closure(w, s + more));
  }

  class PendingWork {
    const world: Promises
    /** The entry of `pending` for the transaction, once something was tracked. */
    var pending: Option<set<PromiseId>>
    var beforeCommit: seq<BeforeHook>
    var settled: set<PromiseId>
    /** Every promise tracked so far. */
    var tracked: set<PromiseId>
    ghost var next: nat
    /** What was tracked when the drain hook returned. */
    ghost var covered: set<PromiseId>
    /** The batch the drain hook is awaiting. */
    ghost var awaiting: set<PromiseId>

    constructor (world: Promises)
      requires Closed(world, world.tracks.Keys)
      ensures Valid() && this.world == world && pending == None && beforeCommit == [] && next == 0
      ensures tracked == {} && settled == {} && covered == {} && awaiting == {}
    {
      this.world := world;
      pending, beforeCommit, settled, tracked := None, [], {}, {};
      next, covered, awaiting := 0, {}, {};
    }

    ghost function Undrained(): set<PromiseId>
      reads this
    {
      if pending.Some? then pending.value else {}
    }

    /** One drain hook, from the first promise on; what has settled has tracked
        what it tracks; what the drain hook covered has fulfilled, and everything
        tracked but not covered is awaited or in the pending set. */
    ghost predicate Valid()
      reads this
    {
      && Closed(world, world.tracks.Keys)
      && next <= |beforeCommit|
      && Drains(beforeCommit) == (if pending.Some? then 1 else 0)
      && Exists(world, tracked) && settled <= tracked
      && Children(world, settled) <= tracked
      && tracked == covered + awaiting + Undrained()
      && covered <= settled && covered !! world.rejects
    }

    method PushBefore(h: BeforeHook)
      requires next <= |beforeCommit|
      modifies this`beforeCommit
      ensures next <= |beforeCommit| && beforeCommit == old(beforeCommit) + [h]
      ensures Drains(beforeCommit) == Drains(old(beforeCommit)) + (if h.Drain? then 1 else 0)
      ensures QueueSize(beforeCommit[next..]) ==
              QueueSize(old(beforeCommit[next..])) + (if h.Drain? then 1 else 2 + WorkSize(h.work))
    {
      QueueAppend(beforeCommit, h);
      QueueAppend(beforeCommit[next..], h);
      assert (beforeCommit + [h])[next..] == beforeCommit[next..] + [h];
      beforeCommit := beforeCommit + [h];
    }

    method TrackPending(p: PromiseId)
      requires Valid() && p in world.tracks
      modifies this`pending, this`beforeCommit, this`tracked
      ensures Valid() && tracked == old(tracked) + {p}
      ensures pending == Some(old(Undrained()) + {p})
      ensures old(pending).Some? ==> beforeCommit == old(beforeCommit)
      ensures old(pending).None? ==> beforeCommit == old(beforeCommit) + [Drain]
      ensures QueueSize(beforeCommit[next..]) <= QueueSize(old(beforeCommit[next..])) + 1
    {
      if pending.None? {
        pending := Some({});
        PushBefore(Drain);
      }
      pending, tracked := Some(pending.value + {p}), tracked + {p};
    }

    /** Some promise settles, having tracked what it tracks. */
    method Settle(p: PromiseId)
      requires Valid() && p in tracked && p !in settled && pending.Some?
      modifies this`pending, this`tracked, this`settled
      ensures Valid() && pending.Some? && settled == old(settled) + {p}
      ensures tracked == old(tracked) + world.tracks[p] && Undrained() == old(Undrained()) + world.tracks[p]
    {
      assert world.tracks[p] <= Children(world, world.tracks.Keys);
      assert Children(world, settled + {p}) == Children(world, settled) + world.tracks[p];
      pending := Some(pending.value + world.tracks[p]);
      tracked, settled := tracked + world.tracks[p], settled + {p};
    }

    /** Time passes: any of the tracked promises may settle. */
    method Progress()
      requires Valid() && pending.Some?
      modifies this`pending, this`tracked, this`settled
      ensures Valid() && pending.Some? && old(Undrained()) <= Undrained()
      ensures old(tracked) <= tracked <= Closure(world, old(tracked))
      ensures old(tracked <= settled) ==> tracked == old(tracked) && settled == old(settled) && pending == old(pending)
    {
      ghost var from := tracked;
      ClosureContains(world, from);
      var more: bool := *;
      while more && !(tracked <= settled)
        invariant Valid() && pending.Some? && old(Undrained()) <= Undrained()
        invariant from <= tracked <= Closure(world, from)
        invariant old(tracked <= settled) ==>
                    tracked == old(tracked) && settled == old(settled) && pending == old(pending)
        decreases world.tracks.Keys - settled
      {
        SettleAny(from);
        more := *;
      }
    }

    /** The world picks the next promise to settle. */
    method SettleAny(ghost from: set<PromiseId>)
      requires Valid() && pending.Some? && !(tracked <= settled) && Exists(world, from)
               && tracked <= Closure(world, from)
      modifies this`pending, this`tracked, this`settled
      ensures Valid() && pending.Some? && old(tracked) <= tracked <= Closure(world, from)
      ensures old(settled) <= settled && old(Undrained()) <= Undrained()
      ensures world.tracks.Keys - settled < world.tracks.Keys - old(settled)
    {
      var p :| p in tracked && p !in settled;
      assert world.tracks[p] <= Children(world, Closure(world, from));
      Settle(p);
      assert p in world.tracks.Keys - old(settled) && p !in world.tracks.Keys - settled;
    }

    /** `Promise.all`: it rejects with the first rejection in the batch, and
        fulfills when the whole batch has. */
    method AwaitAll(batch: set<PromiseId>, ghost from: set<PromiseId>) returns (rejected: bool)
      requires Valid() && pending == Some({}) && awaiting == batch && Exists(world, from)
               && tracked <= Closure(world, from)
      modifies this`pending, this`tracked, this`settled, this`covered, this`awaiting
      ensures Valid() && pending.Some? && old(tracked) <= tracked <= Closure(world, from)
      ensures rejected ==> tracked * world.rejects != {}
      ensures !rejected ==> awaiting == {}
      ensures (settled == old(settled) && Undrained() == {})
              || world.tracks.Keys - settled < world.tracks.Keys - old(settled)
    {
      while !(batch <= settled) && batch * settled * world.rejects == {}
        invariant Valid() && pending.Some? && awaiting == batch
        invariant old(tracked) <= tracked <= Closure(world, from)
        invariant (settled == old(settled) && Undrained() == {})
                  || world.tracks.Keys - settled < world.tracks.Keys - old(settled)
        decreases world.tracks.Keys - settled
      {
        assert exists p :: p in batch && p !in settled;
        SettleAny(from);
      }
      rejected := batch * settled * world.rejects != {};
      if rejected {
        var p :| p in batch * settled * world.rejects;
        assert p in tracked * world.rejects;
      } else {
        covered, awaiting := covered + batch, {};
      }
    }

    /** The drain hook. In whatever order promises settle, it completes exactly when
        nothing the tracked promises lead to rejects, and then all of it has
        fulfilled. */
    method RunDrain() returns (rejected: bool)
      requires Valid() && pending.Some? && awaiting == {}
      modifies this`pending, this`tracked, this`settled, this`covered, this`awaiting
      ensures Valid() && pending.Some?
      ensures !rejected <==> Closure(world, old(tracked)) !! world.rejects
      ensures rejected ==> tracked * world.rejects != {}
      ensures old(tracked) <= tracked
      ensures !rejected ==> Undrained() == {} && awaiting == {}
      ensures !rejected ==> covered == tracked == Closure(world, old(tracked))
    {
      ghost var from := tracked;
      rejected := false;
      while pending.value != {} && !rejected
        invariant Valid() && pending.Some? && from <= tracked <= Closure(world, from)
        invariant if rejected then tracked * world.rejects != {} else awaiting == {}
        decreases world.tracks.Keys - settled, pending.value, !rejected
      {
        var batch := pending.value;
        pending, awaiting := Some({}), batch;
        rejected := AwaitAll(batch, from);
      }
      if rejected {
        var p :| p in tracked * world.rejects;
        assert p in Closure(world, from);
      } else {
        assert tracked == covered == settled;
        ClosureIsLeast(world, from, tracked);
      }
    }

    /** Another hook, step by step. */
    method RunWork(work: Work) returns (threw: bool)
      requires Valid() && Exists(world, Mentions(work)) && QueueExists(world, beforeCommit)
      modifies this`pending, this`beforeCommit, this`tracked
      ensures Valid() && QueueExists(world, beforeCommit)
      ensures tracked == old(tracked) + Tracks(work) && Undrained() == old(Undrained()) + Tracks(work)
      ensures beforeCommit == Queued(old(beforeCommit), old(pending).Some?, work)
      ensures old(beforeCommit) <= beforeCommit
      ensures QueueSize(beforeCommit[next..]) <= QueueSize(old(beforeCommit[next..])) + WorkSize(work)
      ensures pending.Some? == (old(pending).Some? || Tracks(work) != {})
      ensures threw == Throws(work)
      decreases work
    {
      if !work.Do? {
        return work.Throw?;
      }
      match work.act {
        case Track(p) =>
          assert p in Mentions(work);
          TrackPending(p);
        case Push(hook) =>
          PushBefore(Other(hook));
      }
      threw := RunWork(work.rest);
    }

    /** Up to hook `i`: before the drain hook has run nothing is covered; after it
        only late work is outstanding, and only if there is any. */
    ghost predicate UpTo(i: nat)
      requires i <= |beforeCommit|
      reads this
    {
      var done := beforeCommit[..i];
      && awaiting == {}
      && (Drains(done) == 0 ==> covered == {})
      && (Drains(done) > 0 ==>
            && pending.Some?
            && Late(done) <= Undrained()
            && (Late(done) == {} ==> Undrained() == {} && tracked <= settled))
    }

    /** One turn of the live loop: it fails where the drain hook rejects or another hook throws. */
    method RunHook(i: nat) returns (rejected: bool, threw: bool)
      requires Valid() && i == next < |beforeCommit| && QueueExists(world, beforeCommit) && UpTo(i)
      modifies this
      ensures Valid() && next == i + 1 <= |beforeCommit| && QueueExists(world, beforeCommit)
      ensures rejected ==> tracked * world.rejects != {}
      ensures threw <==> HookThrows(old(beforeCommit[i]))
      ensures !rejected && !threw ==> UpTo(i + 1)
      ensures Grown(old(beforeCommit), i, old(pending).Some?)
              == if threw then beforeCommit else Grown(beforeCommit, i + 1, pending.Some?)
      ensures old(beforeCommit[i]).Drain? ==> (rejected <==> !(Closure(world, old(tracked)) !! world.rejects))
      ensures old(beforeCommit[i]).Other? ==>
                var tracks := Tracks(old(beforeCommit[i]).work);
                && !rejected && Exists(world, tracks)
                && old(tracked) + tracks <= tracked <= Closure(world, old(tracked) + tracks)
      ensures AllTracks(old(beforeCommit[..i])) <= old(tracked) ==> AllTracks(beforeCommit[..i + 1]) <= tracked
      ensures beforeCommit[..i + 1] == old(beforeCommit[..i + 1])
      ensures QueueSize(beforeCommit[next..]) < QueueSize(old(beforeCommit[next..]))
    {
      hide QueueExists, Late, AllTracks, Tracks, Queued, Drains, Throws, Closure, Closed;
      var hook := beforeCommit[i];
      ghost var queue := beforeCommit;
      assert beforeCommit[next..][1..] == beforeCommit[next + 1..];
      LateNext(beforeCommit, i);
      DrainsSplit(beforeCommit, i + 1);
      next := next + 1;
      rejected, threw := false, false;
      if hook.Drain? {
        rejected := RunDrain();
      } else {
        HookExists(world, queue, i);
        threw := RunWork(hook.work);
      }
      assert beforeCommit[..i + 1] == queue[..i + 1];
      if !rejected && pending.Some? {
        Progress();
      }
    }

    /** After hook `i`, relative to what was tracked before the loop: up to the drain
        hook all comes from the early hooks, and the drain hook rejects for it. */
    ghost predicate Drained(i: nat, from: set<PromiseId>, rejected: bool)
      requires i <= |beforeCommit| && Closed(world, world.tracks.Keys)
      reads this
    {
      var base, begun := from + Early(beforeCommit[..i]), Drains(beforeCommit[..i]) > 0;
      && Exists(world, base)
      && (!begun ==> !rejected && base <= tracked <= Closure(world, base))
      && (begun ==> (rejected <==> !(Closure(world, base) !! world.rejects)))
    }

    /** One turn, for the verdict. */
    method RunHookDrained(i: nat, ghost from: set<PromiseId>) returns (rejected: bool, threw: bool)
      requires Valid() && i == next < |beforeCommit| && QueueExists(world, beforeCommit) && UpTo(i)
      requires Drained(i, from, false)
      modifies this
      ensures Valid() && next == i + 1 <= |beforeCommit| && QueueExists(world, beforeCommit)
      ensures beforeCommit[..i + 1] == old(beforeCommit[..i + 1])
      ensures rejected ==> tracked * world.rejects != {}
      ensures threw <==> HookThrows(old(beforeCommit[i]))
      ensures !rejected && !threw ==> UpTo(i + 1)
      ensures Drained(i + 1, from, rejected) && (rejected ==> Drains(beforeCommit[..i + 1]) > 0)
      ensures Grown(old(beforeCommit), i, old(pending).Some?)
              == if threw then beforeCommit else Grown(beforeCommit, i + 1, pending.Some?)
      ensures AllTracks(old(beforeCommit[..i])) <= old(tracked) ==> AllTracks(beforeCommit[..i + 1]) <= tracked
      ensures QueueSize(beforeCommit[next..]) < QueueSize(old(beforeCommit[next..]))
    {
      hide QueueExists, UpTo, QueueSize, Grown, Late, AllTracks, Closure, HookThrows;
      ghost var queue, before := beforeCommit, tracked;
      ghost var base := from + Early(queue[..i]);
      LateNext(queue, i);
      DrainsSplit(queue, i + 1);
      DrainsSplit(queue, i);
      rejected, threw := RunHook(i);
      DrainsSplit(beforeCommit, i + 1);
      assert base + {} == base && before + {} == before;
      if queue[i].Drain? {
        ClosureBetween(world, base, before, {});
        assert from + Early(beforeCommit[..i + 1]) == base;
      } else if Drains(queue[..i]) == 0 {
        ClosureBetween(world, base, before, Tracks(queue[i].work));
        assert from + Early(beforeCommit[..i + 1]) == base + Tracks(queue[i].work);
      } else {
        assert from + Early(beforeCommit[..i + 1]) == base;
      }
    }

    /** The live loop over the before-commit hooks. It fails exactly when a hook of the
        grown queue throws or something rejects that the promises tracked up to the drain
        hook lead to. When it completes, the queue is the grown one, and nothing
        tracked is left without having been awaited exactly when no hook behind the
        drain hook tracked. */
    method RunBeforeCommitHooks() returns (rejected: bool, threw: bool)
      requires Valid() && next == 0 && covered == {} && awaiting == {} && QueueExists(world, beforeCommit)
      modifies this
      ensures Valid()
      ensures var grown := Grown(old(beforeCommit), 0, old(pending).Some?);
              && Exists(world, old(tracked) + Early(grown))
              && (rejected || threw <==>
                    SomeThrows(grown) || !(Closure(world, old(tracked) + Early(grown)) !! world.rejects))
              && (threw ==> SomeThrows(grown))
              && (rejected ==> !(Closure(world, old(tracked) + Early(grown)) !! world.rejects))
              && (!rejected && !threw ==>
                    && beforeCommit == grown && AllTracks(grown) <= tracked && awaiting == {}
                    && (Late(grown) == {} <==> Undrained() == {})
                    && (Late(grown) == {} ==> tracked <= settled && tracked !! world.rejects))
      ensures rejected ==> tracked * world.rejects != {}
    {
      hide QueueExists, Closure, HookThrows, Late, AllTracks, Early, QueueSize;
      rejected, threw := false, false;
      ghost var from, grown := tracked, Grown(beforeCommit, 0, pending.Some?);
      var i := 0;
      assert beforeCommit[..0] == [];
      NothingYet();
      ClosureContains(world, from);
      assert from + {} == from;
      while i < |beforeCommit| && !rejected && !threw
        invariant Valid() && i == next <= |beforeCommit| && QueueExists(world, beforeCommit)
        invariant rejected ==> tracked * world.rejects != {}
        invariant !rejected && !threw ==> UpTo(i)
        invariant Drained(i, from, rejected) && (rejected ==> Drains(beforeCommit[..i]) > 0)
        invariant forall j | 0 <= j < i - 1 :: !HookThrows(beforeCommit[j])
        invariant threw <==> i > 0 && HookThrows(beforeCommit[i - 1])
        invariant grown == if threw then beforeCommit else Grown(beforeCommit, i, pending.Some?)
        invariant !rejected && !threw ==> AllTracks(beforeCommit[..i]) <= tracked
        decreases QueueSize(beforeCommit[next..]), !rejected && !threw
      {
        ghost var queue := beforeCommit;
        rejected, threw := RunHookDrained(i, from);
        SameFront(queue, beforeCommit, i + 1);
        i := i + 1;
      }
      assert beforeCommit[..|beforeCommit|] == beforeCommit;
      if rejected {
        assert grown[..i] == beforeCommit[..i];
        EarlyEnds(grown, i);
      } else if threw {
        EarlyExists(world, grown);
      } else if pending.None? {
        NothingLate(beforeCommit);
        ClosureIsLeast(world, {}, {});
        assert from + Early(grown) == {};
      }
    }
  }

  /** A hook behind the drain hook that tracks `p`: nothing waits for `p`. */
  lemma LateHook(p: PromiseId)
    ensures var grown := Grown([Drain, Other(Do(Track(p), Done))], 0, true);
            Late(grown) == {p} && Early(grown) == {} && p in AllTracks(grown) && !SomeThrows(grown)
  {
    var queue := [Drain, Other(Do(Track(p), Done))];
    assert Tracks(Do(Track(p), Done)) == {p} + Tracks(Done);
    assert Queued(queue, true, Do(Track(p), Done)) == queue;
    assert Grown(queue, 2, true) == queue;
    assert queue[..1] == [Drain] && queue[..1][..0] == [] && Drains([Drain]) == 1;
    assert Drains([Drain][1..]) == 0;
    assert !Throws(Done) && !HookThrows(Drain) && !HookThrows(queue[1]);
  }

  /** COMMIT goes ahead while a tracked write is still to reject. */
  method LateRejectionCommits() returns (work: PendingWork, rejected: bool, threw: bool)
    ensures fresh(work) && !rejected && !threw
    ensures exists p :: p in work.Undrained() && p in work.world.rejects
  {
    hide Late, Early, AllTracks, Grown;
    work := new PendingWork(Promises(map[0 := {}, 1 := {}], {1}));
    work.TrackPending(0);
    work.PushBefore(Other(Do(Track(1), Done)));
    assert work.beforeCommit == [Drain, Other(Do(Track(1), Done))];
    LateHook(1);
    ClosureIsLeast(work.world, {0}, {0});
    rejected, threw := work.RunBeforeCommitHooks();
  }
}
