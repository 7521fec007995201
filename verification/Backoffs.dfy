/** The default backoff: exponential from 10 ms, capped at 1 s, with full jitter. */
module Backoffs {

  const BASE: int := 10
  const CAP: int := 1000

  function Pow2(n: nat): (p: int)
    ensures p >= 1
  {
    if n == 0 then 1 else 2 * Pow2(n - 1)
  }

  /** The window of the wait after attempt `attempt`. */
  function Window(attempt: nat): (w: int)
    requires 1 <= attempt
    ensures 1 <= w <= CAP
  {
    var exponential := BASE * Pow2(attempt - 1);
    if exponential < CAP then exponential else CAP
  }

  predicate IsRandom(r: real) {
    0.0 <= r < 1.0
  }

  function Scaled(random: real, window: int): real {
    random * window as real
  }

  function DefaultDelay(attempt: nat, random: real): int
    requires 1 <= attempt
  {
    Scaled(random, Window(attempt)).Floor
  }

  lemma ScaledBelow(random: real, window: int)
    requires IsRandom(random) && 1 <= window
    ensures 0.0 <= Scaled(random, window) < window as real
  {
    var w := window as real;
    assert random * w >= 0.0 && (1.0 - random) * w > 0.0;
  }

  lemma RatioBelow(window: int)
    requires 1 <= window
    ensures var r := (window - 1) as real / window as real;
            IsRandom(r) && Scaled(r, window) == (window - 1) as real
  {
  }

  lemma FloorBelow(x: real, w: int)
    requires 0.0 <= x < w as real
    ensures 0 <= x.Floor < w
  {
    assert x.Floor as real <= x;
  }

  /** Each wait is a nonnegative integer below its window. */
  lemma DelayInWindow(attempt: nat, random: real)
    requires 1 <= attempt && IsRandom(random)
    ensures 0 <= DefaultDelay(attempt, random) < Window(attempt)
  {
    hide Scaled;
    ScaledBelow(random, Window(attempt));
    FloorBelow(Scaled(random, Window(attempt)), Window(attempt));
  }

  /** The window is 10 ms after the first attempt and doubles, up to 1000 ms. */
  lemma WindowDoubles(attempt: nat)
    requires 1 <= attempt
    ensures Window(1) == 10
    ensures Window(attempt + 1) == if 2 * Window(attempt) < 1000 then 2 * Window(attempt) else 1000
  {
    assert Pow2(attempt) == 2 * Pow2(attempt - 1);
  }

  /** The wait is the scaled draw, rounded down: each part of the draws that is one over
      the window wide has its own wait. */
  lemma DelayIsFloor(attempt: nat, random: real)
    requires 1 <= attempt && IsRandom(random)
    ensures var delay := DefaultDelay(attempt, random);
            delay as real <= random * Window(attempt) as real < (delay + 1) as real
  {
  }

  /** The draw with the longest wait. */
  lemma TopDraw(attempt: nat) returns (random: real)
    requires 1 <= attempt
    ensures IsRandom(random) && DefaultDelay(attempt, random) == Window(attempt) - 1
  {
    hide Scaled;
    var w := Window(attempt);
    random := (w - 1) as real / w as real;
    RatioBelow(w);
  }

  /** The wait between the first `attempts` attempts: the k-th draw follows attempt k. */
  function TotalWait(attempts: nat, draws: seq<real>): int
    requires |draws| + 1 >= attempts
  {
    if attempts <= 1 then 0 else TotalWait(attempts - 1, draws) + DefaultDelay(attempts - 1, draws[attempts - 2])
  }

  /** The most that `attempts` attempts can wait. */
  function Bound(attempts: nat): int
    requires 1 <= attempts
  {
    if attempts <= 8 then BASE * (Pow2(attempts - 1) - 1) - (attempts - 1)
    else 1270 + CAP * (attempts - 8) - (attempts - 1)
  }

  /** The exponential window reaches the cap after the seventh attempt. */
  lemma Windows(attempt: nat)
    requires 1 <= attempt
    ensures Window(attempt) == if attempt <= 7 then BASE * Pow2(attempt - 1) else CAP
  {
    assert Pow2(6) == 64 && Pow2(7) == 128 by {
      assert Pow2(2) == 4 && Pow2(4) == 16;
    }
    if attempt <= 7 {
      PowMonotone(attempt - 1, 6);
    } else {
      PowMonotone(7, attempt - 1);
    }
  }

  lemma {:induction false} PowMonotone(m: nat, n: nat)
    requires m <= n
    ensures Pow2(m) <= Pow2(n)
    decreases n
  {
    if m < n {
      PowMonotone(m, n - 1);
    }
  }

  lemma BoundStep(attempts: nat)
    requires 2 <= attempts
    ensures Bound(attempts) == Bound(attempts - 1) + Window(attempts - 1) - 1
  {
    Windows(attempts - 1);
    assert Pow2(7) == 128 by {
      assert Pow2(2) == 4 && Pow2(4) == 16 && Pow2(6) == 64;
    }
  }

  /** Over the retry loop the waits add up to no more than the bound. */
  lemma {:induction false} TotalWaitIsBounded(attempts: nat, draws: seq<real>)
    requires 1 <= attempts <= |draws| + 1
    requires forall r | r in draws :: IsRandom(r)
    ensures 0 <= TotalWait(attempts, draws) <= Bound(attempts)
    decreases attempts
  {
    if attempts > 1 {
      TotalWaitIsBounded(attempts - 1, draws);
      assert draws[attempts - 2] in draws;
      DelayInWindow(attempts - 1, draws[attempts - 2]);
      BoundStep(attempts);
    }
  }

  /** And the bound is attained: no smaller one holds for all draws. */
  lemma {:induction false} BoundIsAttained(attempts: nat) returns (draws: seq<real>)
    requires 1 <= attempts
    ensures |draws| + 1 == attempts && (forall r | r in draws :: IsRandom(r))
    ensures TotalWait(attempts, draws) == Bound(attempts)
    decreases attempts
  {
    if attempts == 1 {
      draws := [];
    } else {
      var before := BoundIsAttained(attempts - 1);
      var r := TopDraw(attempts - 1);
      draws := before + [r];
      SameWait(attempts - 1, before, draws);
      BoundStep(attempts);
    }
  }

  lemma {:induction false} SameWait(attempts: nat, draws: seq<real>, more: seq<real>)
    requires attempts <= |draws| + 1 && draws <= more
    ensures TotalWait(attempts, more) == TotalWait(attempts, draws)
    decreases attempts
  {
    if attempts > 1 {
      SameWait(attempts - 1, draws, more);
    }
  }

  lemma {:induction false} BoundGrows(attempts: nat, more: nat)
    requires 1 <= attempts <= more
    ensures Bound(attempts) <= Bound(more)
    decreases more
  {
    if attempts < more {
      BoundGrows(attempts, more - 1);
      BoundStep(more);
    }
  }
}
