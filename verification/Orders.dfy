/** Insertion orders without repetition: the key order of an ECMAScript Map. */
module Orders {

  function Remove<T(==)>(active: seq<T>, d: T): seq<T> {
    if active == [] then []
    else if active[0] == d then active[1..]
    else [active[0]] + Remove(active[1..], d)
  }

  predicate Distinct<T(==)>(active: seq<T>) {
    active == [] || (active[0] !in active[1..] && Distinct(active[1..]))
  }

  lemma {:induction false} DistinctAt<T>(active: seq<T>, i: nat, j: nat)
    requires Distinct(active) && i < j < |active|
    ensures active[i] != active[j]
  {
    if i == 0 {
      assert active[j] == active[1..][j - 1];
    } else {
      DistinctAt(active[1..], i - 1, j - 1);
    }
  }

  lemma {:induction false} DistinctAppend<T>(active: seq<T>, d: T)
    requires Distinct(active) && d !in active
    ensures Distinct(active + [d])
  {
    if active != [] {
      DistinctAppend(active[1..], d);
      assert (active + [d])[1..] == active[1..] + [d];
    }
  }

  ghost predicate SameMembers<T(!new)>(a: seq<T>, b: seq<T>) {
    && Distinct(a)
    && |a| == |b|
    && forall d :: d in a <==> d in b
  }

  lemma {:induction false} RemoveOne<T(!new)>(active: seq<T>, d: T)
    requires Distinct(active)
    ensures Distinct(Remove(active, d))
    ensures forall c :: c in Remove(active, d) <==> c in active && c != d
    ensures |Remove(active, d)| == if d in active then |active| - 1 else |active|
    ensures d !in active ==> Remove(active, d) == active
  {
    if active != [] {
      assert active == [active[0]] + active[1..];
      if active[0] != d {
        RemoveOne(active[1..], d);
        assert Remove(active, d)[1..] == Remove(active[1..], d);
      }
    }
  }

  lemma CutFirst<T>(s: seq<T>, i: nat)
    requires 0 < i < |s|
    ensures [s[0]] + (s[1..][..i - 1] + s[1..][i..]) == s[..i] + s[i + 1..]
  {
  }

  lemma {:induction false} RemoveAt<T>(active: seq<T>, i: nat)
    requires i < |active| && Distinct(active)
    ensures Remove(active, active[i]) == active[..i] + active[i + 1..]
  {
    if i > 0 {
      DistinctAt(active, 0, i);
      assert active[1..][i - 1] == active[i];
      RemoveAt(active[1..], i - 1);
      CutFirst(active, i);
    }
  }
}
