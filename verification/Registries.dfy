/** The adapter registry: a string-keyed map that behaves as a map of pairs. */
module Registries {
  import opened Wrappers
  import opened Keys
  import opened EcmaMaps

  /** `adapter` stands for the adapter object. */
  datatype Registration = Registration(adapterName: string, instanceName: string, adapter: nat)

  datatype Lookup<T> = Found(value: T) | NotFound | Ambiguous

  predicate SamePair(r: Registration, adapterName: string, instanceName: string) {
    r.adapterName == adapterName && r.instanceName == instanceName
  }

  /** The abstract registry: the latest registration of each pair, in the order in
      which the pairs first came. */
  function Register(regs: seq<Registration>, r: Registration): seq<Registration> {
    if regs == [] then [r]
    else if SamePair(regs[0], r.adapterName, r.instanceName) then [r] + regs[1..]
    else [regs[0]] + Register(regs[1..], r)
  }

  function RegisterAll(regs: seq<Registration>, more: seq<Registration>): seq<Registration>
    decreases |more|
  {
    if more == [] then regs else RegisterAll(Register(regs, more[0]), more[1..])
  }

  function Find(regs: seq<Registration>, adapterName: string, instanceName: string): Lookup<nat> {
    if regs == [] then NotFound
    else if SamePair(regs[0], adapterName, instanceName) then Found(regs[0].adapter)
    else Find(regs[1..], adapterName, instanceName)
  }

  function OfDataSource(regs: seq<Registration>, dataSource: string): seq<Registration> {
    if regs == [] then []
    else (if regs[0].instanceName == dataSource then [regs[0]] else []) + OfDataSource(regs[1..], dataSource)
  }

  /** The one registration of a dataSource. */
  function Only(matches: seq<Registration>): Lookup<Registration> {
    if matches == [] then NotFound else if |matches| > 1 then Ambiguous else Found(matches[0])
  }

  ghost predicate PairsDiffer(regs: seq<Registration>) {
    forall i, j | 0 <= i < j < |regs| :: !SamePair(regs[j], regs[i].adapterName, regs[i].instanceName)
  }

  lemma {:induction false} RegisterKeepsPairs(regs: seq<Registration>, r: Registration)
    requires PairsDiffer(regs)
    ensures PairsDiffer(Register(regs, r))
    ensures forall x | x in Register(regs, r) :: x == r || x in regs
    ensures r in Register(regs, r)
    decreases |regs|
  {
    if regs != [] && !SamePair(regs[0], r.adapterName, r.instanceName) {
      var tail := regs[1..];
      forall i, j | 0 <= i < j < |tail| ensures !SamePair(tail[j], tail[i].adapterName, tail[i].instanceName) {
        assert !SamePair(regs[j + 1], regs[i + 1].adapterName, regs[i + 1].instanceName);
      }
      RegisterKeepsPairs(tail, r);
      var regs' := Register(regs, r);
      assert regs'[1..] == Register(tail, r);
      forall j | 0 < j < |regs'| ensures !SamePair(regs'[j], regs'[0].adapterName, regs'[0].instanceName) {
        var x := regs'[1..][j - 1];
        assert x in Register(tail, r);
        if x != r {
          var k :| 0 <= k < |tail| && tail[k] == x;
          assert regs[k + 1] == x;
        }
      }
    }
  }

  /** What is registered last under a pair is what is found under it. */
  lemma {:induction false} FindAfterRegister(regs: seq<Registration>, r: Registration, adapterName: string,
                                             instanceName: string)
    ensures Find(Register(regs, r), adapterName, instanceName)
            == if SamePair(r, adapterName, instanceName) then Found(r.adapter)
              else Find(regs, adapterName, instanceName)
    decreases |regs|
  {
    if regs != [] {
      FindAfterRegister(regs[1..], r, adapterName, instanceName);
    }
  }

  function LastOf(more: seq<Registration>, adapterName: string, instanceName: string): Lookup<nat>
    decreases |more|
  {
    if more == [] then NotFound
    else
      var last := more[|more| - 1];
      if SamePair(last, adapterName, instanceName) then Found(last.adapter)
      else LastOf(more[..|more| - 1], adapterName, instanceName)
  }

  lemma {:induction false} RegisterAllSnoc(regs: seq<Registration>, more: seq<Registration>, r: Registration)
    ensures RegisterAll(regs, more + [r]) == Register(RegisterAll(regs, more), r)
    decreases |more|
  {
    if more == [] {
      assert more + [r] == [r] && [r][1..] == [];
    } else {
      assert (more + [r])[1..] == more[1..] + [r];
      RegisterAllSnoc(Register(regs, more[0]), more[1..], r);
    }
  }

  /** After any registrations, a pair is found exactly as it was registered last,
      and each registered pair is listed exactly once. */
  lemma {:induction false} LastRegistrationWins(more: seq<Registration>, adapterName: string, instanceName: string)
    ensures Find(RegisterAll([], more), adapterName, instanceName) == LastOf(more, adapterName, instanceName)
    ensures PairsDiffer(RegisterAll([], more))
    decreases |more|
  {
    if more != [] {
      var init, last := more[..|more| - 1], more[|more| - 1];
      assert more == init + [last];
      LastRegistrationWins(init, adapterName, instanceName);
      RegisterAllSnoc([], init, last);
      RegisterKeepsPairs(RegisterAll([], init), last);
      FindAfterRegister(RegisterAll([], init), last, adapterName, instanceName);
    }
  }

  lemma {:induction false} FoundMember(regs: seq<Registration>, r: Registration)
    requires r in regs && PairsDiffer(regs)
    ensures Find(regs, r.adapterName, r.instanceName) == Found(r.adapter)
    decreases |regs|
  {
    if regs[0] != r {
      var k :| 0 < k < |regs| && regs[k] == r;
      assert regs[1..][k - 1] == r;
      var tail := regs[1..];
      forall i, j | 0 <= i < j < |tail| ensures !SamePair(tail[j], tail[i].adapterName, tail[i].instanceName) {
        assert !SamePair(regs[j + 1], regs[i + 1].adapterName, regs[i + 1].instanceName);
      }
      FoundMember(tail, r);
    }
  }

  lemma {:induction false} OfDataSourceMember(regs: seq<Registration>, dataSource: string)
    ensures forall r :: r in OfDataSource(regs, dataSource) <==> r in regs && r.instanceName == dataSource
    decreases |regs|
  {
    if regs != [] {
      OfDataSourceMember(regs[1..], dataSource);
      assert regs == [regs[0]] + regs[1..];
    }
  }

  /** The two lookups by dataSource agree, through `get`, and fail on the same inputs. */
  lemma {:induction false} NameThenGet(regs: seq<Registration>, dataSource: string)
    requires PairsDiffer(regs)
    ensures match Only(OfDataSource(regs, dataSource))
            case Found(r) => Find(regs, r.adapterName, dataSource) == Found(r.adapter)
            case NotFound => forall name :: Find(regs, name, dataSource) == NotFound
            case Ambiguous => exists a, b :: a in regs && b in regs && a.adapterName != b.adapterName
                                              && a.instanceName == dataSource == b.instanceName
  {
    OfDataSourceMember(regs, dataSource);
    var matches := OfDataSource(regs, dataSource);
    match Only(matches)
    case Found(r) =>
      assert r in matches;
      FoundMember(regs, r);
    case NotFound =>
      forall name ensures Find(regs, name, dataSource) == NotFound {
        NotFoundAnywhere(regs, name, dataSource);
      }
    case Ambiguous =>
      TwoMatchesDiffer(regs, dataSource);
  }

  lemma {:induction false} NotFoundAnywhere(regs: seq<Registration>, adapterName: string, instanceName: string)
    requires OfDataSource(regs, instanceName) == []
    ensures Find(regs, adapterName, instanceName) == NotFound
    decreases |regs|
  {
    if regs != [] {
      NotFoundAnywhere(regs[1..], adapterName, instanceName);
    }
  }

  lemma {:induction false} TwoMatchesDiffer(regs: seq<Registration>, dataSource: string)
    requires PairsDiffer(regs) && |OfDataSource(regs, dataSource)| > 1
    ensures exists a, b :: a in regs && b in regs && a.adapterName != b.adapterName
                           && a.instanceName == dataSource == b.instanceName
    decreases |regs|
  {
    var tail := regs[1..];
    if regs[0].instanceName == dataSource {
      var b := OfDataSource(tail, dataSource)[0];
      OfDataSourceMember(tail, dataSource);
      assert b in OfDataSource(tail, dataSource);
      var k :| 0 <= k < |tail| && tail[k] == b;
      assert !SamePair(regs[k + 1], regs[0].adapterName, regs[0].instanceName);
      assert regs[0] in regs && regs[k + 1] in regs;
    } else {
      forall i, j | 0 <= i < j < |tail| ensures !SamePair(tail[j], tail[i].adapterName, tail[i].instanceName) {
        assert !SamePair(regs[j + 1], regs[i + 1].adapterName, regs[i + 1].instanceName);
      }
      TwoMatchesDiffer(tail, dataSource);
      var a, b :| a in tail && b in tail && a.adapterName != b.adapterName
        && a.instanceName == dataSource == b.instanceName;
      assert a in regs && b in regs;
    }
  }

  // The string-keyed map behind it.

  /** Slot by slot the map holds the registrations, under their composite keys. */
  ghost predicate Encodes(slots: seq<Slot<nat>>, regs: seq<Registration>) {
    && |slots| == |regs|
    && forall i | 0 <= i < |slots| ::
         && COLON !in regs[i].adapterName
         && slots[i] == Slot(KeyFor(regs[i].adapterName, regs[i].instanceName), regs[i].adapter)
  }

  lemma EncodesTail(slots: seq<Slot<nat>>, regs: seq<Registration>)
    requires Encodes(slots, regs) && slots != []
    ensures Encodes(slots[1..], regs[1..])
    ensures slots[0] == Slot(KeyFor(regs[0].adapterName, regs[0].instanceName), regs[0].adapter)
    ensures COLON !in regs[0].adapterName
  {
  }

  lemma EncodesCons(slot: Slot<nat>, slots: seq<Slot<nat>>, r: Registration, regs: seq<Registration>)
    requires Encodes(slots, regs) && COLON !in r.adapterName
    requires slot == Slot(KeyFor(r.adapterName, r.instanceName), r.adapter)
    ensures Encodes([slot] + slots, [r] + regs)
  {
  }

  lemma {:induction false} EncodesRegister(slots: seq<Slot<nat>>, regs: seq<Registration>, r: Registration)
    requires Encodes(slots, regs) && COLON !in r.adapterName
    ensures Encodes(Set(slots, KeyFor(r.adapterName, r.instanceName), r.adapter), Register(regs, r))
    decreases |slots|
  {
    hide Encodes, KeyFor;
    var slot := Slot(KeyFor(r.adapterName, r.instanceName), r.adapter);
    EncodesLength(slots, regs);
    if slots == [] {
      EncodesCons(slot, [], r, []);
      assert [slot] + [] == [slot] && [r] + [] == [r];
    } else {
      EncodesTail(slots, regs);
      KeyForIsInjective(regs[0].adapterName, regs[0].instanceName, r.adapterName, r.instanceName);
      if slots[0].key == slot.key {
        EncodesCons(slot, slots[1..], r, regs[1..]);
      } else {
        EncodesRegister(slots[1..], regs[1..], r);
        EncodesCons(slots[0], Set(slots[1..], slot.key, r.adapter), regs[0], Register(regs[1..], r));
      }
    }
  }

  lemma EncodesLength(slots: seq<Slot<nat>>, regs: seq<Registration>)
    requires Encodes(slots, regs)
    ensures |slots| == |regs| && (slots == [] ==> Encodes([], []))
  {
  }

  lemma {:induction false} EncodesGet(slots: seq<Slot<nat>>, regs: seq<Registration>, adapterName: string,
                                      instanceName: string)
    requires Encodes(slots, regs) && COLON !in adapterName
    ensures Get(slots, KeyFor(adapterName, instanceName))
            == match Find(regs, adapterName, instanceName) case Found(adapter) => Some(adapter) case _ => None
    decreases |slots|
  {
    hide Encodes, KeyFor;
    EncodesLength(slots, regs);
    if slots != [] {
      EncodesTail(slots, regs);
      KeyForIsInjective(regs[0].adapterName, regs[0].instanceName, adapterName, instanceName);
      EncodesGet(slots[1..], regs[1..], adapterName, instanceName);
    }
  }

  /** `indexOf` and `slice` recover the pair of a slot. */
  lemma EncodesSplit(slots: seq<Slot<nat>>, regs: seq<Registration>, i: nat)
    requires Encodes(slots, regs) && i < |slots|
    ensures COLON in slots[i].key && i < |regs|
    ensures regs[i] == Registration(AdapterPart(slots[i].key), InstancePart(slots[i].key), slots[i].value)
  {
    SplitUndoesKeyFor(regs[i].adapterName, regs[i].instanceName);
  }

  lemma {:induction false} OfDataSourceNext(regs: seq<Registration>, i: nat, dataSource: string)
    requires i < |regs|
    ensures OfDataSource(regs[..i + 1], dataSource)
            == OfDataSource(regs[..i], dataSource) + (if regs[i].instanceName == dataSource then [regs[i]] else [])
  {
    if i > 0 {
      OfDataSourceNext(regs[1..], i - 1, dataSource);
      assert regs[1..][..i] == regs[..i + 1][1..] && regs[1..][..i - 1] == regs[..i][1..];
    } else {
      assert regs[..1] == [regs[0]] && [regs[0]][1..] == [] && regs[..0] == [];
    }
  }

  class AdapterRegistry {
    var adapters: seq<Slot<nat>>
    var defaultAdapterName: Option<string>
    var defaultInstanceName: string
    ghost var regs: seq<Registration>

    constructor ()
      ensures Valid() && regs == []
    {
      adapters, defaultAdapterName, defaultInstanceName, regs := [], None, "default", [];
    }

    /** The map encodes the registrations; the default, once there is one, is a
        registered pair. */
    ghost predicate Valid()
      reads this
    {
      && Encodes(adapters, regs)
      && PairsDiffer(regs)
      && (defaultAdapterName.None? <==> regs == [])
      && (defaultAdapterName.Some? ==>
            exists r :: r in regs && SamePair(r, defaultAdapterName.value, defaultInstanceName))
    }

    method RegisterAdapter(r: Registration, isDefault: bool)
      requires Valid() && COLON !in r.adapterName
      modifies this
      ensures Valid() && regs == Register(old(regs), r)
      ensures if isDefault || old(regs) == []
              then defaultAdapterName == Some(r.adapterName) && defaultInstanceName == r.instanceName
              else defaultAdapterName == old(defaultAdapterName) && defaultInstanceName == old(defaultInstanceName)
    {
      hide Encodes, PairsDiffer, KeyFor;
      EncodesRegister(adapters, regs, r);
      RegisterKeepsPairs(regs, r);
      RegisterKeepsDefault(regs, r, defaultAdapterName, defaultInstanceName);
      assert Register(regs, r) != [];
      adapters := Set(adapters, KeyFor(r.adapterName, r.instanceName), r.adapter);
      regs := Register(regs, r);
      if isDefault || defaultAdapterName == None {
        defaultAdapterName, defaultInstanceName := Some(r.adapterName), r.instanceName;
        assert r in regs && SamePair(r, r.adapterName, r.instanceName);
      }
    }

    method GetAdapter(adapterName: string, instanceName: string) returns (found: Lookup<nat>)
      requires Valid() && COLON !in adapterName
      ensures found == Find(regs, adapterName, instanceName)
    {
      EncodesGet(adapters, regs, adapterName, instanceName);
      FindIsNeverAmbiguous(regs, adapterName, instanceName);
      var adapter := Get(adapters, KeyFor(adapterName, instanceName));
      found := if adapter.Some? then Found(adapter.value) else NotFound;
    }

    /** Scans every key; one match is required. */
    method GetByDataSource(dataSource: string) returns (found: Lookup<nat>)
      requires Valid()
      ensures found == match Only(OfDataSource(regs, dataSource))
                       case Found(r) => Found(r.adapter)
                       case NotFound => NotFound
                       case Ambiguous => Ambiguous
    {
      var matches := Matches(dataSource);
      found := if matches == [] then NotFound else if |matches| > 1 then Ambiguous else Found(matches[0].adapter);
    }

    method GetAdapterNameByDataSource(dataSource: string) returns (found: Lookup<string>)
      requires Valid()
      ensures found == match Only(OfDataSource(regs, dataSource))
                       case Found(r) => Found(r.adapterName)
                       case NotFound => NotFound
                       case Ambiguous => Ambiguous
    {
      var matches := Matches(dataSource);
      found := if matches == [] then NotFound else if |matches| > 1 then Ambiguous else Found(matches[0].adapterName);
    }

    method Matches(dataSource: string) returns (matches: seq<Registration>)
      requires Valid()
      ensures matches == OfDataSource(regs, dataSource)
    {
      hide Encodes, PairsDiffer;
      matches := [];
      EncodesLength(adapters, regs);
      assert regs[..0] == [];
      var i := 0;
      while i < |adapters|
        invariant 0 <= i <= |adapters|
        invariant matches == OfDataSource(regs[..i], dataSource)
      {
        EncodesSplit(adapters, regs, i);
        OfDataSourceNext(regs, i, dataSource);
        var key := adapters[i].key;
        if InstancePart(key) == dataSource {
          matches := matches + [Registration(AdapterPart(key), InstancePart(key), adapters[i].value)];
        }
        i := i + 1;
      }
      assert regs[..|regs|] == regs;
    }

    /** Every registration, as a new array. */
    method GetAll() returns (all: seq<Registration>)
      requires Valid()
      ensures all == regs
    {
      hide Encodes, PairsDiffer;
      all := [];
      EncodesLength(adapters, regs);
      var i := 0;
      while i < |adapters|
        invariant 0 <= i <= |adapters|
        invariant all == regs[..i]
      {
        EncodesSplit(adapters, regs, i);
        var key := adapters[i].key;
        all := all + [Registration(AdapterPart(key), InstancePart(key), adapters[i].value)];
        i := i + 1;
      }
    }
  }

  lemma {:induction false} FindIsNeverAmbiguous(regs: seq<Registration>, adapterName: string, instanceName: string)
    ensures !Find(regs, adapterName, instanceName).Ambiguous?
    decreases |regs|
  {
    if regs != [] {
      FindIsNeverAmbiguous(regs[1..], adapterName, instanceName);
    }
  }

  lemma {:induction false} RegisterKeepsDefault(regs: seq<Registration>, r: Registration, name: Option<string>,
                                                instance: string)
    requires name.Some? ==> exists x :: x in regs && SamePair(x, name.value, instance)
    ensures name.Some? ==> exists x :: x in Register(regs, r) && SamePair(x, name.value, instance)
    decreases |regs|
  {
    if name.Some? {
      var x :| x in regs && SamePair(x, name.value, instance);
      if SamePair(r, name.value, instance) {
        RegisterKeeps(regs, r, r);
      } else {
        RegisterKeeps(regs, r, x);
      }
    }
  }

  lemma {:induction false} RegisterKeeps(regs: seq<Registration>, r: Registration, x: Registration)
    requires x == r || (x in regs && !SamePair(x, r.adapterName, r.instanceName))
    ensures x in Register(regs, r)
    decreases |regs|
  {
    if regs != [] && !SamePair(regs[0], r.adapterName, r.instanceName) && x != regs[0] {
      RegisterKeeps(regs[1..], r, x);
      assert Register(regs, r)[1..] == Register(regs[1..], r);
    }
  }
}
