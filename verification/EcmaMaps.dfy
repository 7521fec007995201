/** A `Map` with string keys, in insertion order: section 24.1.3 of ECMA-262. */
module EcmaMaps {
  import opened Wrappers
  import opened Orders

  datatype Slot<V> = Slot(key: string, value: V)

  function Get<V>(slots: seq<Slot<V>>, key: string): Option<V> {
    if slots == [] then None
    else if slots[0].key == key then Some(slots[0].value)
    else Get(slots[1..], key)
  }

  /** An existing key keeps its place; a new one goes to the end. */
  function Set<V>(slots: seq<Slot<V>>, key: string, value: V): seq<Slot<V>> {
    if slots == [] then [Slot(key, value)]
    else if slots[0].key == key then [Slot(key, value)] + slots[1..]
    else [slots[0]] + Set(slots[1..], key, value)
  }

  function Delete<V>(slots: seq<Slot<V>>, key: string): seq<Slot<V>> {
    if slots == [] then []
    else if slots[0].key == key then slots[1..]
    else [slots[0]] + Delete(slots[1..], key)
  }

  lemma {:induction false} GetAt<V>(slots: seq<Slot<V>>, key: string, i: nat)
    requires i < |slots| && slots[i].key == key && forall j | 0 <= j < i :: slots[j].key != key
    ensures Get(slots, key) == Some(slots[i].value)
    ensures Delete(slots, key) == slots[..i] + slots[i + 1..]
  {
    if i > 0 {
      GetAt(slots[1..], key, i - 1);
      CutFirst(slots, i);
    }
  }

  lemma {:induction false} SetAt<V>(slots: seq<Slot<V>>, key: string, i: nat, value: V)
    requires i < |slots| && slots[i].key == key && forall j | 0 <= j < i :: slots[j].key != key
    ensures Set(slots, key, value) == slots[i := Slot(key, value)]
  {
    if i > 0 {
      SetAt(slots[1..], key, i - 1, value);
      assert [slots[0]] + slots[1..][i - 1 := Slot(key, value)] == slots[i := Slot(key, value)];
    }
  }

  lemma {:induction false} GetNowhere<V>(slots: seq<Slot<V>>, key: string)
    requires forall j | 0 <= j < |slots| :: slots[j].key != key
    ensures Get(slots, key) == None && Delete(slots, key) == slots
  {
    if slots != [] {
      GetNowhere(slots[1..], key);
    }
  }

  lemma {:induction false} SetNowhere<V>(slots: seq<Slot<V>>, key: string, value: V)
    requires forall j | 0 <= j < |slots| :: slots[j].key != key
    ensures Set(slots, key, value) == slots + [Slot(key, value)]
  {
    if slots != [] {
      SetNowhere(slots[1..], key, value);
    }
  }
}
