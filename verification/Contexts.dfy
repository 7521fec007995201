/** The per-scope store: an insertion-ordered map of the active transactions. */
module Contexts {
  import opened Wrappers
  import opened Programs
  import opened Orders
  import opened Keys
  import opened EcmaMaps

  /** The read-only part of an `ActiveTransaction`; its hook arrays are found by `handle`. */
  datatype ActiveTransaction = ActiveTransaction(
    handle: nat,
    adapterName: string,
    dataSource: DataSource,
    correlationId: nat)

  type ActiveMap = seq<Slot<ActiveTransaction>>

  datatype Store = Store(active: ActiveMap, correlationId: nat)

  function HandleOf(tx: Option<ActiveTransaction>): Option<nat> {
    if tx.Some? then Some(tx.value.handle) else None
  }

  /** A store holding, for each dataSource of `order`, its transaction under the
      composite key of that transaction's own adapter and dataSource. */
  ghost predicate Mirrors(slots: ActiveMap, order: seq<DataSource>,
                          entries: map<DataSource, ActiveTransaction>, adapterOf: DataSource -> string)
  {
    && |slots| == |order|
    && Distinct(order)
    && (forall d :: d in entries <==> d in order)
    && forall i | 0 <= i < |slots| ::
         && slots[i].key == KeyFor(adapterOf(order[i]), order[i].name)
         && slots[i].value.dataSource == order[i]
         && slots[i].value.adapterName == adapterOf(order[i])
         && slots[i].value == entries[order[i]]
  }

  /** Two keys differ unless their dataSources are the same. */
  lemma {:induction false} MirrorsKeys(slots: ActiveMap, order: seq<DataSource>,
                                       entries: map<DataSource, ActiveTransaction>,
                                       adapterOf: DataSource -> string, d: DataSource)
    requires Mirrors(slots, order, entries, adapterOf) && forall c :: COLON !in adapterOf(c)
    ensures forall j | 0 <= j < |slots| :: slots[j].key == KeyFor(adapterOf(d), d.name) <==> order[j] == d
  {
    forall j | 0 <= j < |slots| ensures slots[j].key == KeyFor(adapterOf(d), d.name) <==> order[j] == d {
      KeyForIsInjective(adapterOf(order[j]), order[j].name, adapterOf(d), d.name);
    }
  }

  /** In such a store the composite-key lookup finds the entry of `d`, or nothing. */
  lemma {:induction false} MirrorsGet(slots: ActiveMap, order: seq<DataSource>,
                                      entries: map<DataSource, ActiveTransaction>,
                                      adapterOf: DataSource -> string, d: DataSource)
    requires Mirrors(slots, order, entries, adapterOf) && forall c :: COLON !in adapterOf(c)
    ensures Get(slots, KeyFor(adapterOf(d), d.name)) == if d in entries then Some(entries[d]) else None
  {
    MirrorsKeys(slots, order, entries, adapterOf, d);
    if d in entries {
      var i :| 0 <= i < |order| && order[i] == d;
      forall j | 0 <= j < i ensures order[j] != order[i] {
        DistinctAt(order, j, i);
      }
      GetAt(slots, KeyFor(adapterOf(d), d.name), i);
    } else {
      GetNowhere(slots, KeyFor(adapterOf(d), d.name));
    }
  }

  /** A key that belongs to no entry finds nothing. */
  lemma {:induction false} MirrorsForeign(slots: ActiveMap, order: seq<DataSource>,
                                          entries: map<DataSource, ActiveTransaction>,
                                          adapterOf: DataSource -> string, key: string)
    requires Mirrors(slots, order, entries, adapterOf)
    requires forall c | c in entries :: key != KeyFor(adapterOf(c), c.name)
    ensures Get(slots, key) == None && Delete(slots, key) == slots
  {
    forall j | 0 <= j < |slots| ensures slots[j].key != key {
      assert order[j] in order;
    }
    GetNowhere(slots, key);
  }

  lemma {:induction false} MirrorsSet(slots: ActiveMap, order: seq<DataSource>,
                                      entries: map<DataSource, ActiveTransaction>,
                                      adapterOf: DataSource -> string, tx: ActiveTransaction)
    requires Mirrors(slots, order, entries, adapterOf) && forall c :: COLON !in adapterOf(c)
    requires tx.adapterName == adapterOf(tx.dataSource)
    ensures var d := tx.dataSource;
            Mirrors(Set(slots, KeyFor(adapterOf(d), d.name), tx), if d in entries then order else order + [d],
                    entries[d := tx], adapterOf)
  {
    if tx.dataSource in entries {
      MirrorsOverwrite(slots, order, entries, adapterOf, tx);
    } else {
      MirrorsAppend(slots, order, entries, adapterOf, tx);
    }
  }

  lemma {:induction false} MirrorsAppend(slots: ActiveMap, order: seq<DataSource>,
                                         entries: map<DataSource, ActiveTransaction>,
                                         adapterOf: DataSource -> string, tx: ActiveTransaction)
    requires Mirrors(slots, order, entries, adapterOf) && forall c :: COLON !in adapterOf(c)
    requires tx.adapterName == adapterOf(tx.dataSource) && tx.dataSource !in entries
    ensures Mirrors(Set(slots, KeyFor(adapterOf(tx.dataSource), tx.dataSource.name), tx), order + [tx.dataSource],
                    entries[tx.dataSource := tx], adapterOf)
  {
    MirrorsKeys(slots, order, entries, adapterOf, tx.dataSource);
    assert forall i | 0 <= i < |order| :: order[i] in order;
    SetNowhere(slots, KeyFor(adapterOf(tx.dataSource), tx.dataSource.name), tx);
    DistinctAppend(order, tx.dataSource);
  }

  lemma {:induction false} MirrorsOverwrite(slots: ActiveMap, order: seq<DataSource>,
                                            entries: map<DataSource, ActiveTransaction>,
                                            adapterOf: DataSource -> string, tx: ActiveTransaction)
    requires Mirrors(slots, order, entries, adapterOf) && forall c :: COLON !in adapterOf(c)
    requires tx.adapterName == adapterOf(tx.dataSource) && tx.dataSource in entries
    ensures Mirrors(Set(slots, KeyFor(adapterOf(tx.dataSource), tx.dataSource.name), tx), order,
                    entries[tx.dataSource := tx], adapterOf)
  {
    hide Distinct, KeyFor;
    var d := tx.dataSource;
    MirrorsKeys(slots, order, entries, adapterOf, d);
    var i :| 0 <= i < |order| && order[i] == d;
    forall j | 0 <= j < |order| && j != i ensures order[j] != d {
      DistinctAt(order, if i < j then i else j, if i < j then j else i);
    }
    SetAt(slots, KeyFor(adapterOf(d), d.name), i, tx);
  }

  lemma {:induction false} MirrorsCut(slots: ActiveMap, order: seq<DataSource>,
                                      entries: map<DataSource, ActiveTransaction>,
                                      adapterOf: DataSource -> string, i: nat)
    requires Mirrors(slots, order, entries, adapterOf) && i < |order|
    ensures Mirrors(slots[..i] + slots[i + 1..], Remove(order, order[i]), entries - {order[i]}, adapterOf)
  {
    RemoveOne(order, order[i]);
    RemoveAt(order, i);
    var slots', order' := slots[..i] + slots[i + 1..], order[..i] + order[i + 1..];
    forall j | 0 <= j < |slots'|
      ensures slots'[j].key == KeyFor(adapterOf(order'[j]), order'[j].name)
      ensures slots'[j].value.dataSource == order'[j] && slots'[j].value == (entries - {order[i]})[order'[j]]
    {
      var j' := if j < i then j else j + 1;
      DistinctAt(order, if j < i then j else i, if j < i then i else j');
      assert slots'[j] == slots[j'] && order'[j] == order[j'] && order[j'] != order[i];
    }
  }

  lemma {:induction false} MirrorsDelete(slots: ActiveMap, order: seq<DataSource>,
                                         entries: map<DataSource, ActiveTransaction>,
                                         adapterOf: DataSource -> string, d: DataSource)
    requires Mirrors(slots, order, entries, adapterOf) && forall c :: COLON !in adapterOf(c)
    ensures Mirrors(Delete(slots, KeyFor(adapterOf(d), d.name)), Remove(order, d), entries - {d}, adapterOf)
  {
    MirrorsKeys(slots, order, entries, adapterOf, d);
    if d in entries {
      var i :| 0 <= i < |order| && order[i] == d;
      forall j | 0 <= j < i ensures order[j] != order[i] {
        DistinctAt(order, j, i);
      }
      GetAt(slots, KeyFor(adapterOf(d), d.name), i);
      MirrorsCut(slots, order, entries, adapterOf, i);
    } else {
      GetNowhere(slots, KeyFor(adapterOf(d), d.name));
      RemoveOne(order, d);
      assert entries - {d} == entries;
    }
  }

  class TransactionContext {
    const adapterOf: DataSource -> string
    var store: Option<Store>
    /** The active dataSources in map order, and their transactions. */
    ghost var order: seq<DataSource>
    ghost var entries: map<DataSource, ActiveTransaction>

    constructor (adapterOf: DataSource -> string)
      requires forall c :: COLON !in adapterOf(c)
      ensures Valid() && store == None && order == [] && entries == map[] && this.adapterOf == adapterOf
    {
      this.adapterOf := adapterOf;
      store, order, entries := None, [], map[];
    }

    ghost predicate Valid()
      reads this
    {
      && (forall c :: COLON !in adapterOf(c))
      && Mirrors(Slots(), order, entries, adapterOf)
    }

    /** The visible slots; none outside a `run` scope. */
    function Slots(): ActiveMap
      reads this
    {
      if store.Some? then store.value.active else []
    }

    /** `run`: a fresh store for an outermost scope; an inner one uses the store there is. */
    method Enter(correlationId: nat)
      requires Valid()
      modifies this
      ensures Valid() && order == old(order) && entries == old(entries)
      ensures store == if old(store).Some? then old(store) else Some(Store([], correlationId))
    {
      if store.None? {
        store := Some(Store([], correlationId));
      }
    }

    /** The end of the outermost scope. */
    method Leave()
      requires Valid()
      modifies this
      ensures Valid() && order == [] && entries == map[] && store == None
    {
      store, order, entries := None, [], map[];
    }

    /** Looks for the entry of `d`, when `key` is its composite key. */
    method GetActiveTransaction(key: string, ghost d: DataSource) returns (found: Option<ActiveTransaction>)
      requires Valid()
      ensures key == KeyFor(adapterOf(d), d.name) ==> found == if d in entries then Some(entries[d]) else None
      ensures (forall c | c in entries :: key != KeyFor(adapterOf(c), c.name)) ==> found == None
    {
      if key == KeyFor(adapterOf(d), d.name) {
        MirrorsGet(Slots(), order, entries, adapterOf, d);
      }
      if forall c | c in entries :: key != KeyFor(adapterOf(c), c.name) {
        MirrorsForeign(Slots(), order, entries, adapterOf, key);
      }
      found := Get(Slots(), key);
    }

    method GetActiveTransactionByDataSource(d: DataSource) returns (found: Option<ActiveTransaction>)
      requires Valid()
      ensures found == if d in entries then Some(entries[d]) else None
    {
      if store == None {
        return None;
      }
      var slots := store.value.active;
      var i := 0;
      while i < |slots|
        invariant 0 <= i <= |slots|
        invariant d !in order[..i]
      {
        if slots[i].value.dataSource == d {
          return Some(slots[i].value);
        }
        assert order[..i + 1] == order[..i] + [order[i]];
        i := i + 1;
      }
      assert order[..i] == order;
      found := None;
    }

    /** The first entry of the map, whatever its dataSource. */
    method GetFirst() returns (found: Option<ActiveTransaction>)
      requires Valid()
      ensures found == if order == [] then None else Some(entries[order[0]])
    {
      if store.None? || store.value.active == [] {
        return None;
      }
      found := Some(store.value.active[0].value);
    }

    /** Outside a scope the call throws; the manager alone calls it, with the composite
        key of the transaction it sets. */
    method SetActiveTransaction(key: string, tx: ActiveTransaction) returns (ok: bool)
      requires Valid() && tx.adapterName == adapterOf(tx.dataSource)
      requires key == KeyFor(tx.adapterName, tx.dataSource.name)
      modifies this
      ensures Valid() && ok == old(store).Some? && store.Some? == old(store).Some?
      ensures store.Some? ==> store.value.correlationId == old(store).value.correlationId
      ensures entries == if ok then old(entries)[tx.dataSource := tx] else old(entries)
      ensures order == if ok && tx.dataSource !in old(entries) then old(order) + [tx.dataSource] else old(order)
    {
      ok := store.Some?;
      if !ok {
        return;
      }
      MirrorsSet(Slots(), order, entries, adapterOf, tx);
      store := Some(store.value.(active := Set(store.value.active, key, tx)));
      if tx.dataSource !in entries {
        order := order + [tx.dataSource];
      }
      entries := entries[tx.dataSource := tx];
    }

    /** Removes the entry of `d`, when `key` is its composite key; idempotent. */
    method RemoveActiveTransaction(key: string, ghost d: DataSource)
      requires Valid()
      modifies this
      ensures Valid() && store.Some? == old(store).Some?
      ensures store.Some? ==> store.value.correlationId == old(store).value.correlationId
      ensures key == KeyFor(adapterOf(d), d.name) ==> order == Remove(old(order), d) && entries == old(entries) - {d}
      ensures (forall c | c in old(entries) :: key != KeyFor(adapterOf(c), c.name)) ==>
                order == old(order) && entries == old(entries)
    {
      ghost var c := if forall c | c in entries :: key != KeyFor(adapterOf(c), c.name) then None
                     else var c :| c in entries && key == KeyFor(adapterOf(c), c.name); Some(c);
      if c.Some? {
        KeyForIsInjective(adapterOf(c.value), c.value.name, adapterOf(d), d.name);
        MirrorsDelete(Slots(), order, entries, adapterOf, c.value);
        order, entries := Remove(order, c.value), entries - {c.value};
      } else {
        MirrorsForeign(Slots(), order, entries, adapterOf, key);
        RemoveOne(order, d);
        if key == KeyFor(adapterOf(d), d.name) {
          assert entries - {d} == entries;
        }
      }
      if store.Some? {
        store := Some(store.value.(active := Delete(store.value.active, key)));
      }
    }
  }
}
