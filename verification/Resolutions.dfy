/** How a run finds its adapter: what the manager takes for granted of a dataSource is
    what the registry answers. */
module Resolutions {
  import opened Wrappers
  import opened Programs
  import opened Keys
  import opened Registries
  import opened Managers

  const NOT_FOUND: ErrorClass := "TransactionAdapterNotFoundError"

  function NameIn(regs: seq<Registration>, d: DataSource): string {
    match Only(OfDataSource(regs, d.name))
    case Found(r) => r.adapterName
    case _ => ""
  }

  function MissIn(regs: seq<Registration>, d: DataSource): Option<ErrorClass> {
    match Only(OfDataSource(regs, d.name))
    case Found(_) => None
    case NotFound => Some(NOT_FOUND)
    case Ambiguous => Some(ILLEGAL_STATE)
  }

  /** The environment of a manager over a registry with these registrations. */
  function EnvironmentOf(regs: seq<Registration>, signal: nat -> Signal, savepoints: set<DataSource>): Environment {
    Environment(signal, savepoints, d => NameIn(regs, d), d => MissIn(regs, d))
  }

  datatype Resolved = Resolved(adapterName: string, adapter: nat) | Unresolved(error: ErrorClass)

  /** `resolveAdapterIdentifiers` for a dataSource, then `get`: it fails exactly where
      the environment has a miss, with its error, and otherwise finds the adapter
      under the name the environment gives. */
  method ResolveAdapter(registry: AdapterRegistry, d: DataSource, ghost env: Environment) returns (resolved: Resolved)
    requires registry.Valid() && env == EnvironmentOf(registry.regs, env.signal, env.savepoints)
    ensures resolved.Unresolved? <==> env.misses(d).Some?
    ensures resolved.Unresolved? ==> env.misses(d) == Some(resolved.error)
    ensures resolved.Resolved? ==>
              && resolved.adapterName == env.adapterOf(d)
              && Find(registry.regs, resolved.adapterName, d.name) == Found(resolved.adapter)
  {
    NameThenGet(registry.regs, d.name);
    var name := registry.GetAdapterNameByDataSource(d.name);
    match name {
      case NotFound => resolved := Unresolved(NOT_FOUND);
      case Ambiguous => resolved := Unresolved(ILLEGAL_STATE);
      case Found(adapterName) =>
        NamesHaveNoColon(registry, d);
        var found := registry.GetAdapter(adapterName, d.name);
        resolved := Resolved(adapterName, found.value);
    }
  }

  lemma {:induction false} NamesHaveNoColon(registry: AdapterRegistry, d: DataSource)
    requires registry.Valid()
    ensures COLON !in NameIn(registry.regs, d)
  {
    OfDataSourceMember(registry.regs, d.name);
    match Only(OfDataSource(registry.regs, d.name))
    case Found(r) =>
      assert r in OfDataSource(registry.regs, d.name);
    case _ =>
  }

  /** With a dataSource registered once the manager runs; with none or several it throws. */
  lemma {:induction false} MissIffNotOnce(regs: seq<Registration>, signal: nat -> Signal, savepoints: set<DataSource>,
                                          d: DataSource)
    requires PairsDiffer(regs)
    ensures var env := EnvironmentOf(regs, signal, savepoints);
            env.misses(d).None? <==>
              exists r :: r in regs && r.instanceName == d.name
                          && forall r' | r' in regs :: r'.instanceName == d.name ==> r' == r
  {
    OfDataSourceMember(regs, d.name);
    NameThenGet(regs, d.name);
    var matches := OfDataSource(regs, d.name);
    if |matches| == 1 {
      assert matches == [matches[0]] && matches[0] in matches;
    } else if matches == [] {
    } else {
      var a, b :| a in regs && b in regs && a.adapterName != b.adapterName
                  && a.instanceName == d.name == b.instanceName;
    }
  }

  /** Two registrations, under different adapters, name the dataSource. */
  ghost predicate NamedTwice(regs: seq<Registration>, d: DataSource) {
    exists a, b :: a in regs && b in regs && a.adapterName != b.adapterName
                   && a.instanceName == d.name == b.instanceName
  }

  lemma {:induction false} OnlySaysWhy(regs: seq<Registration>, d: DataSource)
    requires PairsDiffer(regs)
    ensures var only := Only(OfDataSource(regs, d.name));
            && (only.NotFound? <==> forall r | r in regs :: r.instanceName != d.name)
            && (only.Ambiguous? <==> NamedTwice(regs, d))
  {
    hide PairsDiffer, OfDataSource;
    OfDataSourceMember(regs, d.name);
    NameThenGet(regs, d.name);
    var matches := OfDataSource(regs, d.name);
    if |matches| == 1 {
      assert matches == [matches[0]] && matches[0] in matches;
    } else if |matches| > 1 {
      assert matches[0] in matches;
    }
  }

  /** And what it throws: of a dataSource that no registration names, that none was found;
      of one that two name, that the call is ambiguous. */
  lemma MissSaysWhy(regs: seq<Registration>, signal: nat -> Signal, savepoints: set<DataSource>, d: DataSource)
    requires PairsDiffer(regs)
    ensures var miss := EnvironmentOf(regs, signal, savepoints).misses(d);
            && (miss == Some("TransactionAdapterNotFoundError") <==> forall r | r in regs :: r.instanceName != d.name)
            && (miss == Some("IllegalTransactionStateError") <==> NamedTwice(regs, d))
  {
    hide PairsDiffer, OfDataSource, NamedTwice;
    OnlySaysWhy(regs, d);
    assert |NOT_FOUND| == 31 && |ILLEGAL_STATE| == 28;
  }

  /** A manager over the registry, ready to run programs. */
  method ManagerOver(registry: AdapterRegistry, signal: nat -> Signal, savepoints: set<DataSource>)
    returns (manager: TransactionManager)
    requires registry.Valid()
    ensures fresh(manager) && manager.Valid() && manager.context.store == None
    ensures manager.env == EnvironmentOf(registry.regs, signal, savepoints)
  {
    var regs := registry.GetAll();
    forall d ensures COLON !in NameIn(regs, d) {
      NamesHaveNoColon(registry, d);
    }
    manager := new TransactionManager(EnvironmentOf(regs, signal, savepoints));
  }
}
