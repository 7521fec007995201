/** The databases behind the adapters: one session per begun transaction, with a
    buffer of rows and the savepoints of ISO/IEC 9075-2:2016, clause 17. */
module Databases {
  import opened Wrappers
  import opened Programs
  import opened Reference

  /** `mark` is the length of the buffer when the savepoint was established. */
  datatype SavepointMark = SavepointMark(name: nat, mark: nat)

  datatype Session = Session(rows: seq<Row>, savepoints: seq<SavepointMark>)

  /** The position of the most recent savepoint of that name. */
  function Find(savepoints: seq<SavepointMark>, name: nat): (i: int)
    ensures -1 <= i < |savepoints|
    ensures i >= 0 ==> savepoints[i].name == name
    ensures forall j | i < j < |savepoints| :: savepoints[j].name != name
  {
    if savepoints == [] then -1
    else if savepoints[|savepoints| - 1].name == name then |savepoints| - 1
    else Find(savepoints[..|savepoints| - 1], name)
  }

  class Database {
    const signal: nat -> Signal
    var sessions: seq<Session>
    var names: nat
    var clock: nat
    /** What an observer sees: commits, rollbacks, autocommitted rows, hooks, notes. */
    var log: seq<Entry>

    constructor (signal: nat -> Signal)
      ensures this.signal == signal && sessions == [] && names == 0 && clock == 0 && log == []
    {
      this.signal := signal;
      sessions, names, clock, log := [], 0, 0, [];
    }

    method Observe(e: Entry)
      modifies this`log
      ensures log == old(log) + [e]
    {
      log := log + [e];
    }

    method Answer() returns (s: Signal)
      modifies this`clock
      ensures s == signal(old(clock)) && clock == old(clock) + 1
    {
      s := signal(clock);
      clock := clock + 1;
    }

    /** A begin on the manager the dataSource hands out: a session of its own, or,
        under an active transaction, a part of that transaction's. */
    method Begin(d: DataSource, under: Option<nat>) returns (handle: nat)
      modifies this`sessions, this`log
      ensures under.None? ==> handle == |old(sessions)| && sessions == old(sessions) + [Session([], [])]
      ensures under.None? ==> log == old(log) + [Began(handle, d)]
      ensures under.Some? ==> handle == under.value && sessions == old(sessions) && log == old(log)
    {
      if under.Some? {
        return under.value;
      }
      handle := |sessions|;
      sessions := sessions + [Session([], [])];
      log := log + [Began(handle, d)];
    }

    method Insert(handle: nat, row: Row)
      requires handle < |sessions|
      modifies this`sessions
      ensures sessions == old(sessions)[handle := old(sessions[handle]).(rows := old(sessions[handle].rows) + [row])]
    {
      sessions := sessions[handle := sessions[handle].(rows := sessions[handle].rows + [row])];
    }

    method Autocommit(d: DataSource, row: Row)
      modifies this`log
      ensures log == old(log) + [Autocommitted(d, row)]
    {
      log := log + [Autocommitted(d, row)];
    }

    method Commit(handle: nat, d: DataSource)
      requires handle < |sessions|
      modifies this`log
      ensures log == old(log) + [Committed(handle, d, sessions[handle].rows)]
    {
      log := log + [Committed(handle, d, sessions[handle].rows)];
    }

    method Rollback(handle: nat, d: DataSource)
      modifies this`log
      ensures log == old(log) + [RolledBack(handle, d)]
    {
      log := log + [RolledBack(handle, d)];
    }

    // SAVEPOINT, RELEASE SAVEPOINT, ROLLBACK TO SAVEPOINT.

    method Savepoint(handle: nat) returns (name: nat)
      requires handle < |sessions|
      modifies this`sessions, this`names
      ensures name == old(names) && names == old(names) + 1
      ensures sessions == old(sessions)[handle := old(sessions[handle]).(
                savepoints := old(sessions[handle].savepoints) + [SavepointMark(name, |old(sessions[handle].rows)|)])]
    {
      name := names;
      names := names + 1;
      var s := sessions[handle];
      sessions := sessions[handle := s.(savepoints := s.savepoints + [SavepointMark(name, |s.rows|)])];
    }

    method Release(handle: nat, name: nat)
      requires handle < |sessions| && 0 <= Find(sessions[handle].savepoints, name)
      modifies this`sessions
      ensures sessions == old(sessions)[handle := old(sessions[handle]).(
                savepoints := old(sessions[handle].savepoints)[..Find(old(sessions[handle].savepoints), name)])]
    {
      var s := sessions[handle];
      sessions := sessions[handle := s.(savepoints := s.savepoints[..Find(s.savepoints, name)])];
    }

    method RollbackTo(handle: nat, name: nat)
      requires handle < |sessions| && 0 <= Find(sessions[handle].savepoints, name)
      requires sessions[handle].savepoints[Find(sessions[handle].savepoints, name)].mark <= |sessions[handle].rows|
      modifies this`sessions
      ensures var was := old(sessions[handle]);
              var i := Find(was.savepoints, name);
              sessions == old(sessions)[handle := Session(was.rows[..was.savepoints[i].mark], was.savepoints[..i + 1])]
    {
      var s := sessions[handle];
      var i := Find(s.savepoints, name);
      sessions := sessions[handle := Session(s.rows[..s.savepoints[i].mark], s.savepoints[..i + 1])];
    }
  }
}
