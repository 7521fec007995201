/** Which driver errors a retry may follow, on error objects that may form cycles. */
module ErrorClassifiers {
  import opened Wrappers

  type Ref = nat

  /** What a property holds: a reference to another object, or anything else. */
  datatype Value = Reference(ref: Ref) | NoObject

  /** The properties of an error object the classifiers read; `code` and `errno`
      only when they are a string and a number. */
  datatype Node = Node(code: Option<string>, errno: Option<int>, driverError: Value, cause: Value)

  /** The heap of error objects; references may form cycles. */
  type Graph = Ref -> Node

  const RETRYABLE_SQLSTATES: set<string> := {"40001", "40P01"}
  const ER_LOCK_DEADLOCK: string := "ER_LOCK_DEADLOCK"
  const ER_LOCK_DEADLOCK_NUMBER: int := 1213
  const MAX_DEPTH: nat := 3

  predicate HasSqlState(n: Node) {
    n.code.Some? && n.code.value in RETRYABLE_SQLSTATES
  }

  predicate HasMySqlMark(n: Node) {
    || (n.code.Some? && n.code.value == ER_LOCK_DEADLOCK)
    || (n.errno.Some? && n.errno.value == ER_LOCK_DEADLOCK_NUMBER)
  }

  function TypeOrmRetryable(g: Graph, error: Value, depth: nat): bool
    decreases MAX_DEPTH + 1 - depth
  {
    if error.NoObject? || depth > MAX_DEPTH then false
    else
      var n := g(error.ref);
      if HasSqlState(n) || HasMySqlMark(n) then true
      else TypeOrmRetryable(g, n.driverError, depth + 1) || TypeOrmRetryable(g, n.cause, depth + 1)
  }

  function DrizzleRetryable(g: Graph, error: Value, depth: nat): bool
    decreases MAX_DEPTH + 1 - depth
  {
    if error.NoObject? || depth > MAX_DEPTH then false
    else
      var n := g(error.ref);
      if HasSqlState(n) then true else DrizzleRetryable(g, n.cause, depth + 1)
  }

  // What they decide.

  datatype Edge = DriverError | Cause

  function Along(n: Node, e: Edge): Value {
    if e.DriverError? then n.driverError else n.cause
  }

  /** Where a path of edges leads. */
  function Follow(g: Graph, error: Value, path: seq<Edge>): Value
    decreases |path|
  {
    if path == [] || error.NoObject? then error
    else Follow(g, Along(g(error.ref), path[0]), path[1..])
  }

  /** At the end of `path` is an object marked retryable. */
  predicate Marked(g: Graph, error: Value, path: seq<Edge>) {
    var end := Follow(g, error, path);
    end.Reference? && (HasSqlState(g(end.ref)) || HasMySqlMark(g(end.ref)))
  }

  lemma MarkedBehind(g: Graph, error: Value, e: Edge, path: seq<Edge>)
    requires error.Reference? && Marked(g, Along(g(error.ref), e), path)
    ensures Marked(g, error, [e] + path)
  {
    assert ([e] + path)[1..] == path;
  }

  /** On every graph, also a cyclic one, the classification ends, and is true
      exactly when a retryable mark is at most three edges away. */
  lemma {:induction false} TypeOrmFindsMarks(g: Graph, error: Value, depth: nat)
    ensures TypeOrmRetryable(g, error, depth) <==> exists path :: |path| + depth <= MAX_DEPTH && Marked(g, error, path)
    decreases MAX_DEPTH + 1 - depth
  {
    if error.Reference? && depth <= MAX_DEPTH {
      var n := g(error.ref);
      TypeOrmFindsMarks(g, n.driverError, depth + 1);
      TypeOrmFindsMarks(g, n.cause, depth + 1);
      if HasSqlState(n) || HasMySqlMark(n) {
        assert Marked(g, error, []);
      } else if TypeOrmRetryable(g, n.driverError, depth + 1) {
        var path :| |path| + depth + 1 <= MAX_DEPTH && Marked(g, n.driverError, path);
        MarkedBehind(g, error, DriverError, path);
      } else if TypeOrmRetryable(g, n.cause, depth + 1) {
        var path :| |path| + depth + 1 <= MAX_DEPTH && Marked(g, n.cause, path);
        MarkedBehind(g, error, Cause, path);
      } else if path :| |path| + depth <= MAX_DEPTH && Marked(g, error, path) {
        assert Marked(g, Along(n, path[0]), path[1..]);
      }
    }
  }

  /** The error of a deadlock or of a failed serialization, in PostgreSQL or MySQL, is
      retried when it is the one thrown or at most three edges away from it. */
  lemma TypeOrmRetries(g: Graph, error: Value)
    ensures TypeOrmRetryable(g, error, 0) <==>
              exists path: seq<Edge> :: |path| <= 3 && Follow(g, error, path).Reference?
                                        && IsTransient(g(Follow(g, error, path).ref))
  {
    TypeOrmFindsMarks(g, error, 0);
    if TypeOrmRetryable(g, error, 0) {
      var path :| |path| <= MAX_DEPTH && Marked(g, error, path);
      assert IsTransient(g(Follow(g, error, path).ref));
    } else if path: seq<Edge> :| |path| <= 3 && Follow(g, error, path).Reference?
                                 && IsTransient(g(Follow(g, error, path).ref)) {
      assert Marked(g, error, path);
    }
  }

  predicate IsTransient(n: Node) {
    || n.code == Some("40001") || n.code == Some("40P01") || n.code == Some("ER_LOCK_DEADLOCK")
    || n.errno == Some(1213)
  }

  /** The object `k` causes down the chain. */
  function CauseAt(g: Graph, error: Value, k: nat): Value
    decreases k
  {
    if k == 0 || error.NoObject? then error else CauseAt(g, g(error.ref).cause, k - 1)
  }

  predicate MarkedCause(g: Graph, error: Value, k: nat) {
    var end := CauseAt(g, error, k);
    end.Reference? && HasSqlState(g(end.ref))
  }

  lemma {:induction false} DrizzleFindsCauses(g: Graph, error: Value, depth: nat)
    ensures DrizzleRetryable(g, error, depth) <==> exists k: nat :: k + depth <= MAX_DEPTH && MarkedCause(g, error, k)
    decreases MAX_DEPTH + 1 - depth
  {
    if error.Reference? && depth <= MAX_DEPTH {
      var n := g(error.ref);
      DrizzleFindsCauses(g, n.cause, depth + 1);
      if HasSqlState(n) {
        assert MarkedCause(g, error, 0);
      } else if DrizzleRetryable(g, n.cause, depth + 1) {
        var k: nat :| k + depth + 1 <= MAX_DEPTH && MarkedCause(g, n.cause, k);
        assert MarkedCause(g, error, k + 1);
      } else if k: nat :| k + depth <= MAX_DEPTH && MarkedCause(g, error, k) {
        assert k > 0 && MarkedCause(g, n.cause, k - 1);
      }
    }
  }

  lemma DrizzleRetries(g: Graph, error: Value)
    ensures DrizzleRetryable(g, error, 0) <==>
              exists k: nat :: k <= 3 && CauseAt(g, error, k).Reference?
                               && g(CauseAt(g, error, k).ref).code in {Some("40001"), Some("40P01")}
  {
    DrizzleFindsCauses(g, error, 0);
    if DrizzleRetryable(g, error, 0) {
      var k: nat :| k <= MAX_DEPTH && MarkedCause(g, error, k);
      assert g(CauseAt(g, error, k).ref).code in {Some("40001"), Some("40P01")};
    } else if k: nat :| k <= 3 && CauseAt(g, error, k).Reference?
                        && g(CauseAt(g, error, k).ref).code in {Some("40001"), Some("40P01")} {
      assert MarkedCause(g, error, k);
    }
  }

  /** What Drizzle retries TypeORM retries too. */
  lemma {:induction false} DrizzleImpliesTypeOrm(g: Graph, error: Value, depth: nat)
    ensures DrizzleRetryable(g, error, depth) ==> TypeOrmRetryable(g, error, depth)
    decreases MAX_DEPTH + 1 - depth
  {
    if error.Reference? && depth <= MAX_DEPTH {
      DrizzleImpliesTypeOrm(g, g(error.ref).cause, depth + 1);
    }
  }

  /** Without `driverError`, the MySQL code and the MySQL number they agree. */
  lemma {:induction false} AgreeOnPlainErrors(g: Graph, error: Value, depth: nat)
    requires forall r :: g(r).driverError.NoObject? && !HasMySqlMark(g(r))
    ensures TypeOrmRetryable(g, error, depth) == DrizzleRetryable(g, error, depth)
    decreases MAX_DEPTH + 1 - depth
  {
    if error.Reference? && depth <= MAX_DEPTH {
      AgreeOnPlainErrors(g, g(error.ref).cause, depth + 1);
    }
  }

  /** Each of the three is needed: an error with only it is retried by TypeORM alone. */
  lemma EachExceptionDisagrees()
    ensures var plain := Node(None, None, NoObject, NoObject);
            var wrapped: Graph :=
              r => if r == 0 then plain.(driverError := Reference(1)) else plain.(code := Some("40001"));
            var coded: Graph := _ => plain.(code := Some(ER_LOCK_DEADLOCK));
            var numbered: Graph := _ => plain.(errno := Some(ER_LOCK_DEADLOCK_NUMBER));
            && TypeOrmRetryable(wrapped, Reference(0), 0) && !DrizzleRetryable(wrapped, Reference(0), 0)
            && TypeOrmRetryable(coded, Reference(0), 0) && !DrizzleRetryable(coded, Reference(0), 0)
            && TypeOrmRetryable(numbered, Reference(0), 0) && !DrizzleRetryable(numbered, Reference(0), 0)
  {
    assert |ER_LOCK_DEADLOCK| == 16 && |"40001"| == 5 && |"40P01"| == 5;
    var plain := Node(None, None, NoObject, NoObject);
    var wrapped: Graph := r => if r == 0 then plain.(driverError := Reference(1)) else plain.(code := Some("40001"));
    assert TypeOrmRetryable(wrapped, Reference(1), 1);
  }
}
