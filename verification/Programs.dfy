/** What a transactional application does, as data: the body handed to
    `TransactionManager.run` becomes a tree of writes, throws, catches, hook
    registrations and nested runs. */
module Programs {
  import opened Wrappers

  datatype DataSource = DataSource(name: string)
  type Row = int
  type ErrorClass = string

  const ILLEGAL_STATE: ErrorClass := "IllegalTransactionStateError"
  const TYPE_ERROR: ErrorClass := "TypeError"

  /** The identity of an error object. A program may throw one shared object many
      times; every object the manager or the driver constructs is a fresh one. */
  datatype Identity = Shared(n: nat) | Fresh(n: nat)

  /** A thrown value: an object with its `instanceof` classes, or a primitive,
      which no rollback rule matches and no WeakSet can hold. */
  datatype Error = Object(id: Identity, classes: set<ErrorClass>) | Primitive(value: int)

  datatype Outcome = Ok | Fail(error: Error)

  datatype Propagation = REQUIRED | REQUIRES_NEW | NESTED | SUPPORTS | NOT_SUPPORTED | NEVER | MANDATORY

  /** `retryIf` is the caller's test, or the adapter's; `delay(attempt, error)` is the
      wait in ms before the attempt after `attempt`. */
  datatype Retry = NoRetry | Retry(maxAttempts: int, retryIf: Error -> bool, delay: (int, Error) -> int)

  /** An empty rule set is an absent rule list. */
  datatype Options = Options(
    dataSource: DataSource,
    propagation: Propagation,
    noRollbackFor: set<ErrorClass>,
    rollbackFor: set<ErrorClass>,
    retry: Retry)

  datatype Phase = BeforeCommit | AfterCommit | AfterRollback

  datatype Program =
    | Skip
    | Emit(note: int)
    | Write(dataSource: DataSource, row: Row)
    | Throw(error: Error)
    | ThrowFresh(classes: set<ErrorClass>)
    | Then(first: Program, second: Program)
    | Catch(body: Program, handler: Program, rethrow: bool)
    | Choose(normally: Program, otherwise: Program)
    | Attach(dataSource: DataSource, phase: Phase, hook: Program)
    | Register(phase: Phase, hook: Program)
    | Run(options: Options, body: Program)

  /** What the world answers when asked: a BEGIN or COMMIT that succeeds or fails
      with an error of the given classes, or the branch a `Choose` takes. */
  datatype Signal = Proceed | Fault(classes: set<ErrorClass>)

  /** `signal(k)` is the k-th answer of the world; `savepoints` are the dataSources
      whose driver supports them; `adapterOf` names the adapter of a dataSource, and
      `misses` gives the error of one for which the registry has none, or several. */
  datatype Environment = Environment(
    signal: nat -> Signal,
    savepoints: set<DataSource>,
    adapterOf: DataSource -> string,
    misses: DataSource -> Option<ErrorClass>)

  /** Everything works, and every dataSource has its adapter. */
  function Obliging(): Environment {
    Environment(_ => Proceed, {}, _ => "database", _ => None)
  }

  predicate MatchesAny(error: Error, classes: set<ErrorClass>) {
    error.Object? && exists c | c in classes :: c in error.classes
  }

  predicate ShouldRollback(error: Error, o: Options) {
    if MatchesAny(error, o.noRollbackFor) then false
    else if o.rollbackFor != {} then MatchesAny(error, o.rollbackFor)
    else true
  }

  predicate ValidRetry(retry: Retry) {
    retry.NoRetry? || 1 <= retry.maxAttempts
  }

  function Attempts(retry: Retry): nat {
    if retry.Retry? && 1 <= retry.maxAttempts then retry.maxAttempts else 1
  }

  predicate Retryable(error: Error, retry: Retry) {
    retry.Retry? && retry.retryIf(error)
  }

  /** The work `attempts` executions of a body of size `size` can do at most. */
  function Budget(attempts: nat, size: nat): nat {
    if attempts == 0 then 0 else 1 + size + Budget(attempts - 1, size)
  }

  /** Strictly larger than the total size of the hooks a program can leave behind. */
  function Size(p: Program): nat
    ensures 1 <= Size(p)
  {
    match p
    case Skip => 1
    case Emit(_) => 1
    case Write(_, _) => 1
    case Throw(_) => 1
    case ThrowFresh(_) => 1
    case Then(first, second) => 1 + Size(first) + Size(second)
    case Catch(body, handler, _) => 1 + Size(body) + Size(handler)
    case Choose(normally, otherwise) => 1 + Size(normally) + Size(otherwise)
    case Attach(_, _, hook) => 1 + Size(hook)
    case Register(_, hook) => 1 + Size(hook)
    case Run(o, body) => 1 + Budget(Attempts(o.retry), Size(body))
  }

  function QueueSize(hooks: seq<Program>): nat {
    if hooks == [] then 0 else Size(hooks[0]) + QueueSize(hooks[1..])
  }

  lemma QueueSizeAppend(a: seq<Program>, b: seq<Program>)
    ensures QueueSize(a + b) == QueueSize(a) + QueueSize(b)
  {
    if a == [] {
      assert a + b == b;
    } else {
      assert (a + b)[1..] == a[1..] + b;
    }
  }
}
