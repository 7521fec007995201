# Transactional semantics: a verified model

This project models three connected parts of the repository and proves what every
program, every run and every reachable state of them keeps.

**1. The propagation engine.** `TransactionManager.run` interprets arbitrarily nested
calls over several dataSources: seven propagation modes, rollback rules, savepoints,
retries and three hook lists per transaction. A body is a tree (`Programs.Program`) of
writes, throws, catches, hook registrations, branches on the world's answer and nested
runs.

- `Contexts`, `Databases`, `Managers` are the machine as the code has it: a store with an
  insertion-ordered string-keyed map whose slots are deleted, overwritten and set again
  (`EcmaMaps`, section 24.1.3 of ECMA-262), hook arrays that grow while they are
  iterated, a never-cleared set of errors, and sessions with row buffers and savepoint
  marks (ISO/IEC 9075-2:2016, clause 17). BEGIN and COMMIT fail when the environment
  says so.
- `Reference` is a pure evaluator with a lexical environment. It returns what a piece of
  program leaves on the transactions around it instead of storing it in shared objects.
- `Worlds` and `WorldSteps` say what it means that a step of the machine does what a
  reference result says (`Worlds.Simulates`): the same map of active transactions with
  the order the reference predicts, for each visible transaction exactly its own rows and
  hooks, nothing for any other, and the same log. Each method of `Managers` is proved to
  do that, for every program, environment and starting state.
- `ReferenceLaws`, `Stories`, `EngineLaws`, `RetryLaws` prove the laws of the reference
  semantics; `RunContract` states the documented modes and rollback rules in their own
  terms, `Ledgers` where every written row goes. `Applications` states them for the machine.
- `Machines` is the same manager for one asynchronous chain, one step at a time.
  `MachineRuns` proves that alone it runs every program to the reference result,
  `MachineLaws` what each of its steps keeps. In `Roots` any number of such chains take
  their steps in any order beside the one shared set of rolled-back errors.

**2. Hooks, events and the outbox on top of it.** `Dispatchers` routes events to
listeners by pushing hooks on the real manager's transactions; `Places` says where in a
program that happens, and what of it reaches a transaction around. `Publishers` is the event
bus publisher, by which an event object is scheduled once, ever. `Outboxes` is the outbox
publisher in programs of transactions on several dataSources, nested with any propagation
and retried, with hooks of all three phases: direct publication, the buffer with its
self-re-arming flush hook, the single notification, the events dropped outside a
transaction. `OutboxBooks` and `OutboxPolicies` say what each of its steps keeps,
`OutboxLaws`, `OutboxRetries` and `OutboxPromises` what follows for whole programs, and
under exactly which options events are lost; `OutboxPublishers` is the code's form, with its entries keyed by
transaction. `Translations` ties it to the engine: while no `outbox.add` fails, a program does
what `Reference` does with its translation. `Drains` is `trackPending` and its drain loop,
with promises that settle in any order and track further promises.

**3. The sagas.** `Sagas` and `SagaHandlers` are the choreographed order saga: atomic
handlers over shared tables and a bag of messages delivered at least once, in any order,
with aborted deliveries. `Inventories` and `InventoryHandlers` are the reserve and release
handlers of the e-commerce example.

Smaller parts the engine rests on: the adapter registry (`Registries`, `Keys`), what the
manager takes for granted of it (`Resolutions`), the retry
classifiers on possibly cyclic error graphs (`ErrorClassifiers`) and the default backoff
(`Backoffs`).

## Hypotheses, and where the code does not keep a promise

- Runs are awaited and properly nested. The map is restored as a map; its order is not:
  `EngineLaws.SuspensionReorders` gives the exact condition, `EngineLaws.HookReachesAnother`
  a hook that so reaches another transaction.
- Adapter names hold no colon and each dataSource has one adapter.
  `Keys.ColonsInAdapterNamesCollide` shows that the first is needed.
- The comment on the retry loop says that an attempt follows only a rolled-back one
  (`packages/core/src/manager/transaction.manager.ts:303-307`). The code keys this by error
  identity, so an error first marked by another transaction lets a committed attempt be
  repeated. `RetryLaws.RetrySafety` says for exactly which options, and errors that can
  occur, no inner transaction does this. The set is shared by all root runs:
  `RootLaws.OtherRootRepeatsCommit` is an input by which one root makes another commit
  twice, and `Roots.IndependentIffAlone` gives the exact condition under which roots do
  not disturb each other.
- Scheduled events are to commit with their transaction
  (`packages/outbox/src/publisher/outbox-event-publisher.ts:76-83`). A body error that does not
  roll back commits without any before-commit hook (`Stories.FiresBefore`, inside the
  contract of `Stories.AttemptIsWhole`), and the events are lost
  (`OutboxLaws.CommittedErrorLoses`); so they are when `outbox.add` fails in the flush with
  such an error (`OutboxLaws.CommittedRefusalLoses`). `OutboxLaws.DeliverySafety` says for exactly
  which options this cannot happen: those without rollback rules.
  `OutboxPromises.RulelessDelivers` states it for programs.
- Rows of a part rolled back to its savepoint vanish while its hooks, and an armed
  notification, stay (`OutboxLaws.NotificationOutlivesMessage`). `OutboxPromises.NotifiesIff`
  gives the exact condition on the part's options, `OutboxPromises.FlatNotifiesOfMessages` one on
  the text of a program.
- COMMIT is to wait for every tracked write
  (`packages/core/src/manager/transaction.manager.ts:276-284`). Work tracked behind the drain
  hook is not waited for: `Drains.PendingWork.RunBeforeCommitHooks` gives the exact condition
  on the queue there is at the start, `Drains.LateRejectionCommits` a run that commits while
  a tracked write is still to reject.
- An event object is scheduled once, whatever the transaction
  (`Publishers.TransactionalEventBusPublisher.Schedule`). One first scheduled outside a
  transaction is lost for good (`OutboxLaws.DroppedStaysDropped`); `OutboxPromises.ShelteredIff`
  says of which propagations this cannot come, `OutboxPromises.ShelteredDropsNothing` of which
  programs. One scheduled in an attempt that is repeated is missing from the next, whether
  the attempt rolled back (`OutboxRetries.RetriedEventIsLost`) or committed with an error
  some inner transaction was rolled back for (`OutboxRetries.ExemptedEventIsLost`).
  `OutboxRetries.AllLandIff` and `OutboxRetries.SurvivesIff` say that a run which completes has
  made every event it accepted durable if and only if its options retry no error object.
- A redelivered `orders.placed` message is described as an idempotent skip
  (`examples/e-commerce-orders/src/inventory/reserve-stock.handler.ts:36-38`). Rows and stock
  do stay, but a failure is published when the lines could not be taken once more:
  `Inventories.RedeliveryAnswersByStock`, with `Inventories.LastUnitIsDenied` as a case. After a
  failure a redelivery may reserve, so that an order is told both:
  `Inventories.FailureIsNotFinal`, with `Inventories.DeniedThenServed` as a case.
- Stock can become negative when a quantity is: `Sagas.NegativeQuantityOverdraws`. By
  `Sagas.StockSafety` it cannot if and only if the quantities in use are not both below and
  above zero.

## Model

| member | source | states |
|---|---|---|
| Managers.TransactionManager.Exec | packages/core/src/manager/transaction.manager.ts:96-173 | for every program of nested runs, writes, throws, catches and hooks, the mutable machine has the outcome of the lexical reference semantics, and its state moved exactly as the reference says: map entries restored, each visible transaction given its own rows and hooks, no other touched, the same log |
| Managers.TransactionManager.RunIn | packages/core/src/manager/transaction.manager.ts:96-173 | the branch of each propagation mode does what the reference semantics of that mode says; a dataSource the registry cannot resolve raises its error before anything else |
| Managers.TransactionManager.RunRequiresNew | packages/core/src/manager/transaction.manager.ts:115-126 | deleting the slot, starting a transaction and setting the slot again has exactly the effect of running without the outer transaction, then resuming it |
| Managers.TransactionManager.RunNotSupported | packages/core/src/manager/transaction.manager.ts:141-151 | the same for a body without a transaction |
| Managers.TransactionManager.RunNestedSavepoint | packages/core/src/manager/transaction.manager.ts:523-548 | a driver without savepoints raises; otherwise the savepoint semantics of the reference |
| Managers.TransactionManager.InSavepoint | packages/typeorm/src/adapter/typeorm.adapter.ts:109-127 | SAVEPOINT, body, RELEASE or ROLLBACK TO on a marked buffer drop exactly the rows the body wrote on this dataSource, when and only when its error rolls back |
| Managers.TransactionManager.StartNewWithRetry | packages/core/src/manager/transaction.manager.ts:308-340 | the retry loop, with any test of errors and any delay, is the recursive reference of at most `maxAttempts` attempts with the positive waits between them; an invalid `maxAttempts` raises a TypeError |
| Managers.TransactionManager.StartNew | packages/core/src/manager/transaction.manager.ts:355-466 | one attempt, in a store of its own when there is none, has the reference attempt's outcome and effect, and leaves the caller's store |
| Managers.TransactionManager.InTransaction | packages/core/src/manager/transaction.manager.ts:370-437 | a failed BEGIN marks and raises its error and runs no hook |
| Managers.TransactionManager.Open | packages/typeorm/src/patching/data-source-patches.ts:68-81 | the adapter's begin finds its own slot empty, so it opens a session of its own and never becomes part of a suspended transaction |
| Managers.TransactionManager.Callback | packages/core/src/manager/transaction.manager.ts:374-417 | slot set, body, before-commit hooks, slot removed, whatever happened: afterwards the transaction is not visible and holds exactly its own rows and hooks |
| Managers.TransactionManager.RunBeforeCommitHooks | packages/core/src/manager/transaction.manager.ts:402-404 | the loop over the live array, whose hooks may push hooks, is the reference queue; it ends |
| Managers.TransactionManager.TryCommit | packages/core/src/manager/transaction.manager.ts:412-460 | COMMIT that works runs the after-commit hooks and re-raises an error that did not roll back; COMMIT that fails rolls back, runs the after-rollback hooks and raises the driver's error |
| Managers.TransactionManager.RunHooks | packages/core/src/manager/transaction.manager.ts:590-601 | all after-phase hooks of one phase run in order, whatever the earlier ones threw |
| Managers.TransactionManager.RegisterHook | packages/core/src/manager/transaction.manager.ts:550-563 | the hook goes to the end of the phase's list of the first transaction in map order, and to no other; with none the call raises an IllegalTransactionStateError and nothing is pushed |
| Managers.TransactionManager.AttachHook | packages/cqrs/src/event-dispatcher/event-dispatcher.ts:205-233 | a hook attached for a dataSource goes to the end of the phase's list of its own active transaction, and to no other; with none nothing is pushed |
| Managers.TransactionManager.WriteRow | packages/typeorm/src/patching/repository-patches.ts:90-119 | with an active transaction of the dataSource its buffer, and no other, grows by exactly the row and the log is unchanged; with none the log grows by exactly the autocommitted row and no session changes; this is the reference step |
| Contexts.TransactionContext.GetActiveTransaction | packages/core/src/context/transaction.context.ts:117-119 | the composite-key lookup finds the entry of the dataSource, or nothing; a foreign key finds nothing |
| Contexts.TransactionContext.GetActiveTransactionByDataSource | packages/core/src/context/transaction.context.ts:137-148 | the scan over all entries finds the same transaction as the composite key |
| Contexts.TransactionContext.SetActiveTransaction | packages/core/src/context/transaction.context.ts:157-165 | a new key goes to the end of the map, an existing one keeps its place; every key stays the composite key of its entry; outside a scope the call fails and changes nothing |
| Contexts.TransactionContext.RemoveActiveTransaction | packages/core/src/context/transaction.context.ts:172-174 | the entry goes, the others keep their order; outside a scope nothing happens |
| Contexts.MirrorsGet | packages/core/src/context/transaction.context.ts:117-148 | in every store whose keys are the composite keys of their entries, a dataSource's key finds its own entry and no other |
| WorldSteps.FindSaved | packages/typeorm/src/adapter/typeorm.adapter.ts:109-127 | whatever ran since SAVEPOINT, savepoints of its own included, its name is found where it was established, with the mark it was given, and the buffer before the mark is intact |
| WorldSteps.SimulatesRolledBackTo | packages/typeorm/src/adapter/typeorm.adapter.ts:123-126 | cutting the buffer back to that mark undoes exactly the rows written on this dataSource since, and nothing else that happened |
| Applications.RunApplication | packages/core/src/manager/transaction.manager.ts:96-173 | however a program ends, the active map holds the entries it had, every transaction begun lived wholly and ended exactly once, and the log is the reference log |
| ReferenceLaws.TidyEval | packages/core/src/manager/transaction.manager.ts:103-151 | for every program and outcome the active transactions are those on entry, no mark or counter is lost, and only visible transactions receive rows or hooks |
| ReferenceLaws.TidyRun | packages/core/src/manager/transaction.manager.ts:103-151 | the same for one `run` call of any mode |
| Stories.AttemptIsWhole | packages/core/src/manager/transaction.manager.ts:396-460 | a begun transaction's log entries are: BEGIN, its before-commit hooks in push order, one COMMIT with exactly its rows or one ROLLBACK, then every after hook of that ending, once, in order; a throwing body runs no before-commit hook, a completing callback runs all |
| Stories.OrderlyEval | packages/core/src/manager/transaction.manager.ts:355-466 | in every evaluation each transaction begun lives wholly, and nothing is logged about any other |
| Stories.EachEndsOnce | packages/core/src/manager/transaction.manager.ts:419-460 | each transaction begun ends in exactly one commit or rollback, also when COMMIT fails |
| EngineLaws.LiveLoopIsStraight | packages/core/src/manager/transaction.manager.ts:402-404 | the loop over the live array equals a straight run over the array's final contents: initial hooks, then all pushed meanwhile |
| EngineLaws.CallbackRunsEveryHook | packages/core/src/manager/transaction.manager.ts:396-405 | a callback is its body and, if that completes, every before-commit hook the transaction ever receives, once, in push order |
| EngineLaws.Verdicts | packages/core/src/manager/transaction.manager.ts:396-460 | a begun transaction commits if and only if its callback returned or threw an error that does not roll back and COMMIT worked; only one that did not commit marks its error; its after hooks run in a scope without it or a suspended transaction, which receive nothing |
| RunContract.RulesDecide | packages/core/src/manager/transaction.manager.ts:574-588 | in terms of classes: a callback that returns, or throws an error of some class in `noRollbackFor`, asks for COMMIT whatever `rollbackFor` lists; else an error of some class in `rollbackFor` rolls back; else it rolls back if and only if `rollbackFor` is empty; a primitive is of no class. What asks commits if the driver does, and else raises and marks the driver's error; what rolls back raises and marks its own |
| RunContract.RulesCut | packages/core/src/manager/transaction.manager.ts:523-548 | the same rules, in terms of classes, decide whether a NESTED part keeps the rows of its dataSource |
| RunContract.FailedBegin | packages/core/src/manager/transaction.manager.ts:433-460 | a failed BEGIN raises and marks a new error of the driver's classes; the body does not run and nothing is logged |
| RunContract.ModesDecide | packages/core/src/manager/transaction.manager.ts:96-173 | by the mode, and by whether a transaction of the dataSource is visible: which calls are refused with which error and without any other effect, which run the body in the scope as it is or without the transaction, and which ask for a BEGIN and log a new transaction first |
| RunContract.RegistrationIsFirst | packages/core/src/manager/transaction.manager.ts:550-563 | a registered hook is one effect on the first active dataSource, or an IllegalTransactionStateError where there is none |
| RunContract.CatchDecides | packages/core/src/manager/transaction.manager.ts:118-125 | what a body throws is gone when it is caught, unless the handler throws or throws it again, as the `finally` that resumes a transaction does; what both did stays |
| EngineLaws.NestedIsAllOrNothing | packages/core/src/manager/transaction.manager.ts:523-548 | a NESTED part's rows on its own dataSource all stay or all go; other rows and all hooks stay |
| EngineLaws.RequiresNewIsIndependent | packages/core/src/manager/transaction.manager.ts:115-126 | a REQUIRES_NEW does what it would do with no outer transaction, leaves nothing on it, and restores the map |
| EngineLaws.NotSupportedLeavesNothing | packages/core/src/manager/transaction.manager.ts:141-151 | a NOT_SUPPORTED body does what it would do with no transaction of its dataSource, leaves nothing on the suspended one and restores the map |
| Ledgers.NotSupportedAutocommits | packages/core/src/manager/transaction.manager.ts:141-151 | each of its writes on the suspended dataSource is autocommitted, in order, or is in a transaction the body begins |
| Ledgers.EveryWrite | packages/typeorm/src/patching/repository-patches.ts:90-119 | of every program, from every scope: each executed write is, once and in order, autocommitted where no transaction of its dataSource was visible, in the COMMIT of the transaction visible there, or left on that transaction if it goes on, unless a rollback to a savepoint took it back; nothing else is in any COMMIT |
| Ledgers.EveryWriteOfProgram | packages/typeorm/src/patching/repository-patches.ts:90-119 | the same of a whole program, for its log |
| EngineLaws.SuspensionReorders | packages/core/src/manager/transaction.manager.ts:550-563 | after a suspending run the resumed transaction is the current one if and only if it is the only one |
| EngineLaws.HookReachesAnother | packages/core/src/manager/transaction.manager.ts:550-563 | with two active transactions the same registration reaches different ones before and after a suspending run |
| RetryLaws.RunIsItsTries | packages/core/src/manager/transaction.manager.ts:321-339 | with any limit of at least one: a retrying run is the concatenation of its attempts with its waits between them, each a new transaction from where the one before ended; another follows if and only if the limit is not reached and the error is an object some transaction was rolled back for that the retry test accepts; the wait after attempt k is the caller's delay for k, if positive |
| RetryLaws.RetryIsChecked | packages/core/src/manager/transaction.manager.ts:615-624 | a run that needs a new transaction raises a TypeError, asks the world nothing and does nothing if and only if its `maxAttempts` is below 1 |
| RetryLaws.OnlyForeignMarksRepeat | packages/core/src/manager/transaction.manager.ts:325-329 | an attempt followed by another had committed only if its error was marked on behalf of another transaction |
| RetryLaws.RetrySafety | packages/core/src/manager/transaction.manager.ts:325-329 | given the errors that can occur, with whatever class hierarchy: no run that raises only such errors repeats a committed attempt, for all bodies, environments and scopes, if and only if no such error object is both retryable and exempt from rollback |
| RetryLaws.EarlierTriesRollBack | packages/core/src/manager/transaction.manager.ts:303-340 | under such options every attempt but the last never began or ended in a rollback |
| RetryLaws.SafeBySubclass | packages/core/src/manager/transaction.manager.ts:325-329 | where every error of one class is also of another, a run that retries the one and rolls back for the other repeats no committed attempt, for all bodies, environments and scopes |
| RetryLaws.RunWaitsAtMost | packages/core/src/manager/transaction.manager.ts:321-338 | with the default backoff, whatever the random draws, the time a run waits between its attempts stays within the bound for `maxAttempts` |
| Dispatchers.DispatchAttachesOwed | packages/cqrs/src/event-dispatcher/event-dispatcher.ts:158-233 | a dispatch leaves on each dataSource's transaction exactly the invocations of the listeners bound to it, per phase, in registration order, and nothing where there is no transaction |
| Dispatchers.ListenersMeetTheirPhase | packages/cqrs/src/event-dispatcher/event-dispatcher.ts:205-266 | for an event dispatched at any spot of a transaction's callback (joined calls, savepoints, catches, its before-commit hooks, attempts and hooks of transactions of other dataSources), the invocations of its listeners are a block of each of the three hook lists; with the one life of the transaction, before-commit listeners fire when the callback completes, those of the transaction's own ending fire once, those of the other ending never |
| Places.PlacePushes | packages/core/src/manager/transaction.manager.ts:103-151 | whatever a piece of program pushes on a visible transaction is pushed on it by the whole program around the piece, wherever the piece is reached with the transaction visible and whatever commits, rolls back or throws in between |
| Dispatchers.TransactionalEventDispatcher.ScheduleDispatch | packages/cqrs/src/event-dispatcher/event-dispatcher.ts:158-203 | the loop over the listeners, on the real manager, has the effect of that dispatch; with a transaction active anywhere no microtask is queued; with none the queued deliveries are exactly those of the registered listeners with `fallbackExecution`, each once, in registration order, with this event |
| Dispatchers.OwedByPhase | packages/cqrs/src/event-dispatcher/event-dispatcher.ts:205-233 | a listener is invoked by the transaction of its own dataSource only: before its COMMIT, after it, after its rollback, or after either, as its phase says |
| Dispatchers.TransactionalEventDispatcher.RegisterListener | packages/cqrs/src/event-dispatcher/event-dispatcher.ts:117-149 | a listener is appended to its own event type's list, and no other list changes |
| Publishers.TransactionalEventBusPublisher.Schedule | packages/cqrs/src/event-publisher/transactional-event-bus-publisher.ts:64-72 | an event object is dispatched and handed on to the outbox once, ever; a second call changes nothing |
| Publishers.TransactionalEventBusPublisher.PublishAll | packages/cqrs/src/event-publisher/transactional-event-bus-publisher.ts:90-99 | of the events handed over, those published before not at all and each other object once, in order, are dispatched on the real manager; every one goes to the inner publisher |
| Publishers.FreshOfOnce | packages/cqrs/src/event-publisher/transactional-event-bus-publisher.ts:64-72 | an event object is among those dispatched once if it was published and not before, and else not at all |
| Publishers.PublishedMeetTheirPhase | packages/cqrs/src/event-publisher/transactional-event-bus-publisher.ts:64-99 | for any publications when they arrive at a spot of a transaction's callback: the invocations owed for each object not published before, once each, are a block of each of its three hook lists, and the transaction has one life; any later arrival, at whatever spot, pushes nothing |
| OutboxLaws.PublishDecides | packages/outbox/src/publisher/outbox-event-publisher.ts:63-67 | a publication is refused without a call where no transaction of the outbox's dataSource is visible; what `outbox.add` throws is thrown and nothing added; else that transaction, and no other, has the one message more, and its first message arms its one notification |
| OutboxLaws.ScheduleDecides | packages/outbox/src/publisher/outbox-event-publisher.ts:85-110 | an object scheduled before changes nothing; a new one is known from then on and, if externalized, dropped where no transaction of the outbox's dataSource is visible, else accepted and buffered last behind one flush hook, in that transaction and no other |
| OutboxLaws.EveryTransaction | packages/outbox/src/publisher/outbox-event-publisher.ts:63-142 | of every program of runs nested and retried over any dataSources, with hooks of all phases: in each transaction that ended, the flushed messages, what is left of a throwing flush and the buffer make up the accepted events in scheduling order, so all are flushed, once each, when the hooks complete, and none when the body throws; one notification is armed if and only if a message was ever added, and sent by each committed one; durable are the committed rows in commit order; every externalized event first scheduled was accepted by one transaction, or dropped; a transaction of another dataSource holds nothing of the outbox |
| OutboxLaws.FlushedAtMostOnce | packages/outbox/src/publisher/outbox-event-publisher.ts:85-110 | no scheduled event is flushed into the durable outbox twice, and each is, once, when none was dropped and every transaction committed after a normal end |
| OutboxBooks.LoopFlushesAll | packages/outbox/src/publisher/outbox-event-publisher.ts:99-109 | when the live before-commit loop completes, exactly the accepted events have been flushed, also those scheduled by hooks that ran behind a flush |
| OutboxBooks.PerformDoes | packages/outbox/src/publisher/outbox-event-publisher.ts:85-110 | whatever a body or hook schedules, publishes, catches, nests, retries or throws, the buffer of its transaction is armed by exactly one flush hook still to run, nothing flushed before is lost, and the same holds of each transaction begun inside |
| OutboxLaws.DeliverySafety | packages/outbox/src/publisher/outbox-event-publisher.ts:76-83 | the events a transaction accepted are always committed with it, in every program, in every world and whatever fails, if and only if its options hold no rollback rule (or can begin no transaction) |
| OutboxPromises.RulelessDelivers | packages/outbox/src/publisher/outbox-event-publisher.ts:76-83 | in a program whose runs on the outbox's dataSource, in bodies and in hooks, have no rollback rules, the events durable by a flush are exactly those the committed transactions accepted |
| OutboxLaws.CommittedErrorLoses | packages/core/src/manager/transaction.manager.ts:396-413 | an event scheduled in a body whose error commits is accepted and never added |
| OutboxLaws.CommittedRefusalLoses | packages/core/src/manager/transaction.manager.ts:396-413 | so is one whose `outbox.add` fails in the flush hook with an error that commits |
| OutboxLaws.DroppedStaysDropped | packages/outbox/src/publisher/outbox-event-publisher.ts:90-97 | an event first scheduled outside a transaction is dropped, and stays so when it is scheduled again inside one |
| OutboxPromises.ShelteredIff | packages/outbox/src/publisher/outbox-event-publisher.ts:85-97 | a run from outside a transaction drops nothing that its body schedules in its callback, for every such body and world, if and only if its propagation is one that needs or begins a transaction |
| OutboxPromises.ShelteredDropsNothing | packages/outbox/src/publisher/outbox-event-publisher.ts:85-97 | a program that schedules only where a transaction of the outbox's dataSource is sure to be visible drops nothing: each event is accepted by exactly one transaction |
| OutboxRetries.RetriedEventIsLost | packages/cqrs/src/event-publisher/transactional-event-bus-publisher.ts:64-72 | an event scheduled in an attempt whose COMMIT fails is not scheduled in the next, which commits without it |
| OutboxRetries.ExemptedEventIsLost | packages/core/src/manager/transaction.manager.ts:325-329 | an attempt commits with an exempt error that an inner transaction marked and is repeated: neither commits the event the run scheduled |
| OutboxRetries.SurvivesIff | packages/core/src/manager/transaction.manager.ts:303-340 | an event that a run schedules first, whatever the rest of its body does, is durable when the run completes, in every world, if and only if its options retry no error object |
| OutboxRetries.AllLandIff | packages/core/src/manager/transaction.manager.ts:303-340 | every event that any attempt of a run accepts, scheduled anywhere in its body or hooks, is durable when the run completes, for every body and world and from every state whose books are kept, if and only if its options retry no error object |
| OutboxLaws.NotificationOutlivesMessage | packages/outbox/src/publisher/outbox-event-publisher.ts:132-141 | a message rolled back with its savepoint leaves the notification it armed, which is sent |
| OutboxPromises.NotifiesIff | packages/outbox/src/publisher/outbox-event-publisher.ts:132-141 | around a part that is run and caught inside a transaction, each notification is of a committed transaction with durable messages, whatever the part does and whatever fails, if and only if no error rolls the part back to a savepoint |
| OutboxPromises.FlatNotifiesOfMessages | packages/outbox/src/publisher/outbox-event-publisher.ts:132-141 | in a program that never rolls back to a savepoint on the outbox's dataSource exactly the committed transactions with durable messages notify, once each |
| Translations.PerformAgrees | packages/core/src/manager/transaction.manager.ts:96-173 | while no `outbox.add` fails, whatever a body or hook does, from any state and scope that agree, the engine does with its translation: outcome, counters, marks, rows and hooks of each visible transaction, and the transactions that end, the outbox's own rows and hooks aside |
| Translations.EngineMeaning | packages/core/src/manager/transaction.manager.ts:96-173 | so a whole program asks the world the same questions, ends with the same outcome and ends the same transactions in the same order and way; the directly published durable messages are the rows the engine commits |
| OutboxPublishers.OutboxEventPublisher.ScheduleEvent | packages/outbox/src/publisher/outbox-event-publisher.ts:85-110 | buffers an externalized event not scheduled before under the visible transaction, and arms its flush hook when it has no buffer; drops it where none is visible; no other transaction is touched |
| OutboxPublishers.OutboxEventPublisher.PublishEvent | packages/outbox/src/publisher/outbox-event-publisher.ts:63-67 | adds the message and arms the visible transaction's notification once, or throws what `outbox.add` threw and adds nothing; outside a transaction it throws without a call |
| OutboxPublishers.OutboxEventPublisher.RunFlush | packages/outbox/src/publisher/outbox-event-publisher.ts:103-107 | empties the buffer, then adds its events in order up to the first that is refused |
| OutboxPublishers.OutboxEventPublisher.RunBeforeCommitHooks | packages/core/src/manager/transaction.manager.ts:402-404 | the loop over the live array is the specified one |
| OutboxPublishers.OutboxEventPublisher.ExecTransaction | packages/core/src/manager/transaction.manager.ts:355-466 | BEGIN, body, live loop, COMMIT or ROLLBACK, then the after-phase hooks of that ending: rows are durable and notifications sent exactly when the transaction commits; the suspended transaction and all others are as they were |
| OutboxPublishers.OutboxEventPublisher.ExecStart | packages/core/src/manager/transaction.manager.ts:308-340 | the retry loop around the attempts is the specified recursion |
| OutboxPublishers.OutboxEventPublisher.Exec | packages/core/src/manager/transaction.manager.ts:96-173 | for every script of runs on any dataSources, with any propagation and retry, the entries keyed by transaction behave as the specification's one value per visible transaction, and no other transaction changes |
| Drains.PendingWork.TrackPending | packages/core/src/manager/transaction.manager.ts:285-301 | the first promise pushes the one drain hook; every promise joins the pending set |
| Drains.PendingWork.RunDrain | packages/core/src/manager/transaction.manager.ts:291-297 | in whatever order promises settle, the drain hook completes if and only if nothing the tracked promises lead to rejects, and then all of it has fulfilled |
| Drains.PendingWork.AwaitAll | packages/core/src/manager/transaction.manager.ts:292-296 | one round either sees a rejection or fulfills its whole batch, and tracks what its promises track |
| Drains.PendingWork.RunBeforeCommitHooks | packages/core/src/manager/transaction.manager.ts:402-404 | from any queue, whose hooks may throw: the loop fails if and only if a hook of the grown queue throws or something that the promises tracked up to the drain hook lead to rejects; when it completes, the queue is the grown one, and nothing tracked is left in the pending set if and only if no hook behind the drain hook of the grown queue tracks, and then everything tracked has fulfilled |
| Drains.LateRejectionCommits | packages/core/src/manager/transaction.manager.ts:285-301 | a run in which the hooks complete while a tracked promise is still to reject |
| Drains.ClosureIsLeast | packages/core/src/manager/transaction.manager.ts:276-284 | what a set of promises leads to is the least set closed under tracking |
| Sagas.EveryRun | examples/saga-pattern/src/reservation.handler.ts:53-91 | in every reachable state each order's rows and messages are exactly those of its phase, and per sku available plus reserved-or-shipped quantities equal the initial stock |
| Sagas.HandlePreserves | examples/saga-pattern/src/compensation.handler.ts:63-79 | delivering any published message keeps that invariant |
| Sagas.StatusesMeanPayments | examples/saga-pattern/src/payment.handler.ts:43-73 | shipped implies charged, failed-payment implies declined, failed-reservation implies no payment row; a payment is declined if and only if its order's amount is at least 10000 |
| Sagas.StockNeverNegative | examples/saga-pattern/src/reservation.handler.ts:71-76 | with nonnegative quantities the stock is never negative in any run |
| Sagas.StockDecides | examples/saga-pattern/src/reservation.handler.ts:71-91 | in every reachable state the first committed delivery of a placed order reserves it, and takes its quantity, if and only if the stock covers it, and else fails it |
| Sagas.NegativeQuantityOverdraws | examples/saga-pattern/src/compensation.handler.ts:74-79 | for every negative quantity, positive quantity and fitting stock a six-step run overdraws, by exactly the positive one |
| Sagas.StockSafety | examples/saga-pattern/src/reservation.handler.ts:71-76 | for any set of quantities: no run that uses them, from nonnegative stock, ever has negative stock, if and only if the set does not hold both a negative and a positive one |
| Sagas.StepMovesForward | examples/saga-pattern/src/shipment.handler.ts:36-48 | a step changes at most one order's status, forward only, never its data, and never a terminal one |
| Sagas.AtMostThreeChanges | examples/saga-pattern/src/reservation.handler.ts:78-90 | each order takes at most three row-changing deliveries |
| Sagas.RedeliveryChangesNothing | examples/saga-pattern/src/payment.handler.ts:47-62 | once a message's handler has committed, delivering it again in any later reachable state changes no row and publishes nothing |
| Sagas.RepeatsDoNotMatter | examples/saga-pattern/src/reservation.handler.ts:53-69 | any interleaving, reordering, repetition or abortion of deliveries ends in the same state as the run in which each message is handled once |
| Sagas.HandledIffTerminal | examples/saga-pattern/src/shipment.handler.ts:36-48 | delivering any published message changes nothing if and only if every order is terminal |
| Sagas.DeliveredIffTerminal | examples/saga-pattern/src/compensation.handler.ts:63-84 | in every run, every order is terminal if and only if every published message whose handler changes rows has been delivered and its handler has committed |
| Sagas.CanFinish | examples/saga-pattern/src/payment.handler.ts:43-73 | from every reachable state committed deliveries of published messages lead to a state in which every order is terminal |
| SagaHandlers.OrderService.PlaceOrder | examples/saga-pattern/src/order.service.ts:30-40 | row and message together, or a duplicate id and nothing |
| SagaHandlers.ReservationHandler.OnOrderPlaced | examples/saga-pattern/src/reservation.handler.ts:53-91 | insert gate, conditional decrement, status and outcome message are the protocol's reserve step |
| SagaHandlers.PaymentHandler.OnInventoryReserved | examples/saga-pattern/src/payment.handler.ts:43-73 | insert gate and charge or decline are the pay step |
| SagaHandlers.ShipmentHandler.OnPaymentCharged | examples/saga-pattern/src/shipment.handler.ts:36-48 | the conditional move is the ship step |
| SagaHandlers.CompensationHandler.OnPaymentFailed | examples/saga-pattern/src/compensation.handler.ts:63-84 | the conditional move and stock restore are the compensate step |
| SagaHandlers.Relay.DeliverMessage | examples/saga-pattern/src/compensation.handler.ts:49-63 | a delivery is one atomic protocol step, or nothing when it aborts |
| Inventories.EveryRunConserves | examples/e-commerce-orders/src/inventory/release-stock.handler.ts:41-69 | over every sequence of reserve and release deliveries, per sku, available plus rows still reserved is constant |
| Inventories.FirstDeliveryIsAllOrNothing | examples/e-commerce-orders/src/inventory/reserve-stock.handler.ts:80-136 | a first delivery with distinct skus books every line and tells StockReserved exactly when every line is in stock, and otherwise changes no row and no stock and tells one failure, which names the first line not in stock |
| Inventories.RedeliveryAnswersByStock | examples/e-commerce-orders/src/inventory/reserve-stock.handler.ts:94-122 | after a success and any further deliveries, a redelivery keeps rows and stock and tells StockReserved if and only if every line could be taken once more, and else a failure that names the first line that could not |
| Inventories.FailureIsNotFinal | examples/e-commerce-orders/src/inventory/reserve-stock.handler.ts:62-72 | after a failure, which named the first line not in stock, and any deliveries of other lines, a redelivery books every line and tells StockReserved if and only if each is in stock by then, and else names the first that is not; the order can so be told both |
| Inventories.LastUnitIsDenied | examples/e-commerce-orders/src/inventory/reserve-stock.handler.ts:94-96 | the order that took the last unit is told of a failure on redelivery |
| Inventories.DeniedThenServed | examples/e-commerce-orders/src/inventory/reserve-stock.handler.ts:62-72 | an order denied for want of the last unit is told StockReserved on redelivery after its release |
| Inventories.RepeatedSkuIsReservedOnce | examples/e-commerce-orders/src/inventory/reserve-stock.handler.ts:106-122 | a sku on two lines is reserved once, and StockReserved still told |
| Inventories.ReleaseUndoesReserve | examples/e-commerce-orders/src/inventory/release-stock.handler.ts:51-66 | releasing a first delivery gives back exactly the stock there was |
| Inventories.ReleaseIsIdempotent | examples/e-commerce-orders/src/inventory/release-stock.handler.ts:52-59 | releasing twice is releasing once |
| InventoryHandlers.ReserveStockHandler.TryReserve | examples/e-commerce-orders/src/inventory/reserve-stock.handler.ts:80-131 | the loop, with undo on conflict and rollback on the first line out of stock, is the fold over the lines; each turn conserves stock |
| InventoryHandlers.ReserveStockHandler.HandleOrderPlaced | examples/e-commerce-orders/src/inventory/reserve-stock.handler.ts:62-72 | at most one transaction of a delivery commits: the reservation, or, after it has rolled back for want of stock, one of its own with nothing but the failure message; if that one fails too, nothing has changed |
| InventoryHandlers.ReserveStockHandler.PublishFailure | examples/e-commerce-orders/src/inventory/reserve-stock.handler.ts:133-136 | the second transaction adds one failure message or, when its COMMIT fails, nothing |
| InventoryHandlers.ReleaseStockHandler.HandlePaymentFailed | examples/e-commerce-orders/src/inventory/release-stock.handler.ts:41-69 | in whatever order the rows are found, each reserved row of the order is marked and given back once; each turn conserves stock |
| Keys.SplitUndoesKeyFor | packages/core/src/manager/adapter.registry.ts:104-106 | splitting a key at its first colon gives back the pair if and only if the adapter name has no colon |
| Keys.KeyForIsInjective | packages/core/src/manager/adapter.registry.ts:202-204 | such keys are equal only for equal pairs |
| Keys.ColonsInAdapterNamesCollide | packages/core/src/manager/adapter.registry.ts:40-42 | with colons two different pairs share a key |
| Registries.AdapterRegistry.RegisterAdapter | packages/core/src/manager/adapter.registry.ts:59-67 | the string-keyed map behaves as a map of pairs; the default always names a registered pair and moves only on the first or a default registration |
| Registries.AdapterRegistry.GetAdapter | packages/core/src/manager/adapter.registry.ts:75-81 | finds the pair's latest adapter, or fails |
| Registries.AdapterRegistry.GetByDataSource | packages/core/src/manager/adapter.registry.ts:100-125 | the scan returns the one registration of the dataSource, and fails on none or several |
| Registries.AdapterRegistry.GetAdapterNameByDataSource | packages/core/src/manager/adapter.registry.ts:134-159 | the same, for the name, failing on the same inputs |
| Registries.AdapterRegistry.GetAll | packages/core/src/manager/adapter.registry.ts:191-200 | every registered pair once, with its latest adapter |
| Registries.LastRegistrationWins | packages/core/src/manager/adapter.registry.ts:56-67 | after any registrations a pair is found exactly as registered last, and no pair is listed twice |
| Registries.NameThenGet | packages/core/src/manager/adapter.registry.ts:100-159 | looking up the name by dataSource and then the pair is looking up the adapter by dataSource; both fail together |
| Resolutions.ResolveAdapter | packages/core/src/manager/transaction.manager.ts:195-210 | resolving a dataSource and getting its adapter fails exactly where the manager's environment has a miss, with that error, and otherwise finds the adapter under the name the environment gives |
| Resolutions.MissIffNotOnce | packages/core/src/manager/adapter.registry.ts:134-159 | the manager finds an adapter if and only if the dataSource is registered exactly once |
| Resolutions.MissSaysWhy | packages/core/src/manager/adapter.registry.ts:134-159 | of a dataSource no registration names a TransactionAdapterNotFoundError, of one that two name under different adapters an IllegalTransactionStateError, and these errors of no other |
| Resolutions.ManagerOver | packages/core/src/manager/transaction.manager.ts:54-62 | over any registry a manager is made whose environment is what the registry answers, and it is ready to run programs |
| ErrorClassifiers.TypeOrmRetries | packages/typeorm/src/adapter/typeorm.adapter.ts:214-237 | an error is retried if and only if one of code 40001, 40P01 or ER_LOCK_DEADLOCK, or of number 1213, is at most three edges away |
| ErrorClassifiers.TypeOrmFindsMarks | packages/typeorm/src/adapter/typeorm.adapter.ts:220-237 | on every, also cyclic, error graph the classifier is true if and only if a retryable code or number is at most three edges away |
| ErrorClassifiers.DrizzleRetries | packages/drizzle/src/adapter/drizzle.adapter.ts:123-139 | if and only if one of code 40001 or 40P01 is at most three causes away |
| ErrorClassifiers.DrizzleFindsCauses | packages/drizzle/src/adapter/drizzle.adapter.ts:130-139 | the same along `cause` edges only, for SQLSTATEs |
| ErrorClassifiers.DrizzleImpliesTypeOrm | packages/drizzle/src/adapter/drizzle.adapter.ts:130-139 | what Drizzle retries TypeORM retries |
| ErrorClassifiers.AgreeOnPlainErrors | packages/drizzle/src/adapter/drizzle.adapter.ts:123-139 | without `driverError`, MySQL code and MySQL number the two agree |
| ErrorClassifiers.EachExceptionDisagrees | packages/typeorm/src/adapter/typeorm.adapter.ts:215-237 | each of the three alone makes them disagree |
| Backoffs.DelayInWindow | packages/core/src/manager/transaction.manager.ts:611-613 | each wait is a nonnegative integer below min(1000, 10·2^(k-1)) |
| Backoffs.DelayIsFloor | packages/core/src/manager/transaction.manager.ts:611-613 | each wait is the drawn part of its window, rounded down |
| Backoffs.WindowDoubles | packages/core/src/manager/transaction.manager.ts:611-613 | the windows are 10 ms after the first attempt, then twice the one before, up to 1000 ms |
| Backoffs.TotalWaitIsBounded | packages/core/src/manager/transaction.manager.ts:321-338 | n attempts wait at most 10·(2^(n-1)−1)−(n−1) for n ≤ 8, and 1270+1000·(n−8)−(n−1) beyond |
| Backoffs.BoundIsAttained | packages/core/src/manager/transaction.manager.ts:611-613 | that bound is attained |
| MachineRuns.SoloIsReference | packages/core/src/manager/transaction.manager.ts:96-173 | run alone, the step-by-step machine brings every program to its end, with the outcome, log and state of the reference semantics, and leaves its store |
| MachineLaws.CorrelationStays | packages/core/src/manager/transaction.manager.ts:362-363 | in every step of every program a store keeps its correlation id, and every transaction in it, visible or suspended, carries that id |
| Roots.IndependentIffAlone | packages/core/src/context/transaction.context.ts:99-119 | every interleaving of any root programs projects, for each root, onto its run alone, with the same map, rows, hooks, log and correlation ids, if and only if no root, alone, marks a shared error object with which another root, alone, comes to a retry decision unmarked and could retry |
| Roots.IndependentRootsEnd | packages/core/src/manager/transaction.manager.ts:54 | each of such roots, once it has had enough turns, has ended as the reference semantics says, however the others are interleaved |
| RootLaws.SafeRootsAreIndependent | packages/core/src/manager/transaction.manager.ts:325-329 | roots all of whose retry options are safe for the errors that reach their decisions are independent, whatever error objects they share |
| RootLaws.StoresStayApart | packages/core/src/context/transaction.context.ts:99-109 | clashing or not, in every interleaving each root's store holds exactly the transactions its own open callbacks say, all under its own correlation id |
| RootLaws.OtherRootRepeatsCommit | packages/core/src/manager/transaction.manager.ts:433-435 | a root that commits once alone commits twice beside a root that rolls back for the same error object |

## Left out

- Un-awaited overlapping runs in one store, including `async: true` listeners.
- Real SQL, isolation levels, read visibility, read-only mode, pools; a row is an opaque value, and a statement that fails does so as a throw of the program.
- Failures of SAVEPOINT, RELEASE and ROLLBACK TO themselves; whether a driver supports savepoints is a parameter.
- PostgreSQL's aborted state after a unique violation: the handlers go on as written. Under the other reading a conflicting delivery changes nothing, which is an aborted step of `Sagas.Step` and `Inventories.Step`; the theorems over all runs include those.
- The error argument of after-rollback hooks: a hook here does not look at it.
- Observers, logging, timestamps, transaction ids, the value a body returns.
- Options without a dataSource, which fall back to the registry's default.
- NestJS modules, decorators, bootstrap scanning, the patching of ORM objects beyond the lookup of the active transaction.
- The relay, leases, workflows, Kafka, controllers and the remaining examples; the `@Externalized` route table.
- In `Outboxes`: the waits between attempts, branches on the world's answers, and hooks registered on the first entry of the map; a `publish` to the bus's inner publisher is recorded in `Publishers`, not delivered. `Translations` is about worlds in which no `outbox.add` fails.
- `Drains` follows one transaction, whose hooks here track, push and throw and do nothing else; the workflow client and event bus wrappers that call `trackPending`, and their isolation and wiring checks.
- The in-memory adapter, whose record of operations is not cut back by a savepoint rollback.
- What concurrent roots do to each other in the database: each root has its own answers of the world and its own rows. The steps of `Machines` are finer than the points at which a chain awaits, so its interleavings include the real ones.
- Whether an error object made in one root can reach another other than by being shared from the start.
