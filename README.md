# herostory dispatch and login, in Dafny

herostory is a small multiplayer game server. Its game state is changed on
one thread only, the main lane (`MainThreadProcessor`): decoded client
messages are dispatched there to command handlers, and so are completions
of asynchronous work. Blocking work, such as a database lookup, goes to a
shard pool of eight single-thread executors (`AsyncOperationProcessor`).
Each operation (`IAsyncOperation`) carries an affinity key (`getBindId`).
The key picks its lane, `Math.abs(key) % 8`, so all work for one entity runs
on one lane in submission order. When the blocking body (`doAsync`)
returns, the operation's completion (`doFinish`) is handed to the main lane.
The one operation whose code is modelled is the login (`LoginService.userLogin`).
It looks the user up by name, creates a record with avatar "Hero_Shaman"
when there is none, refuses a wrong password, and gives the result (or null)
to the caller's callback on the main lane.

The model is a sequential state machine. Every executor is a FIFO queue,
and running a queue's head task is an explicit step.

- `JavaInt` holds Java `int` arithmetic: `Math.abs` wrapping at
  `Integer.MIN_VALUE`, and `%` truncating toward zero.
- `Login` holds the user DAO as an in-memory table, and the login
  operation's key, blocking body and completion.
- `Operation` holds an operation object: the login, or foreign code known
  only by what its `getBindId` does (a key, or an exception) and by whether
  its body returns.
- `MainThread` holds the main lane as a class with a task queue and the
  record of what it ran.
- `AsyncProcessor` holds the shard pool as a class over an array of eight
  queues.
- `LoginService` holds `userLogin`.
- `Fabric` holds the whole system as one state machine with a trace of
  events. For every interleaving of submissions and lane steps it proves a
  ledger: each lane holds only operations routed to it; each lane and the
  main lane are FIFO and lose or repeat nothing; and the completions reach
  the main lane exactly for the bodies that returned, in the order the lane
  steps that ran those bodies were taken. A second invariant proves the same
  per lane: operations on one lane, and so all operations of one entity,
  have their completions enqueued in the order they were submitted. Only
  this per-lane order holds in real time; across lanes the order of lane
  steps is the model's and need not match the order in which the bodies
  returned on the real threads (see "## Left out").

Null arguments are `Option` values. A Java call that may raise yields a
`Completion` (`Normal(value)` or `Abrupt`). Whether external code raises
(the DAO, a foreign body, a command handler, a runnable) is a `fault`
parameter of the step that runs it.

The hand-off of a completion depends on how the blocking body ends. The
pool's task calls `op.doAsync()` and then `process(op::doFinish)`, with no
`try` around them (`async/AsyncOperationProcessor.java:62-67`). So a
completion is handed off only when the body returns. A body that raises
ends the task: the exception is kept in the executor's future, and the
completion never runs. The model follows this code. For the login
it makes no difference, because its `doAsync` catches every `Exception`
itself.

## Model

All source paths are under `src/main/java/org/tinygame/herostory/`; the table writes them in full.

| member | source | states |
|---|---|---|
| JavaInt.Abs | src/main/java/org/tinygame/herostory/async/AsyncOperationProcessor.java:59 | `Math.abs` is the magnitude for every id except `Integer.MIN_VALUE`, which it returns unchanged, and it is negative exactly then |
| JavaInt.Rem | src/main/java/org/tinygame/herostory/async/AsyncOperationProcessor.java:60 | Java `%` by a positive divisor: the remainder takes the dividend's sign and its magnitude is the magnitude of the dividend modulo the divisor |
| JavaInt.EsIndex | src/main/java/org/tinygame/herostory/async/AsyncOperationProcessor.java:59-60 | the lane index is always in [0, 8) and equals the key's magnitude modulo 8 |
| JavaInt.MinValueLandsOnLaneZero | src/main/java/org/tinygame/herostory/async/AsyncOperationProcessor.java:59-60 | `Math.abs(Integer.MIN_VALUE)` is negative, yet that key still lands on lane 0, so the index never goes out of range |
| JavaInt.CongruentIdsShareLane | src/main/java/org/tinygame/herostory/async/AsyncOperationProcessor.java:59-60 | keys whose magnitudes agree modulo 8 share a lane |
| JavaInt.NegativeIdsAreNotReducedModulo | src/main/java/org/tinygame/herostory/async/AsyncOperationProcessor.java:59-60 | key -3 goes to lane 3 while key 5 goes to lane 5: the lane follows the magnitude, not the key modulo 8 |
| Login.UserDao.constructor | src/main/java/org/tinygame/herostory/login/LoginService.java:117-119 | the DAO starts over the given user table |
| Login.UserDao.GetByUserName | src/main/java/org/tinygame/herostory/login/LoginService.java:121 | `getByUserName` returns a record iff the name is in the table, and then the record stored under it |
| Login.UserDao.InsertInto | src/main/java/org/tinygame/herostory/login/LoginService.java:133 | `insertInto` files the record under its user name and changes no other entry |
| Login.GetBindId | src/main/java/org/tinygame/herostory/login/LoginService.java:105-113 | the key is 0 for a null name and the code of the name's last character otherwise (in [0, 65536)); on the empty name `charAt(-1)` raises |
| Login.Authenticate | src/main/java/org/tinygame/herostory/login/LoginService.java:121-136 | found with the matching password: that record, table unchanged; found with another password: nothing recorded, table unchanged; not found: a new record with these credentials and avatar "Hero_Shaman", stored under the name; a returned record carries the given password and is the one stored under the name; a well-keyed table stays well-keyed, and then the returned record carries the name |
| Login.DoAsyncSpec | src/main/java/org/tinygame/herostory/login/LoginService.java:115-141 | `doAsync` as a transition: when the DAO raises nothing changes; otherwise the table is the one the lookup-or-create leaves, and `_userEntity` takes the record when there is one; the credentials and callback are never changed |
| Login.DoAsync | src/main/java/org/tinygame/herostory/login/LoginService.java:115-141 | the method against the DAO object leaves the operation and the DAO table exactly as the transition says |
| Login.DoFinish | src/main/java/org/tinygame/herostory/login/LoginService.java:57-62 | `doFinish` applies the callback iff one was given, and passes it `getUserEntity()`, which may be null |
| Login.LoginIsIdempotent | src/main/java/org/tinygame/herostory/login/LoginService.java:121-136 | logging in again with credentials that just succeeded returns the same record and leaves the table as it is |
| Login.OtherPasswordIsRefused | src/main/java/org/tinygame/herostory/login/LoginService.java:123-126 | once a login has succeeded, a login with any other password for that name records nothing and leaves the table as it is |
| Operation.BindId | src/main/java/org/tinygame/herostory/login/LoginService.java:105-113 | a login's key raises exactly when its user name is empty; a foreign operation's `getBindId` returns its key or raises, as that code does |
| Operation.RunBlocking | src/main/java/org/tinygame/herostory/async/AsyncOperationProcessor.java:64 | `doAsync` keeps the operation's identity, kind and key; a foreign body changes no table and returns iff it does not fault; the login body always returns and follows its transition |
| Operation.DoAsync | src/main/java/org/tinygame/herostory/async/AsyncOperationProcessor.java:64 | the method against the DAO object matches the blocking-body transition |
| Operation.DoFinish | src/main/java/org/tinygame/herostory/async/AsyncOperationProcessor.java:66 | the completion of a login is its `doFinish`; that of a foreign operation is known by the operation's identity |
| MainThread.Cast | src/main/java/org/tinygame/herostory/MainThreadProcessor.java:104-111 | `cast` yields the message iff it is a protobuf message, and null otherwise |
| MainThread.SubmitMessage | src/main/java/org/tinygame/herostory/MainThreadProcessor.java:57-84 | `process(ctx, msg)` does nothing when either argument is null, and otherwise appends exactly one dispatch task for them at the end of the queue |
| MainThread.SubmitRunnable | src/main/java/org/tinygame/herostory/MainThreadProcessor.java:91-95 | `process(Runnable)` appends the runnable at the end of the queue iff it is not null |
| MainThread.Execute | src/main/java/org/tinygame/herostory/MainThreadProcessor.java:71-83 | a dispatch task calls the handler registered for the message's class with the context and `cast(msg)`, or calls nothing when there is no handler; a handler's fault is caught and ends only that task; a runnable completion runs the operation's `doFinish` |
| MainThread.MainThreadProcessor.constructor | src/main/java/org/tinygame/herostory/MainThreadProcessor.java:30-40 | the main lane starts idle, with nothing run and nothing queued |
| MainThread.MainThreadProcessor.Process | src/main/java/org/tinygame/herostory/MainThreadProcessor.java:57-84 | `process(ctx, msg)` changes the queue as the submission function says; what ran followed by what is queued stays exactly what was submitted |
| MainThread.MainThreadProcessor.ProcessRunnable | src/main/java/org/tinygame/herostory/MainThreadProcessor.java:91-95 | `process(Runnable)` changes the queue as the submission function says, and keeps the same FIFO invariant |
| MainThread.MainThreadProcessor.RunNext | src/main/java/org/tinygame/herostory/MainThreadProcessor.java:30-34 | the single thread takes the head task, runs it to its effect, removes it from the queue and appends it to the run record; the FIFO invariant is kept |
| AsyncProcessor.Route | src/main/java/org/tinygame/herostory/async/AsyncOperationProcessor.java:59-60 | the lane is chosen iff the key does not raise, is below 8, and equals the key's magnitude modulo 8 |
| AsyncProcessor.Submit | src/main/java/org/tinygame/herostory/async/AsyncOperationProcessor.java:53-68 | a null operation changes nothing; a raising key raises and changes nothing; otherwise the operation is appended to the end of its lane and every other lane is unchanged |
| AsyncProcessor.RunLaneSpec | src/main/java/org/tinygame/herostory/async/AsyncOperationProcessor.java:62-67 | a lane step removes only that lane's head and runs its body once; the completion is appended to the main queue iff the body returned; all other lanes are unchanged |
| AsyncProcessor.SameKeySameLane | src/main/java/org/tinygame/herostory/async/AsyncOperationProcessor.java:58-60 | two operations with the same key are routed to the same lane |
| AsyncProcessor.AsyncOperationProcessor.constructor | src/main/java/org/tinygame/herostory/async/AsyncOperationProcessor.java:35-46 | the pool starts with eight fresh, empty lanes |
| AsyncProcessor.AsyncOperationProcessor.Process | src/main/java/org/tinygame/herostory/async/AsyncOperationProcessor.java:53-68 | `process(op)` changes the lane array exactly as the submission function says, and keeps each lane's "ran followed by pending equals appended" invariant |
| AsyncProcessor.AsyncOperationProcessor.RunLane | src/main/java/org/tinygame/herostory/async/AsyncOperationProcessor.java:62-67 | a lane's executor runs its head task; the lanes, the main queue and the DAO table change exactly as the lane-step function says; both processors keep their FIFO invariants |
| LoginService.LoginRequest | src/main/java/org/tinygame/herostory/login/LoginService.java:50-63 | `userLogin` builds an operation iff the user name and password are both non-null; the operation holds those credentials, the callback (possibly null) and no record yet |
| LoginService.UserLogin | src/main/java/org/tinygame/herostory/login/LoginService.java:50-64 | `userLogin` submits exactly that operation to the pool; it raises to its caller iff both credentials are given and the name is empty |
| Fabric.Init | src/main/java/org/tinygame/herostory/async/AsyncOperationProcessor.java:35-46 | at process start every lane and the main queue are empty and nothing has happened |
| Fabric.AcceptEvent | src/main/java/org/tinygame/herostory/async/AsyncOperationProcessor.java:53-62 | submitting an operation records its acceptance on the routed lane iff its key does not raise, and its rejection otherwise |
| Fabric.FinishIdsConcat | src/main/java/org/tinygame/herostory/async/AsyncOperationProcessor.java:66 | the completions among two task sequences joined are those of the first followed by those of the second |
| Fabric.InitLedger | src/main/java/org/tinygame/herostory/async/AsyncOperationProcessor.java:35-46 | the ledger holds at process start |
| Fabric.AcceptKeepsLedger | src/main/java/org/tinygame/herostory/async/AsyncOperationProcessor.java:53-62 | submitting an operation keeps the ledger |
| Fabric.StepLaneKeepsLedger | src/main/java/org/tinygame/herostory/async/AsyncOperationProcessor.java:62-67 | a lane step keeps the ledger, whether or not the body returns |
| Fabric.StepMainKeepsLedger | src/main/java/org/tinygame/herostory/MainThreadProcessor.java:30-34 | a main-lane step keeps the ledger |
| Fabric.StepKeepsLedger | src/main/java/org/tinygame/herostory/async/AsyncOperationProcessor.java:53-67 | every kind of step keeps the ledger |
| Fabric.RunKeepsLedger | src/main/java/org/tinygame/herostory/async/AsyncOperationProcessor.java:53-67 | the ledger holds after any sequence of steps, by induction on the sequence |
| Fabric.Reachable | src/main/java/org/tinygame/herostory/async/AsyncOperationProcessor.java:35-67 | every fabric reached from process start by any interleaving keeps the ledger |
| Fabric.SameKeyRunsInSubmissionOrder | src/main/java/org/tinygame/herostory/async/AsyncOperationProcessor.java:58-67 | two operations accepted on a lane were routed there; when the later one's body has run, the earlier one's ran before it (per-entity ordering) |
| Fabric.CompletionsFollowReturns | src/main/java/org/tinygame/herostory/async/AsyncOperationProcessor.java:62-67 | the completions already run followed by those pending are exactly those of the bodies that returned, once each, in the order the lane steps that ran them were taken (across lanes not the real-time return order; see "## Left out") |
| Fabric.DrainedRunsEverything | src/main/java/org/tinygame/herostory/async/AsyncOperationProcessor.java:62-67 | once every queue is drained, every accepted operation's body ran in order, every main-lane task ran in order, and the completions run are exactly those of the bodies that returned (no lost task) |
| Fabric.LaneFinishIdsConcat | src/main/java/org/tinygame/herostory/async/AsyncOperationProcessor.java:66 | the completions for one lane among two task sequences joined are those of the first followed by those of the second |
| Fabric.StepLaneViews | src/main/java/org/tinygame/herostory/async/AsyncOperationProcessor.java:62-67 | a lane step accepts nothing, and adds the body's id to those returned on its lane, and its completion to those queued for that lane, iff the body returned; other lanes see nothing |
| Fabric.StepLaneKeepsOwnOrder | src/main/java/org/tinygame/herostory/async/AsyncOperationProcessor.java:62-67 | a lane step keeps that lane's order: the head's id exceeds every id returned before, and its completion is queued after theirs |
| Fabric.StepKeepsLaneOrder | src/main/java/org/tinygame/herostory/async/AsyncOperationProcessor.java:53-67 | every kind of step keeps the order of every lane |
| Fabric.RunKeepsLaneOrder | src/main/java/org/tinygame/herostory/async/AsyncOperationProcessor.java:53-67 | the lane order holds after any sequence of steps, by induction on the sequence |
| Fabric.ReachableLaneOrder | src/main/java/org/tinygame/herostory/async/AsyncOperationProcessor.java:35-67 | every fabric reached from process start by any interleaving keeps the order of every lane |
| Fabric.LaneCompletionsFollowReturns | src/main/java/org/tinygame/herostory/async/AsyncOperationProcessor.java:58-67 | for one lane, the completions already run followed by those pending are exactly those of the lane's bodies that returned, once each, in the order they returned, which is increasing id order; this order holds in real time, since one lane is one thread |
| Fabric.SameKeyCompletionsInSubmissionOrder | src/main/java/org/tinygame/herostory/async/AsyncOperationProcessor.java:58-67 | of two operations accepted on one lane (as any two with the same key are), the earlier has the smaller id, and when both completions have been enqueued on the main lane, the earlier one's was enqueued first |
| Fabric.ScenarioNewUser | src/main/java/org/tinygame/herostory/login/LoginService.java:127-136 | a first login of "alice" creates her record with avatar "Hero_Shaman", and the callback on the main lane receives that record |
| Fabric.ScenarioWrongPassword | src/main/java/org/tinygame/herostory/login/LoginService.java:123-126 | a login with the wrong password leaves the table as it was, and the callback still runs, with null |
| Fabric.ScenarioLoginStoreRaises | src/main/java/org/tinygame/herostory/login/LoginService.java:137-140 | when the DAO raises, the login body swallows the exception: the table is untouched and the callback still runs, with null |
| Fabric.ScenarioSharedLane | src/main/java/org/tinygame/herostory/async/AsyncOperationProcessor.java:58-67 | keys 5 and 13 share lane 5; their bodies run in submission order and their completions reach the main queue in that order |
| Fabric.ScenarioForeignBodyRaises | src/main/java/org/tinygame/herostory/async/AsyncOperationProcessor.java:62-67 | a foreign body that raises empties its lane slot but never hands its completion to the main lane |
| Fabric.ScenarioForeignKeyRaises | src/main/java/org/tinygame/herostory/async/AsyncOperationProcessor.java:59 | a foreign operation whose `getBindId` raises is rejected: no lane and no main-lane task is added |
| Fabric.ScenarioMainLaneContainsFaults | src/main/java/org/tinygame/herostory/MainThreadProcessor.java:71-83 | a handler that raises does not stop the task queued after it, and a message with no registered handler calls nothing |

## Left out

- Threads, real concurrency and executor shutdown: each executor is a FIFO queue, and a run is a sequence of explicit steps. Visibility between threads (memory model) is not modelled.
- The lane task (`async/AsyncOperationProcessor.java:64-66`), `doAsync()` followed by `process(op::doFinish)`, is one atomic step. On the real threads another lane can act between the two calls, so lane A's body can return before lane B's while B's completion still reaches the main queue first. Taking the task as one step is sound. Bodies on different lanes touch disjoint state: different lanes mean different keys, so different user names, and foreign bodies leave the table alone. So such a run has the same effect as B's lane step followed by A's. Only the per-lane order (`Fabric.LaneCompletionsFollowReturns`, `Fabric.SameKeyCompletionsInSubmissionOrder`) holds in real time.
- Fabric.CompletionsFollowReturns: across lanes, "in the order they returned" is the order in which the lane steps ran, not the real-time order of the returns on the threads, because each lane task is one step.
- Fabric.DrainedRunsEverything: the same holds for its statement that the completions run are those of the bodies that returned; the set is exact, but across lanes their order is the order of lane steps.
- Logging (`LOGGER`) and thread names: they have no effect on behaviour.
- Singletons (`getInstance`): the model passes the processor objects explicitly.
- The identity of an operation object is its `id`. The object is a value: the body returns the updated operation, and that value is what goes to the main lane. Aliasing of the object is not modelled; nothing else holds it.
- `CmdHandlerFactory` and the command handlers are a map from message class to handler identity. What a handler does, including any operation it submits, is an environment step (`SubmitForeign`, `UserLogin`).
- Netty contexts and protobuf payloads are opaque identities.
- `MySqlSessionFactory` and the MyBatis session are not part of this model. `insertInto` is treated as durable. A DAO failure is one `fault` flag that stands for any `Exception` raised in the body; when it is set, nothing reaches the table.
- Foreign operations' blocking bodies are taken to leave the user table alone. Their effects on game state or storage are foreign code and not part of this model; only whether the body returns is modelled.
- The user record's other columns (such as the user id) are left out: the login code does not read them.
- Throwables that are not `Exception` (Java `Error`s) escape the login body's `catch`. They are not modelled.
- Real string hashing, locale and collation: names are compared as sequences of UTF-16 code units, exactly as `String.equals` and a map lookup by name compare them.
- The callback's own code is not part of this model: the completion records which callback got which result.
