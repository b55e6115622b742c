# A verified model of the batch job queue and its IPC layer

This project models the two state machines at the heart of the `batch`
job runner.

**The disk-backed job queue (`lib/queue.js`).** A repository root holds one
directory per topic. Each topic has four stage directories: `queued`,
`inprogress`, `done` and `dead`. A job is one JSON record file, named by its
id. The pieces are:

- `emit` writes a new job into `queued`.
- Each tick of an `on` loop claims the oldest queued file, with the oldest
  file found by modification time. The claim moves the file to `inprogress`
  and runs the handler. A timer of the task timeout is started beside it,
  but as written it cannot settle the attempt: the attempt follows the
  handler alone (see "## Findings").
- The loop then records the attempt and routes the job to one of three
  stages:
  - `done` on success;
  - back to `queued`, while the engine-wide attempt budget lasts;
  - `dead` once the budget is spent, which also calls the dead-letter
    listeners.
- `reset` removes a topic.
- `stop` makes every loop deregister itself from the in-flight list at its
  next tick. It resolves the stop completion when the list is empty.

**The RPC layer over a process channel (`lib/ipc.js`).** `createEmitter`
forwards each emit to the other process until the channel reports `exit`.
After that, emits are dropped.

`createRPC` correlates requests and responses through an `outgoing` table
and an `incoming` table. It marshals function arguments as callback ids
recorded in an `fds` table, and the responder replaces those arguments by
stubs that emit `callback` messages.

The Dafny modules are:

- `Values` (`values.dfy`): JSON values, JavaScript truthiness and Node's
  timer clamping.
- `Store` (`store.dfy`): the files under the repository root as a map from
  `topic/stage/id` paths to records with logical mtimes. No directories
  are recorded: a missing directory lists as empty, just like an empty one.
  The module also holds the file operations, the sort of `_list`, and the
  store invariants with the lemmas that each operation keeps them.
- `JobQueue` (`queue.dfy`), which holds:
  - options and `createMessage`;
  - the settlement of one attempt (`Settled`);
  - the loop invariants;
  - the class `Queue`, whose methods update its fields in place.
- `Ipc` (`ipc.dfy`), which holds:
  - the class `Emitter`;
  - the pure marshalling functions for `fds` and for the responder's
    stubs, with round-trip lemmas;
  - the class `Rpc`.

`Queue.Valid()` is the bookkeeping every state keeps:

- every file is stamped and named by its record's id;
- `_inflight` lists exactly the loops that have not left, once each.

`Queue.Consistent()` is the lifecycle invariant:

- each job is in one stage of its topic;
- every queued or in-progress job has no attempt yet, or fewer attempts
  than the engine-wide budget (so a job with no attempt qualifies even when
  the budget is 0 or negative);
- every running handler's job is in `inprogress` exactly as it was read,
  and no two loops process the same job.

Every method keeps `Valid()`. Every public operation except `Reset` keeps
`Consistent()`; `Reset` keeps it only when no handler of the topic is
running. The internal step `Commit` installs a state computed elsewhere, and
its `Consistent()` afterwards is exactly the lifecycle invariant of that
state.

A handler that never settles keeps its loop `Running` for ever. The loop
then stays in `_inflight`, so the stop completion never resolves
(`JobQueue.RunningBlocksStop`).

The model follows the code in these places, where it departs from what its
names, its records or its tests would suggest:

- `createMessage` stores `taskTimeout` and `maxAttempts` in every job
  (lib/queue.js:48-49). The timer and the dead-letter threshold still read
  the engine's `_options` values (lib/queue.js:165, 186), never the job's
  own fields.
- Only the channel's `exit` event marks it dead; `error` does not.
- Suppose a handler is still running when its topic is reset. If it then
  succeeds, `_delete` throws ENOENT and the `.catch` handler runs as well.
  It pushes the same attempt object a second time and writes the job into
  `queued` or `dead` as well as `done` (`JobQueue.SettledOrphan`).
- `stop()` with no loop registered does not resolve its completion by itself. It resolves only when a later `on` registers a loop, which then leaves at once and empties `_inflight` (lib/queue.js:124-130).
- The timer's rejection at lib/queue.js:163-165 cannot settle the attempt
  (the first row of "## Findings"). The engine models both readings:
  `Queue.SettleAsWritten` for the code and `Queue.SettleIntended` for the
  timeout the code evidently means.

## Model

| member | source | states |
|---|---|---|
| `Values.TimerDelay` | lib/queue.js:163-165 | The delay a timer really waits is between 1 and 2^31-1 ms, and equals the requested delay within that range. |
| `Store.Ids` | lib/queue.js:93-94 | `readdir` of a stage yields exactly the ids whose file exists at that topic and stage. |
| `Store.Dir` | lib/queue.js:91-104 | A stage directory holds exactly the files stored under that topic and stage, with their records and mtimes; a missing directory reads as empty. |
| `Store.Put` | lib/queue.js:70-77 | After `_write`, the file of the job at that topic and stage holds the record, stamped with the current time. |
| `Store.Load` | lib/queue.js:79-82 | `_read` fails exactly when the file is missing, and otherwise returns the record stored there. |
| `Store.Rename` | lib/queue.js:84-89 | `_move` fails exactly when the source file is missing. Otherwise the target holds the source's entry, and the source is gone when the stages differ. |
| `Store.Unlink` | lib/queue.js:106-109 | `_delete` fails exactly when the file is missing, and otherwise the file is gone. |
| `Store.Purge` | lib/queue.js:111-114 | After removing a topic, exactly the files of the other topics remain, unchanged. |
| `Store.PutLoad` | lib/queue.js:70-82 | A record written into a stage reads back unchanged from it; every other file is untouched. |
| `Store.UnlinkRemoves` | lib/queue.js:106-109 | Unlinking fails exactly when the file is missing; otherwise that file is gone and no other file appears or disappears. |
| `Store.RenameMoves` | lib/queue.js:84-89 | A rename fails exactly when the source is missing; otherwise the target holds the source's record with its mtime, the source is gone, and all other files are unchanged. |
| `Store.PurgeEmpties` | lib/queue.js:111-114 | After removing a topic, every one of its stages is empty and it holds no job; other topics' files are unchanged; removing it again changes nothing. |
| `Store.PutThenUnlink` | lib/queue.js:178-179 | Writing the record into the target stage and then unlinking the `inprogress` file is a move of the job to the target stage. |
| `Store.Insert` | lib/queue.js:99 | One insertion step of the sort returns the list with the new file added: the same multiset plus that file. |
| `Store.InsertByTime` | lib/queue.js:99 | Inserting into a list in ascending mtime order keeps it in that order. The head is the inserted file or the old head. |
| `Store.SortByTime` | lib/queue.js:93-100 | The sort returns a permutation of its input in non-decreasing mtime order. |
| `Store.FreshNotStored` | lib/queue.js:44 | An id `uuid()` has not yet issued names no file in any stage. |
| `Store.PutStamped` | lib/queue.js:70-77 | A write stamped with the current clock keeps every file stamped and named by its record's id. |
| `Store.PutFreshOneStage` | lib/queue.js:117-120 | Writing a job that its topic does not hold keeps every job in one stage. |
| `Store.PutBounded` | lib/queue.js:186-189 | Writing a job into `queued` with attempts left, or into a terminal stage, keeps the attempt bound on live stages. |
| `Store.PutHolds` | lib/queue.js:70-77 | A write adds its job to its topic and to no other, and removes no job. |
| `Store.MovedHolds` | lib/queue.js:84-89 | A move between stages keeps the set of jobs of every topic. |
| `Store.MovedOneStage` | lib/queue.js:143 | A move keeps every job in one stage, and the moved job is then in the target stage only. |
| `Store.MovedStamped` | lib/queue.js:84-89 | A move carrying a stamped record keeps every file stamped. |
| `Store.MovedBounded` | lib/queue.js:186-190 | A move of a job with attempts left, or into a terminal stage, keeps the attempt bound. |
| `Store.PurgeKeeps` | lib/queue.js:210-213 | A reset keeps every store invariant and the jobs of every other topic. |
| `JobQueue.Assign` | lib/queue.js:59 | `Object.assign` takes each key from the overrides when present, and otherwise keeps the base value; no overrides leave the base as it was. |
| `JobQueue.ThreeLevels` | lib/queue.js:117-118 | The options of `emit` take each key from the call when given, else from the constructor options, else from the defaults 200, 10000 and 4. |
| `JobQueue.CreateMessage` | lib/queue.js:42-51 | A new job has the given id, data and time, no attempts, and the task timeout and attempt budget of the merged options. |
| `JobQueue.RaceAsWritten` | lib/queue.js:156-170 | As written, the attempt follows the handler alone: it succeeds with the returned value or fails with the thrown error, however late, and never settles for a handler that never settles. |
| `JobQueue.Race` | lib/queue.js:156-170 | The attempt times out exactly when the handler has not settled within the engine's task timeout; otherwise it settles as the handler did. |
| `JobQueue.LateHandlerSucceedsAsWritten` | lib/queue.js:163-165 | With the default 10000 ms timeout, a handler returning after 10000 ms is a success as written and a timeout as intended. |
| `JobQueue.HangingHandlerNeverSettlesAsWritten` | lib/queue.js:163-165 | A handler that never settles leaves the attempt unsettled as written, and times it out as intended. |
| `JobQueue.NewAttempt` | lib/queue.js:147-154 | A fresh attempt has its id and creation time, a `null` status, no processing time, no error and a `null` result. |
| `JobQueue.ErrorOf` | lib/queue.js:181-182 | A failure records the handler's error; a timeout records an `Error` whose message is `"timeout"`. |
| `JobQueue.Final` | lib/queue.js:172-185 | Settling appends exactly one attempt and keeps everything else in the job. The new attempt has `processedAt` set. A success has status `success` and the handler's result; a failure has status `failure` and its error, with message `"timeout"` for a timeout. |
| `JobQueue.Failed` | lib/queue.js:181-183 | The failed attempt has status `failure`, the error and the processing time, and keeps its id, creation time and result. |
| `JobQueue.Route` | lib/queue.js:186-188 | A failed job goes to `dead` exactly when its attempt count reaches the engine-wide budget, and back to `queued` exactly when it does not. |
| `JobQueue.Destination` | lib/queue.js:172-189 | A settled job never stays in `inprogress`; it goes to `done` exactly on success; it is requeued only with attempts left. |
| `JobQueue.Settled` | lib/queue.js:172-196 | A settlement calls listeners only for a failure whose attempt count reaches the budget. It keeps the job's id and data, adds at least one attempt, and leaves no file in `inprogress` for the job. |
| `JobQueue.SettledClaimed` | lib/queue.js:172-196 | With the job still in `inprogress`, settlement moves it to `done` on success. Otherwise it goes to `dead` exactly when its attempt count reaches the budget, and to `queued` otherwise, carrying the settled record. Listeners run exactly when it went to `dead`. No topic gains or loses a job. |
| `JobQueue.SettledOrphan` | lib/queue.js:172-196 | With the `inprogress` file gone, no listener runs. A failure is written into `dead` or `queued`. A success is written into `done` and is then handled as a failure too: the attempt is pushed a second time, and the job is written into `dead` or `queued` as well. |
| `JobQueue.RequeuedLast` | lib/queue.js:186-190 | A requeued job gets an mtime later than every other queued job of its topic, so the next listing puts it last. |
| `JobQueue.Notify` | lib/queue.js:191-195 | The dead-letter listeners are each called once with the job, in registration order. |
| `JobQueue.IndexOf` | lib/queue.js:128 | `indexOf` returns the first position of the element, and -1 exactly when it is absent. |
| `JobQueue.Splice` | lib/queue.js:128 | `splice(i, 1)` removes the entry at `i` when `i` is a position, the last entry when `i` is -1, and nothing when `i` is past the end. |
| `JobQueue.DeregisterOwnEntry` | lib/queue.js:128 | `splice(indexOf(listener), 1)` on a duplicate-free list removes exactly that entry and no other. |
| `JobQueue.DeregisterNewest` | lib/queue.js:124-128 | A loop pushed last and removed by `splice(indexOf(...), 1)` leaves the list as it was before the push. |
| `JobQueue.PutKeepsLoops` | lib/queue.js:70-77 | A write outside `inprogress` keeps every running job claimed. |
| `JobQueue.EmitKeeps` | lib/queue.js:117-120 | `emit` adds exactly one job, with a fresh id, to its topic. No other job appears or disappears. Both invariants are kept. |
| `JobQueue.ParkKeeps` | lib/queue.js:127-139 | Putting a loop into a phase that runs no handler keeps the lifecycle invariant. |
| `JobQueue.RegisterKeeps` | lib/queue.js:123-124 | Pushing a fresh loop onto `_inflight` keeps the bookkeeping. |
| `JobQueue.LeaveKeeps` | lib/queue.js:127-132 | A stopped loop's `splice` removes exactly its own entry from `_inflight` and keeps the bookkeeping. |
| `JobQueue.ClaimKeepsLoops` | lib/queue.js:141-145 | A claim keeps every running job claimed, the new one included, and no job is claimed twice. |
| `JobQueue.ClaimKeeps` | lib/queue.js:141-154 | A claim moves the job from `queued` to `inprogress` and reads it back unchanged. The job becomes the loop's running job with a fresh attempt. No job appears or disappears, and both invariants are kept. |
| `JobQueue.SettleKeepsLoops` | lib/queue.js:178-190 | Settling one running job keeps every other running job claimed. |
| `JobQueue.OrphanBreaks` | lib/queue.js:143-145 | A running job whose file has left `inprogress` already violates the lifecycle invariant. |
| `JobQueue.SettledClaimedKeeps` | lib/queue.js:172-197 | Settling a claimed job keeps both invariants. |
| `JobQueue.SettledOrphanKeeps` | lib/queue.js:172-197 | Settling a job whose file is gone keeps the bookkeeping. |
| `JobQueue.RunningBlocksStop` | lib/queue.js:126-133 | While a loop is still running its handler, it stays in `_inflight` even after another loop leaves. So `_inflight` cannot become empty and the stop completion cannot resolve. |
| `JobQueue.PurgeKeepsLoops` | lib/queue.js:111-114 | Removing a topic that no running handler belongs to keeps every running job claimed. |
| `JobQueue.Queue.constructor` | lib/queue.js:58-66 | A new engine over an empty repository has the defaults merged with the constructor options, is not stopped, and has no loops, in-flight entries or listeners. |
| `JobQueue.Queue.List` | lib/queue.js:91-104 | Listing a stage returns each of its files once, in non-decreasing mtime order; a missing topic or stage lists as empty. |
| `JobQueue.Queue.Emit` | lib/queue.js:117-120 | The new files are the old ones plus the job `createMessage` builds from the merged options, written into `queued`. Both invariants are kept. |
| `JobQueue.Queue.Leave` | lib/queue.js:127-133 | A loop of a stopped engine removes its own `_inflight` entry and leaves. The stop completion resolves exactly when `_inflight` becomes empty. |
| `JobQueue.Queue.Claim` | lib/queue.js:141-154 | The chosen job moves from `queued` to `inprogress` and becomes the loop's running job with a fresh attempt. Both invariants are kept. |
| `JobQueue.Queue.Tick` | lib/queue.js:135-154 | With jobs queued, a tick claims exactly one, the oldest by mtime: that file moves to `inprogress`, the job becomes the loop's running job with a fresh attempt, and one id and one clock tick are used. With none queued, the loop waits and the files, clock and ids are unchanged. No other loop changes. |
| `JobQueue.Queue.Poll` | lib/queue.js:126-154 | Once stopped, a poll claims nothing, leaves the files, clock and ids alone and deregisters its loop. Otherwise it ticks exactly as `Tick` does, leaving `_inflight` and the completion alone. |
| `JobQueue.Queue.Settle` | lib/queue.js:172-197 | An attempt's outcome leaves the files as `Settled` says. Dead-letter listeners are called in order exactly when it says so, and the loop waits for its next tick. This holds whether or not the engine was stopped. Both invariants are kept. |
| `JobQueue.Queue.SettleAsWritten` | lib/queue.js:156-197 | As written, a handler that returns or throws settles the attempt with its own outcome, however late, with the files, listener calls and loop as `Settled` says for that outcome. Both invariants are kept. |
| `JobQueue.Queue.SettleIntended` | lib/queue.js:156-197 | As intended, the handler's outcome raced against the engine-wide task timeout settles the attempt as `Settled` says for the race's result, with the same invariants. |
| `JobQueue.Queue.Commit` | lib/queue.js:172-197 | Installing a settled state keeps the bookkeeping and makes the lifecycle invariant that of the new state. |
| `JobQueue.Queue.Register` | lib/queue.js:123-124 | `on` pushes one fresh loop onto the end of `_inflight`. |
| `JobQueue.Queue.On` | lib/queue.js:122-203 | `on` registers one fresh loop and runs its first tick at once. On a stopped engine the loop leaves at once, restoring `_inflight` and leaving the files, clock and ids alone. Otherwise the loop stays in `_inflight`. It claims the oldest queued job of its topic, moving that file to `inprogress`; with none queued, the files, clock and ids are unchanged. |
| `JobQueue.Queue.Dead` | lib/queue.js:205-208 | `dead` appends the listener after the existing ones. |
| `JobQueue.Queue.Reset` | lib/queue.js:210-213 | The files become those with the topic removed. Other topics are unchanged, and the repeated call is idempotent by `Store.PurgeEmpties`. |
| `JobQueue.Queue.Stop` | lib/queue.js:215-218 | `stop` sets the stopped flag and resolves nothing itself. |
| `Ipc.Emitter.constructor` | lib/ipc.js:8-12 | A new emitter has sent nothing, is not dead and has dispatched nothing. |
| `Ipc.Emitter.Emit` | lib/ipc.js:14-20 | While the channel lives, an emit appends exactly one `{channel, args}` envelope to what was sent; after its exit it appends nothing. |
| `Ipc.Emitter.OnMessage` | lib/ipc.js:22-24 | An incoming envelope is dispatched locally as it came. |
| `Ipc.Emitter.OnError` | lib/ipc.js:26-28 | A process error is re-emitted locally as `error` and does not make the channel dead. |
| `Ipc.Emitter.OnExit` | lib/ipc.js:30-33 | After `exit` the channel is dead, and `exit` is re-emitted locally. |
| `Ipc.WireArgs` | lib/ipc.js:91-95 | The request carries every argument in place; a function argument crosses the channel as `null`. |
| `Ipc.Fds` | lib/ipc.js:94-103 | Every key of `fds` is an argument index, and there is one key per function argument. |
| `Ipc.Callbacks` | lib/ipc.js:96-99 | The callback table holds one entry per function argument, each under an id issued in that call. |
| `Ipc.FdsKeys` | lib/ipc.js:94-103 | The keys of a request's `fds` are exactly the indices of its function arguments. Each maps to an id issued in that call. |
| `Ipc.FdsDistinct` | lib/ipc.js:96-103 | Distinct function arguments get distinct callback ids. |
| `Ipc.CallbacksKeys` | lib/ipc.js:96-99 | The callback table gains exactly the ids issued in that call. |
| `Ipc.CallbacksMatch` | lib/ipc.js:94-103 | The callback table maps the id at each function argument's index back to that function. |
| `Ipc.Materialise` | lib/ipc.js:52-59 | Each argument whose index is marked in `fds` becomes a stub with that callback id; every other argument is passed through unchanged. |
| `Ipc.ArgsRoundTrip` | lib/ipc.js:52-103 | The api receives each plain argument unchanged. For each function, it receives a stub whose callback id the caller's table maps back to that function. |
| `Ipc.Reply` | lib/ipc.js:69-72 | The response carries the request's id and one of three payloads: the api's result when it returns in time (no `result` at all when it returns `undefined`), its thrown value as `error` when it throws in time, or the timeout error otherwise. |
| `Ipc.Settlement` | lib/ipc.js:80-81 | The caller's promise is rejected with the error exactly when the error is truthy, and is otherwise resolved with the result. |
| `Ipc.CallRoundTrip` | lib/ipc.js:61-81 | When the api returns in time, the caller's promise resolves with its value, `undefined` included. It resolves with a defined value exactly when the api returned one in time, and it resolves at all exactly when the api returned, or threw a falsy value, in time. It is rejected exactly when the api threw a truthy value in time or ran out of time. A falsy thrown value resolves it with `undefined`. |
| `Ipc.UndefinedResolves` | lib/ipc.js:71-81 | An api returning `undefined` in time, as the queue's `emit` does through the proxy, yields a response with neither `result` nor `error`, and the caller's promise resolves with `undefined`. |
| `Ipc.SumResolves` | test/ipc.js:28-30 | `sum(1, 2)` against an api returning `a + b` resolves the caller's promise with 3. |
| `Ipc.Rpc.constructor` | lib/ipc.js:44-47 | A new RPC object has empty `incoming`, `outgoing` and `fds` tables. |
| `Ipc.Rpc.Call` | lib/ipc.js:86-105 | A call adds one fresh id to `outgoing` with a pending promise, leaving other entries unchanged. It adds fresh callback ids for its function arguments without touching existing ones, and emits one `request` with the id, name, arguments and `fds`. |
| `Ipc.Rpc.Receive` | lib/ipc.js:49-59 | The request is recorded in `incoming`; its marked arguments are replaced by stubs. |
| `Ipc.Rpc.InvokeStub` | lib/ipc.js:55 | Calling a stub emits one `callback` with its id and arguments and waits for nothing. |
| `Ipc.Rpc.Respond` | lib/ipc.js:69-73 | Exactly one `response` with the request's id is emitted, and the id then leaves `incoming`. |
| `Ipc.Rpc.HandleResponse` | lib/ipc.js:76-82 | The id leaves `outgoing`. A known id's promise settles as `Settlement` says. An unknown id changes no promise, and a settled promise never changes. |
| `Ipc.Rpc.HandleCallback` | lib/ipc.js:84 | A callback for a registered id calls exactly the stored function with the arguments; the table never shrinks, so every repeat reaches the same function. For an unknown id the call fails. |

## Left out

- Real file system calls and JSON (de)serialisation are left out. This includes `fs.*Sync`, `mkdirp`, `rimraf` and `path.resolve`. The store is a map, and a rename is atomic.
- Directories are implicit: a stage that does not exist lists as empty. So the model cannot observe that all four stage directories exist after `emit`, which `_write` creates with `mkdirp` (lib/queue.js:71-75) and test/queue.js:37-38 checks.
- Timers and `pollInterval` rescheduling are left out: each poll is one explicit call of `Poll` (a tick that follows a settlement is the next `Poll`).
- `Promise.race` is left out. So is when a handler runs relative to other loops, because the handler's outcome is an input (`HandlerRun`, `ApiRun`).
- `uuid()` and `new Date()` are left out. They are replaced by a fresh-id counter and a logical clock that also stamps the mtimes.
- `serialize-error` is left out. An error is the abstract record `{name, message, stack}`, and the runtime's stack trace is an input string.
- In the queue, thrown values that are not `Error` objects are left out, as are values whose serialised form is not that record. Likewise a queue handler returning `undefined`, which the written file drops; handler results are JSON values. (On the RPC side, `ApiRun` covers any thrown JSON value and a return of `undefined`.)
- `JobQueue.Queue.Emit`: a job emitted without data (`emit(name)`) is not modelled: its record would have no `data` key, while `data` is always a JSON value here.
- Exceptions thrown by dead-letter listeners are left out. The listeners are references whose calls are recorded in order.
- Reopening an existing repository is left out: the constructor starts from an empty one.
- The dynamic Proxy dispatch is left out, replaced by the explicit method `Rpc.Call`. A property name inherited from `Object.prototype` returns that property rather than making a call; this is not modelled.
- The process channel is left out. `proc.send`, the `message`/`error`/`exit` events, and the EventEmitter dispatch to listeners are modelled by an outbox sequence, a log of dispatched events, and handler methods called directly.
- `console.log` of dropped emits and of unknown responses is left out.
- Floating-point JSON numbers are left out: `JNum` holds an integer.
- The JSON channel is modelled in part only. A function argument arrives as `null`, and `new Error('timeout')` arrives as `{}`. Other loss of structure in encoding is not modelled.
- Callback ids are uuid strings and therefore always truthy. So the responder's `if (request.fds[index])` is modelled as membership of the index in `fds`.
- An options key present but set to `undefined` is not modelled: it overrides with `undefined` in `Object.assign`, and `Overrides` has only absent or integer keys.
- `JobQueue.Queue.Reset`: the lifecycle invariant is preserved only when no handler of that topic is running, because the source notes it does not stop in-flight processing of the topic.
- `JobQueue.Queue.Settle`: its contract is stated through the function `JobQueue.Settled`, whose behaviour is given by `SettledClaimed` and `SettledOrphan`.
- `JobQueue.Queue.SettleAsWritten`: a handler that never settles has no settlement step, so it requires a run that returns or throws. The hanging case is stated by `JobQueue.HangingHandlerNeverSettlesAsWritten` and `JobQueue.RunningBlocksStop`: the loop stays `Running`.
- `JobQueue.UnlinkError`: the message omits the path that Node appends to the ENOENT message (`, unlink '<path>'`), because absolute paths under the repository root are not modelled.
- Unhandled promise rejections are left out; the model assumes they only print a warning. As written, a timer firing before the handler rejects an inner promise that `Promise.race` never hands to a `.catch` (lib/queue.js:158-166). When a topic is reset under a running handler, the `.catch` handler's own `_delete` throws at lib/queue.js:190, so the promise returned by `.finally` rejects, and the next poll is still scheduled (lib/queue.js:197). Under Node 15 and later, such a rejection ends the process unless it has an `unhandledRejection` handler. Only lib/child.js:19 installs one, in the child process.
- A handler mutating the job it receives is left out. `fn(message)` at lib/queue.js:160 gets the same object that settlement then pushes the attempt onto and writes (lib/queue.js:177-178, 185-189). So a handler that changes `message` changes what is persisted. The model passes the handler nothing: its outcome is an input, and the record written is built from the job read at lib/queue.js:145.
- lib/worker.js, lib/child.js, lib/batch.js and lib/cli.js are not part of this model. They handle process supervision, spawning and argument parsing.
- benchmark.js and dribbble.js are example user scripts and are not part of this model.
- `timeout` in lib/ipc.js is left out beyond its outcome, which is modelled as the `Stalls` run or the late run of `Reply`.
- `Deferred` (lib/deferred.js) is modelled only as the single-assignment cell `Cell`.

## Findings

| source | as written | input that shows it | evidently intended | confidence | as-written member | corrected member |
|---|---|---|---|---|---|---|
| lib/queue.js:163-165 | The timer's `reject` is that of the timer's own inner promise. It shadows the outer promise's `reject`, so the outer promise follows the handler alone. A late handler is recorded as a success, and a handler that never settles leaves the job in `inprogress` forever. | With the default task timeout of 10000 ms: a handler that returns after 10000 ms (`JobQueue.LateRun`), or one that never settles. | The timer fails the attempt with an `Error` whose message is `"timeout"`. The job then moves to `queued` or `dead` by the engine-wide budget. | not executed | `JobQueue.RaceAsWritten` | `JobQueue.Race` |
