# headless-electron, modelled in Dafny

headless-electron runs JavaScript modules inside hidden Electron renderer
windows from a Node.js program. The client class `ElectronProcess` spawns an
Electron child process (the *pool process*), sends it `run-script` requests
tagged with a correlation id, and settles one promise per request from the
`run-status`, `run-resolved` and `run-rejected` messages that come back. Inside
the pool process a `WindowPool` keeps renderer windows idle or active,
creates them up to `maxConcurrency`, serialises acquisition behind a lock,
forwards each window's results to the client, and drops windows whose render
process crashed. Errors cross the process boundary as plain
`{name, message, stack}` records produced by `makePlainError`.

The project has these parts:

- `wrappers.dfy`: `Option` and `Result`.
- `sequences.dfy`: distinctness and the element set of a sequence.
- `js_values.dfy`: the JavaScript values that flow through the system, `typeof`, truthiness, property reads and `String(x)`.
- `plain_error.dfy`: `makePlainError` and its round trip.
- `protocol.dfy`: the messages between the client and the pool process, and between the pool and its renderers, as datatypes.
- `window_pool.dfy`: the class `WindowPool`.
  - Its whole mutable state is abstracted as a `PoolState` value.
  - Each step of the pool is a transition function on that value.
  - An invariant `Inv` is proved to be kept by every transition.
  - Each class method is proved to perform its transition.
- `electron_process.dfy`: the class `ElectronProcess`, option resolution and `WrappedError`, organised the same way (`ClientState`, `ClientInv`).

Asynchrony is flattened into steps, and each step is one method call that runs to completion. Most steps are one callback: a renderer message, a crash, a "closed" event, the end of an eager creation, a message from the child. In the pool, one call of `AttemptRunScript` covers one whole attempt of `runScript`. That attempt is the lock check and `getAsync`, the creation of a window with its `did-finish-load` or `did-fail-load` callback, the continuation after `await this.create()`, and `runScriptOnWindow` or the rejection. `handle` only records the request; the lock is taken at its first attempt. The environment chooses the order of the steps: which acquisition is attempted, which renderer event arrives, when a window crashes or closes.

Some behaviours are modelled as the source is written, and the model states them:

- **Lock leak.** When window creation fails, `getIdleWindow` rejects with `locked` still true. Every later acquisition then waits forever. `FailedCreationLeavesLock` and `StuckStaysStuck` state this.
- **Overshoot.** The constructor starts `minConcurrency` eager creations. `getAsync`'s fullness test counts only windows already in the pools, so while those creations are pending a run can create another window. With `minConcurrency = maxConcurrency = 1` the pool ends up holding two windows (`OvershootScenario`). The invariant proves the bound that does hold: size plus pending creations is at most `max(maxConcurrency, 0)` plus the number of eager creations.
- **Crashed windows.** After `render-process-gone`, the crashed window's run is rejected. `cleanup` then puts the window back into the idle pool, and `close()` only starts closing it. Until its `closed` event removes and destroys it, the crashed window can be handed to another run (`CrashedWindowReusedScenario`). That run then never settles: its listener stays on the destroyed window, which sends nothing more, and no step rejects it (`ClosedStrandsRun`).
- **Load failure message.** The did-fail-load message is `did-fail-load (<code>: <description>`, with the parenthesis left unclosed.
- **The "window closed" rejection.** When a window closes before loading, `create()` rejects with the string `"window closed"`, not an `Error`. The `run-rejected` message built from it therefore carries no error (`Absent`). `shared.ts` types the `error` field of `run-rejected` and `fatal` as a string. The code sends three kinds of value there, and the model follows the code: a string (`Text`) for the `message` of an `Error` rejection, such as did-fail-load; a plain-error record (`Plain`) for a crash and for `fatal`; and nothing (`Absent`) for the "window closed" string rejection.
- **A rejection without an error.** A `run-rejected` message without an error makes `new WrappedError(undefined)` throw. The handler then leaves the run's entry in the table, and the run's promise stays pending (`HandlerStep`'s `threw`, reported by `OnMessage`). The exception also escapes the child's "message" listener.

## Model

| member | source | states |
|---|---|---|
| PlainErrors.MakePlainError | src/utils/plain-error.ts:8-24 | an error-shaped value (truthy object with `message` or `name`) has its three fields copied unchanged; every other value gives `UnknownError` with `String(value)` as message and no stack |
| PlainErrors.NonObjectIsUnknown | src/utils/plain-error.ts:9-23 | every primitive, and every function, is classified as `UnknownError` |
| PlainErrors.FalsyIsUnknown | src/utils/plain-error.ts:9-23 | every falsy value (`null`, `undefined`, `false`, `0`, `""`) is classified as `UnknownError` |
| PlainErrors.KeylessObjectIsUnknown | src/utils/plain-error.ts:9-23 | an object with neither `message` nor `name` is `UnknownError` whose message is its own `String()` |
| PlainErrors.ReencodeIsIdentity | src/utils/plain-error.ts:14-18 | re-encoding a plain-error record, seen as an object, gives back the same record |
| PlainErrors.MakePlainErrorIdempotent | src/utils/plain-error.ts:8-24 | applying `makePlainError` to its own output changes nothing |
| PlainErrors.AsObject | src/utils/plain-error.ts:1-5 | a plain-error record, seen as a JavaScript value, is an object with `name` and `message` keys |
| JsValues.TypeOf | src/utils/plain-error.ts:11 | `typeof` is `"object"` exactly for `null` and objects, and `"function"` exactly for functions |
| ElectronProcesses.ResolveOptions | src/index.ts:39-55 | missing options take the defaults false/0/1; the result fails with the ordering message exactly when `minConcurrency > maxConcurrency` |
| ElectronProcesses.DefaultOptionsAreValid | src/index.ts:39-49 | `new ElectronProcess()` with no options does not throw, and resolves to `{false, undefined, 0, 1}` |
| ElectronProcesses.NewElectronProcess | src/index.ts:39-57 | construction fails exactly when option resolution fails; otherwise a new client holds a live process, an empty handler table and a pending handshake |
| ElectronProcesses.WrapError | src/index.ts:16-23 | a record payload keeps its `name` and `stack` and `String`-converts its message; a text payload has no fields to read; a missing payload throws (`None`) |
| ElectronProcesses.ErrorObject | src/index.ts:16-23 | a `WrappedError` is an object with `message`, `name` and `stack` keys |
| ElectronProcesses.WrappedErrorKeepsRecord | src/index.ts:16-23 | a record whose message is a string survives `WrappedError` and `makePlainError` unchanged |
| ElectronProcesses.HandlerStep | src/index.ts:160-181 | an aborted run rejects with "script aborted"; `run-resolved` resolves with the value; `run-rejected` with an error rejects with its `WrappedError`, and without one throws; `run-status` calls the status callback exactly when one was given; the entry is kept exactly when nothing settled |
| ElectronProcesses.RoutedStatus | src/index.ts:160-169 | one status event for a pending run that is not aborted changes nothing but the callback calls, which gain that status when there is a callback |
| ElectronProcesses.StatusEventsKeepRun | src/index.ts:166-169 | routing any sequence of status events to a pending run that is not aborted settles nothing and keeps the table; the callback receives each status, in order, exactly when there is one |
| ElectronProcesses.KillPayload | src/index.ts:119-121 | `kill()` without an argument rejects with `{name: "Killed", message: "closed"}`; with one, with that record |
| ElectronProcesses.KillSettlesEachRun | src/index.ts:122-128 | the synthetic `run-rejected` of `kill` settles the run it reaches (rejects it with the kill error, or as aborted) and removes its entry |
| ElectronProcesses.KillSettlements | src/index.ts:122-128 | killing in a given order produces one settlement per id, in that order |
| ElectronProcesses.KillSettlementsAppend | src/index.ts:122-128 | the kill settlements of a longer order extend those of the shorter one |
| ElectronProcesses.KillSettlementsCover | src/index.ts:122-128 | every pending id receives exactly the kill settlement meant for it |
| ElectronProcesses.KillSettlesEach | src/index.ts:122-128 | a kill over an order that visits every pending id once settles each of them |
| ElectronProcesses.KillHandled | src/index.ts:122-128 | the kill's effect on one run is the handler's effect on a `run-rejected` event carrying the kill error |
| ElectronProcesses.KillKeepsInv | src/index.ts:119-133 | killing keeps the client invariant: an empty table, and every run that was pending is settled exactly once |
| ElectronProcesses.SettleAll | src/index.ts:122-128 | the loop over the handler table visits every id once and appends exactly the kill settlements for that order |
| ElectronProcesses.ClosedError | src/index.ts:76-78 | the exit of the child rejects runs with `ProcessClosed` / `exited (<code>)` and no stack |
| ElectronProcesses.FirstMessageVerdict | src/index.ts:94-112 | the first message decides readiness: `electron-ready` makes the client ready, a run event fails with "unexpected <type> message", `fatal` fails with "fatal error <error>" |
| ElectronProcesses.HeardFirstKeepsInv | src/index.ts:96-111 | the one-shot listener fires once, keeps the invariant, and the client is ready exactly when that message was `electron-ready` |
| ElectronProcesses.RegisterKeepsInv | src/index.ts:151-181 | registering a run under a fresh id keeps the invariant, and the id was neither pending nor settled before |
| ElectronProcesses.HandledKeepsInv | src/index.ts:85 | routing a run event to its handler keeps the invariant, including settled-at-most-once |
| ElectronProcesses.ElectronProcess.Send | src/index.ts:201-206 | a message is sent exactly when the process is alive; otherwise the call fails and nothing is sent |
| ElectronProcesses.ElectronProcess.RunScript | src/index.ts:138-181 | fails with "electron process lost" exactly when there is no process; otherwise registers a handler for a fresh id with the defaults `"default"` and `[]` |
| ElectronProcesses.ElectronProcess.Dispatch | src/index.ts:183-197 | after the handshake, the `run-script` request is sent only if the client became ready and the process is alive |
| ElectronProcesses.ElectronProcess.Abort | src/index.ts:195-197 | an abort signal marks the run as aborted; its listener, if installed, sends `abort-script` for the id while the process is alive and throws "electron process lost" once it is gone |
| ElectronProcesses.ElectronProcess.HandleEvent | src/index.ts:160-181 | the new state is the handler's effect on the table and on the settlements |
| ElectronProcesses.ElectronProcess.RejectPending | src/index.ts:122-128 | every pending run is settled once, in some order of the table, and the table is emptied |
| ElectronProcesses.ElectronProcess.Kill | src/index.ts:119-133 | every pending run is rejected with the kill error, the table is empty, and the process is killed at most once over all calls |
| ElectronProcesses.ElectronProcess.OnMessage | src/index.ts:80-92 | a run event reaches its handler (nothing, for an unknown id), and the call throws exactly when that handler throws; `fatal` settles every pending run with its error (the default kill error when absent), empties the table and kills the process at most once, leaving the rest unchanged; unless the handler threw, the readiness listener then hears the message |
| ElectronProcesses.ElectronProcess.HearFirst | src/index.ts:96-111 | the once-listener: on the first message it stops listening, marks the client ready on `electron-ready`, and settles a waiting handshake with the message's verdict; afterwards nothing changes |
| ElectronProcesses.ElectronProcess.constructor | src/index.ts:26-57 | a live process, not ready, a waiting handshake with its once-listener installed, and no runs, messages or settlements |
| ElectronProcesses.ElectronProcess.OnClose | src/index.ts:76-78 | the exit of the child rejects every pending run with `ProcessClosed` and clears the process |
| ElectronProcesses.ElectronProcess.OnError | src/index.ts:79 | a spawn error rejects every pending run with its plain error, and (through the listener at line 95) fails a pending handshake |
| WindowPools.WindowPool.constructor | src/electron/main/window-pool.ts:32-44 | an empty pool, unlocked, with `minConcurrency` eager creations pending |
| WindowPools.WindowPool.Size | src/electron/main/window-pool.ts:145-147 | the size is the number of distinct windows in the idle and active pools |
| WindowPools.PartitionCardinality | src/electron/main/window-pool.ts:145-147 | with idle and active windows disjoint, the size is the idle count plus the active count |
| WindowPools.WindowPool.IsFull | src/electron/main/window-pool.ts:152-154 | full exactly when the size reaches `maxConcurrency` |
| WindowPools.WindowPool.RetainWin | src/electron/main/window-pool.ts:155-158 | the window leaves the idle pool and becomes active for the id, and nothing else changes |
| WindowPools.WindowPool.ReleaseWin | src/electron/main/window-pool.ts:160-163 | the id's entry is dropped and the window rejoins the idle pool, and nothing else changes |
| WindowPools.WindowPool.RemoveWin | src/electron/main/window-pool.ts:165-174 | the window is in neither pool afterwards and is destroyed; the active entries for other windows are untouched |
| WindowPools.WindowPool.Create | src/electron/main/window-pool.ts:86-140 | a loaded window joins the idle pool and is returned; a load failure rejects with the did-fail-load message; an early close rejects with "window closed" |
| WindowPools.LoadFailureMessage | src/electron/main/window-pool.ts:136 | the did-fail-load message starts with `did-fail-load (` and ends with the error description, with no closing parenthesis added |
| WindowPools.WindowPool.OnEagerCreation | src/electron/main/window-pool.ts:41-43 | one of the constructor's unawaited creations ends: the window, if loaded, joins the idle pool, one fewer creation is pending, and the invariant is kept |
| WindowPools.WindowPool.GetAsync | src/electron/main/window-pool.ts:68-81 | the first idle window when there is one; a wait when the pool is full; otherwise a creation |
| WindowPools.CreatedForRunWithinCap | src/electron/main/window-pool.ts:68-81 | a window created for a run keeps the size at most `maxConcurrency` |
| WindowPools.WindowPool.GetIdleWindow | src/electron/main/window-pool.ts:49-63 | one attempt: wait while locked; otherwise take the lock, get a window and release the lock, or reject with the lock still held |
| WindowPools.FailedCreationLeavesLock | src/electron/main/window-pool.ts:56-60 | a failed creation rejects the run and leaves the pool locked with no acquisition holding the lock |
| WindowPools.StuckStaysStuck | src/electron/main/window-pool.ts:49-54 | once the lock is leaked, every further attempt waits and changes nothing, whatever is enqueued |
| WindowPools.ClosedStrandsRun | src/electron/main/window-pool.ts:101-107 | a run listening on a window that is closed keeps its listener on the destroyed window, which can send no more messages, and is no longer active |
| WindowPools.CrashedWindowReusedScenario | src/electron/main/window-pool.ts:223-234 | after the only window crashes under a run, the next request is given that same window, still crashed and not yet destroyed |
| WindowPools.OvershootScenario | src/electron/main/window-pool.ts:68-81 | with `minConcurrency = maxConcurrency = 1`, the eager window of the constructor (lines 41-43) and a window created for a run make a pool of size 2 |
| WindowPools.EagerKeepsInv | src/electron/main/window-pool.ts:41-43 | the completion of an eager creation keeps the invariant |
| WindowPools.AcquiredThenFinished | src/electron/main/window-pool.ts:179-192 | acquiring a window and then starting or rejecting the run is one whole attempt |
| WindowPools.AttemptKeepsInv | src/electron/main/window-pool.ts:179-192 | every outcome of an attempt keeps the invariant (partition, injectivity, lock discipline, size bound) |
| WindowPools.RejectionPayload | src/electron/main/window-pool.ts:185-191 | the `error` sent for a rejected acquisition is the rejection's `e.message`: the text of an `Error`, and nothing for the "window closed" string |
| WindowPools.WindowPool.AttemptRunScript | src/electron/main/window-pool.ts:179-192 | an attempt starts the run on a window, or waits, or sends one `run-rejected` carrying the error's message |
| WindowPools.StartRunKeepsInv | src/electron/main/window-pool.ts:194-201 | retaining a window for a run keeps the invariant and the size |
| WindowPools.RejectRunKeepsInv | src/electron/main/window-pool.ts:183-191 | rejecting a run keeps the invariant |
| WindowPools.WindowPool.RunScriptOnWindow | src/electron/main/window-pool.ts:194-238 | the window becomes active for the run, its listeners are installed and the request is delivered to it |
| WindowPools.WindowPool.CleanupRun | src/electron/main/window-pool.ts:203-208 | the run's listeners are removed and its window goes from active back to idle |
| WindowPools.CleanupKeepsInv | src/electron/main/window-pool.ts:203-208 | cleanup moves the run's window from active to idle, keeping the size and the invariant |
| WindowPools.DeliverKeepsInv | src/electron/main/window-pool.ts:210-219 | a run event is forwarded to the client; a terminal one returns the window to idle, a status one leaves it active |
| WindowPools.WindowPool.OnRendererMessage | src/electron/main/window-pool.ts:210-219 | the new state is the forwarding step, and the invariant is kept |
| WindowPools.CrashError | src/electron/main/window-pool.ts:227-230 | the crash record is named `RenderProcessGone`, has no stack, and its message starts with the reason and ends with `)` |
| WindowPools.WindowPool.RejectCrashedRun | src/electron/main/window-pool.ts:224-233 | `run-rejected` with the crash record is sent for the run, the run is cleaned up, and the window is marked crashed and closing |
| WindowPools.CrashEffects | src/electron/main/window-pool.ts:223-234 | a crash rejects the window's run with the crash error, releases the window and starts closing it; with no run on it, it is only marked |
| WindowPools.RunOnUnique | src/electron/main/window-pool.ts:223-234 | at most one run listens to a responsive window |
| WindowPools.WindowPool.OnRenderProcessGone | src/electron/main/window-pool.ts:223-234 | the new state is the crash step, and the invariant is kept |
| WindowPools.ClosedKeepsInv | src/electron/main/window-pool.ts:101-107 | a closed window is removed from both pools and destroyed for good, and the invariant is kept |
| WindowPools.WindowPool.OnClosed | src/electron/main/window-pool.ts:101-107 | the new state is the removal step, and the invariant is kept |
| WindowPools.EnqueueKeepsInv | src/electron/main/window-pool.ts:240-248 | a `run-script` request with a fresh id starts an acquisition and keeps the invariant |
| WindowPools.ForwardAbortKeepsInv | src/electron/main/window-pool.ts:249-250 | `abort-script` is delivered to the run's window when the run is active, and is ignored otherwise |
| WindowPools.WindowPool.Handle | src/electron/main/window-pool.ts:240-253 | a request is enqueued or forwarded, and the invariant is kept |

## Left out

- Electron itself is not part of this model: `BrowserWindow`, its web preferences, the `file://` URL with the `preloadRequire` hash, `loadURL` and `close()`. A window is an opaque handle, and its load, crash and close events are inputs.
- `delay()` and timing are not modelled. A retry after a wait is simply another attempt at the same acquisition.
- The renderer (`src/electron/renderer`), `src/electron/main/main.ts` and `src/electron/main/index.js` are not part of this model. In particular, the unhandled rejection that a failed eager creation raises in the pool process is not modelled.
- Spawning the child, its command line, its environment and the JSON encoding of the options are not modelled. The child is an alive/cleared flag with a kill count.
- `uuid()` is not modelled: ids come from a counter, which gives the same freshness.
- IPC serialisation is not modelled. Messages arrive as the values that were sent.
- JavaScript numbers are integers here, so floating point, `NaN`, symbols and `bigint` are left out. `String()` of an object is its uninterpreted `shown` field.
- `console.log` is left out.
- Errors thrown inside the pool's `async` handlers (a `TypeError` after a window crashed) are left out. So is the `resolved` flag, which is written but never read.
- AbortSignal internals are not modelled. An abort is one step per run that had a signal.
- ElectronProcesses.ElectronProcess.RejectPending: the iteration order of the handler `Map` is not modelled. The contract says that each pending run is settled once, in some order that visits every id, not in insertion order.
- WindowPools.WindowPool.Size: the contract relates the size to the set of windows only while idle and active windows are disjoint. That is the invariant every method keeps.
- ElectronProcesses.ElectronProcess.Abort: the "electron process lost" exception is reported as `threw`. Where it goes from there (an exception thrown out of an `AbortSignal` listener) is not modelled.
- ElectronProcesses.ElectronProcess.OnMessage: when a handler throws (a `run-rejected` without an error), the call reports `threw` and the once-listener does not run. The exception then escapes the child's "message" listener as an uncaught exception in the client, and what Node.js does with it is not modelled.
- WindowPools.WindowPool.AttemptRunScript: one call covers several continuations of the source (see above), so no event of another window or request is interleaved while a window is being created for the attempt. In the source, the attempting request holds the lock across those continuations, and the events of other windows do not read or change the windows it works on. Also, `handle` runs `getIdleWindow` synchronously up to its first `await` and so sets `locked` at once; here the lock is taken by the first `AttemptRunScript` of the request.
- ElectronProcesses.ElectronProcess.Dispatch: a `send` that throws inside the promise executor (the process died while waiting for readiness) becomes an unhandled rejection in the source. So does `await this.readyPromise` once the handshake has failed: the promise executor of `runScript` rejects, and nobody handles that rejection. In both cases the run's promise never settles. Here the request is simply not sent, the run stays pending, and the unhandled rejection itself is not modelled.
- ElectronProcesses.ElectronProcess.HearFirst: when the first message rejects `readyPromise` and no run ever awaits it, the source raises an unhandled rejection in the client. The model records only the failed handshake (`Failed`).
