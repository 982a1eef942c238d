# Database connection manager and health endpoint

A Dafny model of the two pieces of logic in this backend:

- `database.dfy`, module `Database`: the `DatabaseConnection` object of
  `database/db.js`. Its fields are `isConnected` and `retryCount`. The limit is
  `MAX_RETRIES = 3`. The class `Database.DatabaseConnection` models the
  constructor, the three driver callbacks (together in `Notify`), `connect`,
  `handleConnectionError`, `handleDisconnection`, `handleAppTermination` and
  `getConnectionStatus`. `ConnectWithRetries` is added: it is the retry loop
  as the catch block evidently meant it. Each method that changes state gives
  its new state through the transition function `Step`, or, for
  `ConnectWithRetries`, through `Chain`. Three methods change nothing. The
  driver is not modelled. A connect attempt ends as `NoUri`, `Established` or
  `Refused`. Events, and whether the close succeeded, arrive as parameters.
  What the manager asks of the process comes back as an `Action`: `Retry`
  (wait `RETRY_INTERVAL`, then connect again), `Reconnect`, `Exit(code)` or
  `Idle`.
- `health.dfy`, module `Health`: `checkHealth` and `getReadyStateText` of
  `controllers/health.controller.js`. These are functions from a connection
  snapshot, a timestamp and the host metrics to a status code and a body. The
  codes are 200, 503 and 500 (section 15 of RFC 9110).

`Run` folds `Step` over a sequence of inputs and keeps the bound on
`retryCount`. A lemma about `Run` says what decides `isConnected`. `Chain` is
the connect → handleConnectionError → connect loop as the catch block
evidently meant it. Its contract gives the most attempts it can make and how
it ends.

Behaviour of the code worth knowing, which the model follows:

- An unset URI does not end the process and is not retried. `connect()`
  throws, catches its own error, logs it and returns. Nothing else happens
  (database/db.js:36-38, 55-58).
- A "disconnected" event does not clear `isConnected`. It asks for a
  reconnect only when the flag is already false. After "connected", the
  manager asks for no reconnect, and the flag stays true, until an "error"
  event arrives (`DisconnectAfterConnectIsIgnored`,
  `ErrorThenDisconnectReconnects`).
- Ready state 3 reads "disconnected", the same label as 0, although the
  driver's state 3 is "disconnecting" (controllers/health.controller.js:44).

Three defects of the source combine in the retry path. The model corrects
two of them, as "## Left out" records:

- The constructor assigns `this.retrycount` (database/db.js:8), so in the
  source `retryCount` starts undefined. `undefined < MAX_RETRIES` is false, so
  a handler run before the first successful connect would exit with status 1
  at once. The model starts the counter at 0.
- The catch block does not call the handler (database/db.js:57). The model
  keeps this as written in `Connect` and gives the corrected loop as
  `ConnectWithRetries` (see "## Findings").
- The retry delay never resolves (database/db.js:65-67), so even a counted
  retry would never reach the next connect. The model treats `Retry` as
  ending in that connect.

Only with all three corrected does a fresh manager make four attempts before
it exits: one, then three retries. The exit comes after the fourth failure
(`FreshManagerScenarios`).

## Model

| member | source | states |
|---|---|---|
| `Database.Step` | database/db.js:14-91 | No transition takes `retryCount` past `MAX_RETRIES`. A "disconnected" event leaves the state as it was. |
| `Database.Run` | database/db.js:14-91 | The state after a sequence of events, connects, retry-handler runs and termination signals, one after another. From a state within the bound, `retryCount <= MAX_RETRIES` still holds afterwards. |
| `Database.ConnectedFlagFollowsLastEvent` | database/db.js:14-28 | After any inputs, `isConnected` is set by the most recent "connected" or "error" event. With neither, it keeps its initial value. Connects, handlers and "disconnected" events never change it. |
| `Database.DisconnectAfterConnectIsIgnored` | database/db.js:25-28 | "connected" followed by "disconnected" leaves the flag true and asks for no reconnect. |
| `Database.ErrorThenDisconnectReconnects` | database/db.js:19-28 | After an "error" event clears the flag, the next "disconnected" event asks for a reconnect. |
| `Database.Chain` | database/db.js:34-73 | The connect → handleConnectionError → connect chain with line 57 calling the handler. It makes at most as many attempts as outcomes are given, and from a state within the bound at most `MAX_RETRIES - retryCount + 1`. Every attempt but the last failed. It ends in one of three ways. Success leaves `retryCount` at 0. Exhaustion exits with status 1 and leaves `retryCount` at `MAX_RETRIES`. If the outcomes run out, a retry is still owed. `isConnected` is untouched. |
| `Database.ChainSucceeds` | database/db.js:53-54 | If the first `j` attempts fail and the next succeeds, within the retries left, the chain connects on attempt `j + 1`. It resets `retryCount` to 0 whatever its earlier value. |
| `Database.ChainGivesUp` | database/db.js:62-72 | If all of the remaining `MAX_RETRIES - retryCount + 1` attempts fail, the chain exits with status 1 and makes no further attempt. |
| `Database.FreshManagerScenarios` | database/db.js:34-73 | From a fresh manager, with db.js:8, :57 and :66 corrected: two failures then a success connect with `retryCount` 0. Three failures still owe a fourth attempt. Four failures end in `Exit(1)`. |
| `Database.RefusedConnectIsNeverRetried` | database/db.js:55-58 | As written, a refused attempt leaves the state as it was and asks for nothing. The intended chain would count one retry and ask for another attempt. |
| `Database.DatabaseConnection.constructor` | database/db.js:7-9 | A new manager is not connected and has `retryCount` 0. |
| `Database.DatabaseConnection.Notify` | database/db.js:14-28 | "connected" sets `isConnected` and "error" clears it. Neither changes `retryCount`. "disconnected" changes nothing and asks for a reconnect exactly when `isConnected` is false. |
| `Database.DatabaseConnection.HandleDisconnection` | database/db.js:75-80 | Changes nothing. Answers `Reconnect` exactly when `isConnected` is false, and `Idle` exactly when it is true. |
| `Database.DatabaseConnection.Connect` | database/db.js:34-59 | Never changes `isConnected`. Success sets `retryCount` to 0. An unset URI or a refused attempt leaves `retryCount` as it was and is not retried. |
| `Database.DatabaseConnection.HandleConnectionError` | database/db.js:61-73 | Below `MAX_RETRIES`: adds exactly one to `retryCount` and answers `Retry`. At the bound: `retryCount` is unchanged and the answer is `Exit(1)`. `isConnected` is untouched, and the bound is kept. |
| `Database.DatabaseConnection.ConnectWithRetries` | database/db.js:34-73 | Runs connect → handleConnectionError → connect until an attempt succeeds, the handler gives up or the outcomes run out. The final state, the number of attempts and the last action equal `Chain`. There are at most `MAX_RETRIES - retryCount + 1` attempts. Success leaves `retryCount` at 0, and an exit is `Exit(1)` at `MAX_RETRIES`. |
| `Database.DatabaseConnection.HandleAppTermination` | database/db.js:82-91 | The exit code is 0 exactly when the close succeeds, and 1 exactly when it fails. |
| `Database.DatabaseConnection.GetConnectionStatus` | database/db.js:93-100 | Changes nothing. Returns the current `isConnected` with the driver's ready state, host and name. |
| `Health.ReadyStateText` | controllers/health.controller.js:39-48 | "disconnected" exactly for 0 and 3, "connected" exactly for 1, "connecting" exactly for 2, and "unknown" exactly for every other integer. |
| `Health.HealthDocument` | controllers/health.controller.js:9-26 | The overall status is "OK" and the server sub-status is "healthy", whatever the database does. The database sub-status is "healthy" exactly when the snapshot is connected, and "unhealthy" otherwise. The details copy `isConnected`, host and name unchanged and replace the ready state by its label. Uptime and memory usage are copied unchanged. |
| `Health.StatusCode` | controllers/health.controller.js:27 | 200 exactly when the database sub-status is "healthy", and 503 otherwise. |
| `Health.FailureResponse` | controllers/health.controller.js:29-35 | Code 500 with status "ERROR", the timestamp and the error's message. |
| `Health.CheckHealth` | controllers/health.controller.js:6-36 | A metrics failure gives 500 with its message. Otherwise the code is 200 exactly when the snapshot is connected and 503 exactly when it is not, with the full health document. |
| `Health.CheckHealthAsWritten` | controllers/health.controller.js:28 | Every request is answered with 500 and status "ERROR". When the metrics were read, the message is the ReferenceError for `hhtpStatus`. |
| `Health.AsWrittenNeverAnswersOk` | controllers/health.controller.js:27-28 | With the database connected, the intended code is 200 but the code as written answers 500. |
| `Health.Serve` | controllers/health.controller.js:7-27 | With the manager's own snapshot, the code is 200 exactly when `isConnected` is set and 503 otherwise. The ready-state label is the driver's. |

## Findings

| source | as written | input that shows it | evidently intended | confidence | as-written member | corrected member |
|---|---|---|---|---|---|---|
| database/db.js:57 | `await this.handleConnectionError` names the retry handler without calling it, so a failed connect is only logged | the first connect attempt is refused: nothing is retried and the counter is not touched (in the source it is still undefined; in the model it stays 0) | `await this.handleConnectionError()`, together with the counter initialised as `retryCount` (db.js:8) and the delay calling `resolve()` (db.js:66): up to three retries, then exit status 1 | not executed; high | `Database.DatabaseConnection.Connect` and `Database.RefusedConnectIsNeverRetried` | `Database.DatabaseConnection.ConnectWithRetries` |
| controllers/health.controller.js:28 | `res.status(hhtpStatus)` uses an undeclared name, so the success path throws a ReferenceError | a connected snapshot with readable metrics: 500 "hhtpStatus is not defined" instead of 200 | `res.status(httpStatus)`: 200 when the database is healthy, 503 otherwise | not executed; high | `Health.CheckHealthAsWritten` and `Health.AsWrittenNeverAnswersOk` | `Health.CheckHealth` |

## Left out

- The driver itself is treated as opaque: the driver's `connect`, `connection.close`, `set`, the connection options (pool size 10, timeouts 5000 and 45000 ms, IPv4) and the development-mode debug switch. Only the outcome of each call is an input.
- Timers, the `SIGTERM` subscription, `process.exit` and console logging. These are runtime I/O. The delay and the exit come back as `Action` values.
- HandleConnectionError: its `Retry` stands for a connect() after the delay. As written, the delay's promise never resolves (database/db.js:65-67), so that connect never happens. The model assumes it does.
- Database.DatabaseConnection.constructor: starts `retryCount` at 0. The source assigns a misspelt field (database/db.js:8), so in the source `retryCount` is undefined until the first successful connect.
- Interleavings of the asynchronous paths, such as a disconnect arriving mid-retry or two connects in flight. That is concurrency; only sequential transitions are modelled. `Run` also goes on after an `Exit` action, although a real process would have ended.
- `process.uptime()`, `process.memoryUsage()` and the ISO-8601 timestamp. These are host metrics and clock readings, so they are parameters. One timestamp stands for both `new Date()` calls. The JSON serialisation of the body is not modelled.
- index.js and routes/health.route.js: middleware configuration and router wiring, with no logic of their own. The unused `multer` import in the controller is also left out.
