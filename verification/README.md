# LobbyLab: a model of the matchmaking protocol, verified

LobbyLab gathers waiting players into rooms, puts each room on a game-server
worker and tells the players where to go. Three stores of state change
concurrently while it does so: the server manager's worker table, the rows in
Postgres, and the websocket registries of any number of API instances. This
project models that protocol and proves what holds in every run of it, whatever
fails and however its parts interleave. `dafny verify dfyconfig.toml` checks all
of it.

## How it is built

| files | what they model |
|---|---|
| `Worker`, `FailureDetector` | one worker: its state, its state id, its failure counter, and which health checks restart it |
| `Pool`, `PoolTheorems` | the worker table under `wm.mu`, with any number of restart goroutines, as a refinement of a pool of Idle / Running / Down slots |
| `Manager`, `ManagerTheorems`, `WorkerHistory` | the server manager's goroutines as a step machine: the mutex, the condition variable, the bounded channel, the result loop, the health check, the saver; and that a worker's history in a run is one the failure detector is exact about |
| `WorkerManager` | the same critical sections as methods of a class over mutable workers, and the proof that they are those steps |
| `Tables`, `Replay`, `Database` | the rows, every SQL statement and transaction on them, the adapters as a class with failing statements, redelivery of the result stream |
| `Registry`, `RegistryTheorems` | one API instance's Map of connections with its re-entrant close callbacks |
| `Watchdog` | the ping/pong watchdog (section 5.5.2 and section 5.5.3 of RFC 6455), untimed and timed |
| `WebSockets` | `Connection` and `Connections` as classes that call each other back, proved against `Registry` and `Watchdog` |
| `QueueApi`, `QueueTheorems`, `Snapshots` | any number of API instances over the rows, with stale statements and overlapping polls in flight; what each of their steps does to the connections; and that whatever they tell was once read |
| `Platform` and the files whose names begin with it | everything above at once, with the matchmaker's loop, and what every run of it guarantees: `PlatformTheorems`, `PlatformTiming`, `PlatformQueue`, `PlatformDelivery`, `PlatformResults`, `PlatformLoop` |
| `LateMatch` | the run that orphans a match when an ordering hypothesis is dropped |
| `Executor`, `GameServer` | the game-server executor's files and process groups, and the loop of matches around it |

A step is one critical section of `wm.mu`, one channel send or receive, one SQL
statement or transaction, or one turn of an API instance's event loop. Calls
into Docker, NATS, Postgres and sockets succeed or fail as a parameter says; a
statement whose caller saw an error may or may not have been applied. Time is a
monotone number of milliseconds and a context is a flag. The server manager may
die and start again between any two steps (`Platform.Act.Reboot`).

Code that changes objects in place is a class whose methods are proved against
functions on values; what is promised is then proved about those functions and
about runs of steps. A run is a sequence of states with a sequence of steps
between them, and the theorems are about every state of every run.

## Hypotheses

- Match ids are at least 1: they come only from the sequence. Results that
  arrive from workers may nevertheless name any id from 1 up, any number of
  times. A result with id 0 would free the first worker without a match;
  `PoolTheorems.ReleaseTouchesOnlyItsMatch` says exactly when it harms.
- There is one matchmaker, and users are never deleted.
- The rooms have at least two players, and the channel holds at least one result
  where the bounded lock hold says so. That hold also needs a live context: the
  saver returns when the context is cancelled, and a health check that waits for
  room then keeps the lock for good. `ManagerTheorems.LockHoldIsBounded` has the
  exact condition and `ManagerTheorems.CanceledCheckGetsStuck` a run that meets it.
- `NoOrphans` assumes of a match that the saver has not begun with a result for
  it when its row is added. AddMatch runs after AssignMatch has returned, so the
  code does not guarantee that: `LateMatch.LateMatchIsOrphaned` is a run in which
  nothing fails and a match is left active with no worker on it and no result to
  come. `PlatformTheorems.OrphanedExactlyWhen` with
  `PlatformTheorems.StrandedOnlyIfLate` gives the exact condition, and by
  `PlatformTheorems.StrandedUntil` such a match stays active until another
  result for it is delivered and saved, or the server manager starts anew.
- A match's worker publishes at most one result and one cancel, and a publish
  that reports an error may have been stored all the same.
  `GameServers.EntriesExactly` says when the result stream holds none, one or two
  entries for a match.
- Where the queue deadline of a user is at stake, the statements that set it set
  it the same time ahead, as all instances do with the same options. Where the
  history of a worker is, the clock does not run backwards between the two
  readings of a health check.
- The time bound of the watchdog assumes that the pong timeout is shorter than
  the ping interval, as in the default options.
- Websocket ids of one login are distinct; `PlatformTheorems.WebsocketIdsIncrease`
  proves it of the ids that `setQueueStatus` gives out.

## Where the code and its documentation differ

The model follows the code.

- `stopCommand` is documented to return the process exit error
  (game-server/host/adapters/exec.go:134); it returns an error only when its
  context was cancelled, and nil after any exit and after a passed deadline.
- `extendQueueStatuses` is documented to add to the current deadline
  (api/src/lib/db.js:123); it sets the deadline relative to the present.
- `onPongMiss` is documented to count a miss only for the sequence number that
  is pending (api/src/lib/server/connection.js); its timer reads the number when
  it fires, so the comparison always holds.
- A failed `Start` leaves the executor active, and `runServer` does not stop it.
  `GameServers.StuckExactlyWhen` says which later matches are refused for it.

## Model

| member | source | states |
|---|---|---|
| Workers.Worker.SetFree | server-manager/app/worker.go:57-68 | the worker is free, holds no match, no deadline and no misses, and its state id, which is returned, has grown by one |
| Workers.Worker.SetRestarting | server-manager/app/worker.go:70-82 | the worker is restarting until the timeout from now, holds no match, and has a new state id |
| Workers.Worker.SetOccupied | server-manager/app/worker.go:84-95 | the worker runs the match, with no deadline, no misses and a new state id |
| Workers.Worker.HandlePong | server-manager/app/worker.go:97-110 | a miss is counted and an answer forgets the misses, except while restarting; nothing else changes |
| FailureDetector.RecordMatchesHistory | server-manager/app/worker.go:57-123 | over any trace of checks and state changes: the worker is restarting iff its last state change was a restart; otherwise its failure count is the number of misses the trace ends in, and never above the allowed retries |
| FailureDetector.RestartedExactlyWhen | server-manager/app/mgr.go:410-457 | a check restarts a running worker iff it is the (maxPingRetries+1)-th miss in a row since the last state change, and a restarting one iff its deadline has passed |
| FailureDetector.RestartedAtFirstLateCheck | server-manager/app/worker.go:112-123 | a worker that is being restarted is restarted again at the first check at or after its deadline, at none before |
| WorkerHistory.HistoryIsGenuine | server-manager/app/mgr.go:399-480 | in every run of the manager the history of each worker, read off the steps, is one the failure detector's theorems are about, and the worker's record is what that history makes it |
| WorkerHistory.ChecksRestartExactlyWhen | server-manager/app/mgr.go:410-457 | in every run a health check goes on to restart a worker iff its history calls for it: the (maxPingRetries+1)-th miss in a row since the last state change, or the restart's deadline reached |
| WorkerHistory.FailCountIsExact | server-manager/app/worker.go:97-123 | in every run, between checks, the failure count of a worker that is not restarting is the number of misses its history ends in, and at most maxPingRetries |
| Pool.StepInv | server-manager/app/mgr.go:329-498 | every operation on the worker table keeps: a match id is non-zero iff the worker is occupied, ids are distinct, restart ids never exceed their worker's state id, at most one equals it and then the worker is restarting, and assignments are conserved |
| PoolTheorems.ImplementsSlots | server-manager/app/mgr.go:329-480 | every operation is a step of a pool of Idle / Running(m) / Down slots; a restart only ever brings a Down slot back, a result only ends the match it names |
| PoolTheorems.RunInv | server-manager/app/mgr.go:329-498 | the table's invariant holds in every state of every run |
| PoolTheorems.AssignmentConservation | server-manager/app/mgr.go:329-480 | in every run: assignments = workers occupied now + results that found their worker + health-check cancels; per match each at most once and never two of them |
| PoolTheorems.OneCurrentRestart | server-manager/app/mgr.go:444-480 | of any number of overlapping restarts of a worker at most one holds its current state id, and then the worker is restarting |
| PoolTheorems.RestartGuard | server-manager/app/mgr.go:462-480 | a restart that comes back with a stale state id changes no worker; a current one frees exactly its own, which was restarting |
| PoolTheorems.MarkStartsOneRestart | server-manager/app/mgr.go:444-456 | a mark starts exactly one restart of its worker, with the state id that the worker has from then on, and touches no other worker |
| PoolTheorems.UndisturbedRestartFrees | server-manager/app/mgr.go:462-480 | if the state id is still that one when this restart succeeds, whatever happened meanwhile, the worker was restarting and is free afterwards |
| PoolTheorems.RestartsAreKept | server-manager/app/mgr.go:444-480 | a restart under way leaves the table exactly when it comes back, done or failed; only a mark adds one |
| PoolTheorems.StateIdsGrow | server-manager/app/worker.go:28-31 | state ids never go back in any run |
| PoolTheorems.StaleForever | server-manager/app/mgr.go:472-474 | a restart that has become stale never becomes current again (no ABA) |
| PoolTheorems.GuardIsNeeded | server-manager/app/mgr.go:472-474 | a run in which a restart without the state id check would lose a running match and break conservation, and the guarded one does not |
| PoolTheorems.ReleaseTouchesOnlyItsMatch | server-manager/app/mgr.go:379-394 | a result alters only the worker running its match iff its id is not 0 or every worker is occupied |
| PoolTheorems.ReleaseFreesExactly | server-manager/app/mgr.go:482-489 | a result frees exactly the worker that holds its match; a late or second one changes nothing |
| PoolTheorems.UniqueOwner | server-manager/app/mgr.go:340-354 | no two workers hold the same match, only occupied workers hold one, and each was offered once |
| Manager.StepInv | server-manager/app/mgr.go:207-498 | every step of waiter, result loop, health check, saver, assigner, restarts and cancellation keeps the mutex, wake-up, FIFO and table invariants |
| ManagerTheorems.NoLostWakeUp | server-manager/app/mgr.go:298-324 | while the waiter sleeps unsignalled no worker is free, and after a cancellation its AfterFunc signal is still to come; a waiter with a reason to wake can be woken |
| ManagerTheorems.WaitReturnsForAReason | server-manager/app/mgr.go:313-323 | WaitForFreeWorker returns only holding the lock and seeing a free worker or a cancelled context |
| ManagerTheorems.PipelineIsFifo | server-manager/app/mgr.go:360-377 | what was sent is, in order, what is saved, what is being saved and what waits; what is acknowledged is sent exactly once, in order, and nothing is sent before its ack; the channel is never over capacity |
| ManagerTheorems.OneCancelPerMatch | server-manager/app/mgr.go:424-435 | the health check cancels a match at most once, and only one that was assigned; `ManagerTheorems.HealthSendsFailures` says what a cancel is |
| ManagerTheorems.HealthSendsFailures | server-manager/app/mgr.go:424-435 | in every run all that a health check ever sends are failed results with empty details, for matches that a worker took |
| ManagerTheorems.EveryWorkerIsVisited | server-manager/app/mgr.go:399-460 | in every run a health check that unlocks has visited each worker under that lock, by the answers to one ping, and not gone back to it |
| ManagerTheorems.AnswersArePinged | server-manager/app/mgr.go:399-409 | the answers a health check goes by are those of an earlier ping |
| ManagerTheorems.WorkIsPossible | server-manager/app/mgr.go:399-460 | while a health check holds the lock, neither it nor the saver can step iff the saver has returned, the channel is full and the check waits to send a cancel, for any capacity of at least 1 |
| ManagerTheorems.WorkDecreases | server-manager/app/mgr.go:207-241 | each such step lowers a natural measure that nothing else raises while the lock is held |
| ManagerTheorems.LockHoldIsBounded | server-manager/app/mgr.go:399-460 | in every run, a health check that keeps the lock and the saver together take a bounded number of steps; they can take the next iff the check is not stuck behind a saver that has returned, and it never is while the context lives |
| ManagerTheorems.StuckForGood | server-manager/app/mgr.go:217-220 | a check that is stuck keeps the lock for the rest of the run, so neither the waiter nor its AfterFunc ever gets it; this happens only after a cancellation |
| ManagerTheorems.CanceledCheckGetsStuck | server-manager/app/mgr.go:424-435 | a run with capacity 1 in which a cancellation leaves a health check stuck with the lock |
| WorkerManagers.NamesAreDistinct | server-manager/app/mgr.go:133-142 | different workers have different names, so an answer to a ping names one of them |
| WorkerManagers.WorkerManager.constructor | server-manager/app/mgr.go:92-107 | a manager without workers, in a valid state |
| WorkerManagers.WorkerManager.StartWorkers | server-manager/app/mgr.go:133-142 | one free worker for each container spawned, in order and with distinct names, up to the first failure; the table is the one every run starts from |
| WorkerManagers.WorkerManager.GetFreeWorker | server-manager/app/mgr.go:491-498 | the first free worker, or none iff no worker is free |
| WorkerManagers.WorkerManager.GetWorkerByMatchID | server-manager/app/mgr.go:482-489 | the first worker that holds the id, or none iff no worker holds it |
| WorkerManagers.WorkerManager.AssignMatch | server-manager/app/mgr.go:326-357 | each failure with its error and unchanged workers; success occupies the first free worker with the match and a new state id, and returns its address |
| WorkerManagers.WorkerManager.HandleResults | server-manager/app/mgr.go:359-397 | a result is queued iff it was fetched, read and acknowledged, then its worker, if one holds the match, is freed and the waiter signalled once |
| WorkerManagers.WorkerManager.HealthCheck | server-manager/app/mgr.go:399-460 | the whole loop in place: each worker keeps what the ping makes of it or is marked for a restart, and no other; a failed result goes out for each match a worker was taken off and for no other; a failed ping changes nothing |
| WorkerManagers.WorkerManager.CheckWorker | server-manager/app/mgr.go:410-457 | one turn of the loop: the worker stays and nothing is sent or started, or it is restarting with a new state id, one restart holds that id, and its match, if it had one, is cancelled as failed |
| WorkerManagers.WorkerManager.RestartWorker | server-manager/app/mgr.go:462-480 | the three outcomes of a restart: failed or stale, with no worker changed, or the worker freed and the waiter signalled once; the restart itself is gone in each |
| WorkerManagers.CheckIsSteps | server-manager/app/mgr.go:410-457 | one turn of the class's loop is exactly the steps the step machine takes for that worker |
| WorkerManagers.CheckIsThorough | server-manager/app/mgr.go:399-460 | over any number of workers the loop visits each once; each goes on as its ping and its deadline say, and the cancels sent are those of the matches lost |
| WorkerManagers.ResultIsSteps | server-manager/app/mgr.go:359-397 | a result that is delivered and acknowledged is, in the step machine too, queued and its worker freed, with a signal iff there was one |
| WorkerManagers.RestartIsStep | server-manager/app/mgr.go:462-480 | a restart that comes back is one step of the machine, which signals the waiter iff the restart is not stale |
| Databases.Database.GenerateAuthTokens | server-manager/adapters/db.go:231-269 | each listed user has the token that is returned for it; nothing else of any row changes |
| Databases.Database.AddMatch | server-manager/adapters/db.go:112-180 | all or nothing: it commits iff no statement fails, the logins are distinct and exist and the id is new; then the match is active and exactly the listed users are in it, off the queue; foreign keys are kept |
| Databases.Database.SaveMatchResults | server-manager/adapters/db.go:182-212 | the match ends inactive with the details, canceled iff the result failed, or is reported as not found and nothing changes |
| Databases.Database.RemoveMatchStatus | server-manager/adapters/db.go:271-295 | exactly the users of the match are cleared and keep their last websocket id; nobody else's row changes |
| Databases.Database.SetupMatchmaking | server-manager/adapters/db.go:297-345 | all or nothing: a finished match keeps its row, an active one ends as canceled with empty results; every user is out of its match and off the queue and keeps its last websocket id |
| Databases.Database.SetQueueStatus | api/src/lib/db.js:145-164 | the user is queued under a websocket id one above its last, or is refused iff unknown or in a match |
| Databases.Database.ExtendQueueStatuses | api/src/lib/db.js:115-143 | exactly the rows of still-queued users whose newest websocket is listed get a new deadline |
| Databases.Database.RemoveQueueStatus | api/src/lib/db.js:166-184 | the user is off the queue if the websocket is its newest and it is in no match, with nothing else of any row changed; otherwise nothing changes |
| Databases.Database.GetConnectionStatuses | api/src/lib/db.js:34-71 | exactly the listed users that exist, each with its row of that moment and the address of its match |
| Replay.StreamEffect | server-manager/app/mgr.go:221-238 | any stream of results leaves each existing match with the values of its last entry, clears exactly the users of the matches it names, and changes nothing else |
| Replay.ReplayIsIdempotent | server-manager/adapters/broker.go:93-99 | handling a whole redelivered stream again changes no row |
| PlatformTheorems.InactiveForGood | server-manager/adapters/db.go:182-345 | in every run, across restarts of the server manager, no inactive match becomes active again |
| PlatformResults.FinishedRowsLast | server-manager/adapters/db.go:329-341 | in every run, across restarts that set matchmaking up anew, the row of a finished match stays as it is until another result for that match is saved |
| PlatformResults.SetupEndsTheActive | server-manager/adapters/db.go:297-345 | setting up ends exactly the active matches, as canceled, and clears every user but for its last websocket id |
| PlatformResults.SavedAsReported | server-manager/app/mgr.go:221-238 | in every run a save records the next result in the order sent: inactive, its details, canceled iff it failed; no other row changes |
| PlatformResults.CancelsAreSavedAsCanceled | server-manager/app/mgr.go:424-435 | in every run a match that a health check gave up on is recorded as canceled and without results, never as played |
| PlatformResults.StatusIsRemoved | server-manager/adapters/db.go:271-295 | in every run a removal of a match status clears exactly the users of the match in the saver's hands |
| Replay.InactiveStaysInactive | server-manager/adapters/db.go:184-212 | no stream of results makes an inactive match active |
| Replay.ReplayAcrossSetup | server-manager/adapters/db.go:297-345 | redelivery after the setup transaction of a restart restores the same final values |
| Registry.CloseIsDropped | api/src/lib/server/connection.js:366-393 | the mutual recursion of close, its event and delete terminates and amounts to one round: closed, untracked if it was the tracked one, one removal then |
| Registry.RegisterIsRegistered | api/src/lib/server/server.js:32-71 | set rejects a newcomer iff a strictly newer websocket is tracked, else replaces the older one; neither of those has its queue status removed |
| Registry.SendMatchIsDropped | api/src/lib/server/connection.js:322-353 | a payload is on record iff the connection was open and the send went out, and the connection is closed either way |
| Registry.ClosedForNext | api/src/lib/server/server.js:119-128 | shutdown may close the connections in any order |
| RegistryTheorems.TrackedIffOpen | api/src/lib/server/server.js:21-129 | after any sequence of events a connection is in the Map iff it is open, each login has at most one, and none was sent two payloads |
| RegistryTheorems.ClosedForGood | api/src/lib/server/connection.js:366-393 | a closed connection never reopens and causes no further removal |
| RegistryTheorems.TrackedCloseRemovesOnce | api/src/lib/server/server.js:73-105 | a tracked connection that closes in any way triggers removeQueueStatus exactly once, ever |
| RegistryTheorems.ReplacedNeverRemoves | api/src/lib/server/server.js:48-61 | only a strictly newer websocket of the login replaces a connection, and the replaced one never triggers removeQueueStatus |
| RegistryTheorems.RejectedNeverRemoves | api/src/lib/server/server.js:35-46 | a rejected connection leaves the Map as it was, stays closed and never triggers removeQueueStatus |
| RegistryTheorems.NewestIsTracked | api/src/lib/server/server.js:32-71 | after a live websocket arrives the newest one of its login is the tracked one |
| Watchdog.WatchdogIsExact | api/src/lib/server/connection.js:188-313 | over any events: a ping is outstanding iff the pong timer is set; the sequence number counts accepted and missed rounds; the miss counter is the trailing streak of misses; hard close comes exactly at miss maxMissedPongs+1 |
| Watchdog.PongCountsExactlyWhen | api/src/lib/server/connection.js:228-264 | after any events a pong counts iff the connection is open, a ping is outstanding and the payload is the number of finished rounds; any other, such as a late one, changes nothing |
| Watchdog.MissClosesExactlyWhen | api/src/lib/server/connection.js:266-313 | after any events an expired pong timer ends the round as a miss, and closes hard iff the streak of misses has already reached the maximum |
| Watchdog.PingLeavesExactly | api/src/lib/server/connection.js:183-226 | after any events the ping timer leaves a ping outstanding with its timer set, or closes the connection iff its socket is gone or the ping could not be sent |
| Watchdog.SilentPeerIsClosed | api/src/lib/constants.js:57-61 | in every timed run no connection is open later than (maxMissedPongs+1) intervals and one timeout after its last answered ping was sent |
| Watchdog.SilentPeerByDefault | api/src/lib/constants.js:57-61 | with the default options that is 18 seconds |
| WebSockets.Connection.Open | api/src/lib/server/connection.js:139-181 | a new connection ends open with its ping timer running, or closed with all callbacks done if its socket is gone; any other throws and nothing changes |
| WebSockets.Connection.SendPing | api/src/lib/server/connection.js:183-226 | the watchdog's ping step, and its close with all callbacks when the socket is gone or the ping throws; no other connection's watchdog changes |
| WebSockets.Connection.OnPong | api/src/lib/server/connection.js:228-264 | the watchdog's pong step: only the outstanding number is accepted |
| WebSockets.Connection.OnPongMiss | api/src/lib/server/connection.js:266-313 | the watchdog's miss step, and the hard close with all callbacks |
| WebSockets.Connection.SendMatchAndClose | api/src/lib/server/connection.js:315-353 | at most one payload goes out, on an open connection only, and the connection is closed with all callbacks |
| WebSockets.Connection.Close | api/src/lib/server/connection.js:355-393 | the objects, closing and deleting each other re-entrantly, end as the registry specification says; timers stopped; terminates |
| WebSockets.Connections.Set | api/src/lib/server/server.js:24-71 | the objects end as the registry's specification of a registration says, whatever callbacks run in between; the newcomer's ping timer runs iff it is live and not rejected, the replaced connection's timers stop, and no other watchdog changes |
| WebSockets.Connections.Accept | api/src/lib/server/server.js:143-167 | a connection made for an allocated websocket id is known, registered, and open with its ping timer running iff it is live and no strictly newer one is tracked |
| WebSockets.Connections.OpenInPlaceOf | api/src/lib/server/server.js:52-70 | of all connections only the replaced one is closed and only the newcomer is opened |
| WebSockets.Connections.Delete | api/src/lib/server/server.js:73-105 | only the tracked websocket of that id is untracked, closed and removed from the queue; a stale delete changes nothing |
| WebSockets.Connections.GetQueued | api/src/lib/server/server.js:107-115 | exactly the tracked connections, each of them open |
| WebSockets.Connections.Close | api/src/lib/server/server.js:117-128 | closing while the callbacks empty the Map ends with every tracked connection closed, its timers stopped and its removal issued once; no other watchdog changes |
| QueueApi.NothingExcluded | api/src/lib/server/server.js:422-591 | every step the code can make is defined in the model: arrivals find their instance and a fresh id, polls only name connections of their instance |
| QueueApi.StepInv | api/src/lib/server/server.js:379-591 | every step of any number of API instances, with stale statements and overlapping polls, keeps: ids are known to the rows and in one place, removals are only for dead websockets, and the newest live websocket's user stays queued |
| QueueTheorems.NewestCloseIsFollowedUp | api/src/lib/server/server.js:73-105 | however the connection of a newest websocket comes to an end, its removal is issued |
| QueueTheorems.LostIsClosed | api/src/lib/server/connection.js:355-393 | a lost connection is closed with nothing sent, and no other connection of the instance changes |
| QueueTheorems.NewestIsAdmitted | api/src/lib/server/server.js:24-71 | a newest websocket that arrives on an open server is open iff its socket is; if not, its removal is issued |
| QueueTheorems.AllOpenAreQueued | api/src/lib/server/server.js:107-115 | a poll or an extension is about exactly the connections open at that moment |
| PlatformInvariant.StepInv | server-manager/app/matchmaker.go:137-181 | every step of the whole platform keeps the invariants of tokens, rooms, match ids, orphans, deliveries and queues together |
| PlatformInvariant.RunInv | server-manager/app/matchmaker.go:105-181 | they hold in every state of every run from an empty database, with crashes of the server manager in between |
| PlatformTheorems.TokenAgreement | server-manager/app/matchmaker.go:105-181 | each user in match m has the token that the config sent to the worker of m gives it |
| PlatformTheorems.TokensAreLeftAlone | server-manager/adapters/db.go:231-295 | no step re-tokens, clears or moves a player until the status of its match is removed or matchmaking is set up anew |
| PlatformTheorems.RoomsNeverSteal | server-manager/adapters/db.go:112-180 | at each AddMatch every listed user is in no match and enters this one, off the queue; no other user's row changes |
| PlatformTheorems.RoomsAreFull | server-manager/adapters/db.go:152-159 | every committed match has exactly PlayersPerRoom players, those of its worker's config, and the address of that worker |
| PlatformTheorems.InMatchMeansNotQueued | init.sql:17-33 | a user in a match is not queued, the match exists and so does the history row |
| PlatformTheorems.MatchIdsAreUsedOnce | server-manager/adapters/db.go:214-229 | across crashes each match id is offered to at most one worker, ids in use are below the next sequence value and pairwise distinct |
| PlatformTheorems.NoOrphans | server-manager/app/mgr.go:207-241 | if the saver had not begun with a result for m when its row was added and its statements succeed: while m is active its worker runs it or a result is queued or being saved; once none is due nobody points at m |
| PlatformTheorems.OrphanedExactlyWhen | server-manager/app/matchmaker.go:130-134 | for any match: once no result is due, its row is still active iff it was added when none was due and none was saved since; the same for its players |
| PlatformTheorems.StrandedOnlyIfLate | server-manager/app/matchmaker.go:125-134 | AddMatch strands a match iff no result is due at that moment, and then the saver has already begun with one |
| PlatformTheorems.StrandedUntil | server-manager/app/matchmaker.go:130-134 | a stranded match stays active until another result for it is saved or a new server manager sets matchmaking up |
| LateMatch.LateMatchIsOrphaned | server-manager/app/matchmaker.go:125-134 | a concrete run without any failure that leaves a match active with nobody running it, no result due and its players in it |
| PlatformTheorems.ActiveMatchesAreBounded | server-manager/app/mgr.go:207-241 | active matches added in time never exceed occupied workers plus pending saves |
| Snapshots.HandledSends | api/src/lib/server/server.js:443-492 | what a poll does to an open connection: closed and told nothing if its user is missing or has a newer websocket, left alone without a match, otherwise sent the match if the send works, and closed; no other connection changes |
| Snapshots.StepInv | api/src/lib/server/server.js:422-495 | every step of every instance keeps: an answered poll, and every payload ever sent, was read from one earlier state of the rows, and an answer has a row for every connection still to be handled |
| PlatformDelivery.PollsAreSnapshots | api/src/lib/db.js:42-71 | in every run an answered poll holds the rows of one earlier state for all users it found |
| PlatformDelivery.DeliveriesAreSnapshots | api/src/lib/server/server.js:478-491 | in every run each payload sent was read from one earlier state, in which the connection's websocket id was its user's newest and the user in a match; no connection is sent two |
| PlatformDelivery.DeliveriesAreTrue | api/src/lib/server/server.js:478-491 | end to end: a payload names the worker of the match the player was in when the rows were read, with the token this worker was given for the player |
| PlatformDelivery.PollsTellEveryone | api/src/lib/server/server.js:443-495 | in every run what a poll does to each open connection follows from the rows of one earlier state: closed if not the newest, left alone without a match, otherwise sent that match's address and the user's token, if the send works, and closed |
| PlatformTiming.GatherableExactlyUntil | server-manager/adapters/db.go:86-96 | in every run, while a user's newest websocket lives and the matchmaker leaves the row alone, the user can be gathered exactly until queueExtensionMs after the queueing or the last extension of this websocket, whatever else happens |
| PlatformTiming.ExtensionsKeepWaiting | api/src/lib/server/server.js:379-410 | in every run extensions less than queueExtensionMs apart keep the user gatherable at every moment in between |
| PlatformTiming.EnqueueStartsWaiting | api/src/lib/db.js:145-164 | the queueing itself starts such a span, with the websocket id it gives out |
| PlatformQueue.RemovedUntilQueuedAgain | api/src/lib/db.js:115-184 | in every run, once the removal for a newest websocket has run, its user cannot be gathered at any time until it is queued again, whatever extensions and restarts intervene |
| PlatformQueue.RemovalIsExact | api/src/lib/db.js:166-184 | in every run a removal takes away the deadline of its user iff the websocket is the newest and the user in no match, and changes nothing else |
| PlatformQueue.NewestCloseIsFollowedUp | api/src/lib/server/server.js:73-105 | in every run, when the connection of a newest websocket closes in any way, its removal is on its way |
| PlatformQueue.DisconnectedPlayersLeave | api/src/lib/server/server.js:87-105 | end to end: after a disconnection whose removal is not lost, either the removal is still on its way or the player cannot be gathered until it queues again |
| PlatformQueue.NewestIsAdmitted | api/src/lib/server/server.js:24-71 | in every run a newest websocket that arrives alive on an open server is open from then on |
| PlatformQueue.ClosedServersStayEmpty | api/src/lib/server/server.js:598-627 | in every run a server that is closed has no open connection, then and ever after |
| PlatformLoop.NobodyIsQueuedUnasked | api/src/lib/db.js:145-164 | in every run whoever is queued was queued by an earlier setQueueStatus of its own |
| PlatformLoop.RoomsAreOfWaitingPlayers | server-manager/adapters/db.go:86-96 | in every run the players of a match were gathered together in one earlier step, each of them queued, with time left and in no match |
| PlatformLoop.FailuresStartOver | server-manager/app/matchmaker.go:105-181 | a failed step of the loop leaves matches, queue and workers as they are and the loop at its start |
| PlatformLoop.CanceledLoopStops | server-manager/app/matchmaker.go:137-150 | once the loop has found its context cancelled no match is offered or added until a new server manager starts |
| PlatformTheorems.NewestWebsocketWins | api/src/lib/db.js:126-184 | across instances the user of the open connection with the last websocket id stays queued, whatever stale closes and extensions are in flight, until AddMatch or SetupMatchmaking touches the row |
| PlatformTheorems.WebsocketIdsIncrease | api/src/lib/db.js:155-164 | in every run the ids given out for a login strictly increase, on whatever instances and whether or not their arrivals were dropped |
| PlatformTheorems.NewIdIsLargest | api/src/lib/db.js:155-164 | an id that is given out is above those of all arrivals and connections of that login on any instance |
| PlatformTheorems.NoApiStepExcluded | api/src/lib/server/server.js:379-591 | in every reachable state the API's steps are enabled exactly when the code can make them |
| PlatformTheorems.RemovalsAreForTheDead | api/src/lib/server/server.js:87-105 | a removal in flight never belongs to a websocket that is open |
| Executors.Executor.Start | game-server/host/adapters/exec.go:57-96 | for each point at which it may fail: what it has created by then, its error, and an executor that is active; nothing at all if it was active |
| Executors.Executor.Stop | game-server/host/adapters/exec.go:98-126 | everything held is let go of, and the error is the cancellation only if a process was waited for under it |
| Executors.Executor.StopCommand | game-server/host/adapters/exec.go:128-154 | SIGTERM and then SIGKILL to the group however the wait ends; a further wait only after a cancellation |
| Executors.Executor.GetResult | game-server/host/adapters/exec.go:156-176 | a result iff the executor is active, its process started and exited well, and the file can be read; a nil waiter after an early failure of Start is a panic |
| Executors.RunInv | game-server/host/adapters/exec.go:57-154 | over every run of starts and stops the executor's fields name exactly the files and the group that its requests have left live |
| Executors.StartLeaves | game-server/host/adapters/exec.go:57-96 | for each point at which a start may fail, which of the two files and the process are live afterwards; only a full start is no error |
| Executors.TermBeforeKill | game-server/host/adapters/exec.go:128-154 | over every run each SIGKILL comes right after a SIGTERM to the same group |
| Executors.AtMostOneLive | game-server/host/adapters/exec.go:57-154 | of two config files, two result files or two groups of a run the earlier is removed or killed before the later is made |
| Executors.StopReleasesAll | game-server/host/adapters/exec.go:98-126 | after any Stop every file ever created was removed and every group ever started was sent SIGKILL |
| Executors.KillsAreAimed | game-server/host/adapters/exec.go:214-218 | a SIGKILL goes only to a group this executor started and has not killed since, and never to group 0, its own |
| GameServers.Server.RunServer | game-server/host/app/server.go:147-161 | the executor is stopped again iff it started, and the error is that of the start or of the result |
| GameServers.Server.RunMatch | game-server/host/app/server.go:120-145 | a match received has one acknowledged result or one attempted cancel; what is published is the specified sequence, and success means an acknowledged result |
| GameServers.Server.Run | game-server/host/app/server.go:86-118 | the loop ends exactly at the first iteration that fails with a cancellation, or when its context is found cancelled; the matches attended to are the matches received, in order, and what is published is the specified sequence |
| GameServers.RunsWellExactlyWhen | game-server/host/app/server.go:147-161 | over any earlier matches, a match runs well iff none of those failed to start, its server starts and exits well, and its result can be read |
| GameServers.EntriesExactly | game-server/host/adapters/broker.go:137-179 | over any run, the stream holds no entry for a received match iff every publish for it was lost, two iff its result was stored unacknowledged and the cancel was stored too, the cancel last, and one otherwise |
| GameServers.EntriesOfMatch | game-server/host/app/server.go:120-145 | the entries of a match come from the one iteration that received it |
| GameServers.IterationEntries | game-server/host/app/server.go:131-143 | an iteration leaves a result iff the match ran well and it was stored, then a cancel iff no result was acknowledged and the cancel was stored |
| GameServers.Server.Close | game-server/host/app/server.go:72-84 | the first close of an opened server stops the executor, any other changes nothing |
| GameServers.StuckExactlyWhen | game-server/host/app/server.go:147-153 | later matches are refused as already active iff an earlier one failed to start, and each of them leaves everything as it was |
| GameServers.CloseReleasesAll | game-server/host/app/server.go:72-84 | after Close, however the matches went, every file ever created was removed and every group ever started was sent SIGKILL |

## Left out

- NATS, Docker, pgx, `ws` and HTTP plumbing: each call is a parameter that says how it ends.
- JSON, bcrypt, random bytes and cookies: tokens, payloads and details are opaque values.
- REST routes, pages, credential checks, configuration and logging: single-branch code.
- The opened and closed flags of the server manager's adapters, `HandleBackoff`, and close codes with their reasons.
- `ConnectionServer`'s methods and `matchmakingLoop` are steps of `QueueApi` and `Platform`, not methods of a class: they suspend in the middle, and what matters is what runs meanwhile. `WaitForFreeWorker`, `saveLoop` and `healthLoop` are steps of `Manager` for the same reason.
- The command line that `generateCommand` builds from the two file names.
- Insertion order of the Map: `WebSockets.Connections.Close` closes in any order, which covers it.
- WorkerManagers.WorkerManager.HandleResults: sends append to a sequence, because a send that blocks on a full channel, with the lock held or not, is what `Manager` models; likewise for HealthCheck.
- WorkerManagers.WorkerManager.HealthCheck: takes its clock readings as arguments, two for each worker.
- `CmdWaiter` is reduced to how a wait ends; a signal is modelled as sent, a removal of a file as requested.
- Executors.Executor.Start: file names and group numbers are fresh numbers, so reuse of process ids is not modelled.
- `Database.GatherMatchPlayers` takes the rows that its SELECT yields as an argument; it and `Database.GetNextMatchId` add nothing to the statements of `Tables` that the runs are about.
- Integer widths: match ids, state ids and websocket ids are unbounded; `SERIAL` and `BIGINT` overflow is not modelled.
- Drift and coalescing of `setInterval`: in `Watchdog` a timer fires when it is due.
- Scheduling fairness, and progress after the server manager's context is cancelled beyond what `ManagerTheorems` says of the lock: bounded measures and enabledness stand in for liveness.
- Deletion of users and matches, and the sessions table.
