# EXTube protocols, modelled and proved in Dafny

EXTube turns a video URL into a 3D model. The heavy work is done by external tools; what the
repository itself owns is the protocol and state-machine code around them. This project models that
code and proves what it promises, for all inputs, all runs and all interleavings.

Each area has the same three layers. A **specification** on values: datatypes, functions, and where
there is a protocol a machine `State` / `Step` / `Enabled` / `Apply`. **Classes and methods** with the
fields, branches and loops of the source, whose contracts tie every new state to that specification.
And **lemmas** about the specification: invariants kept by every step, and from them the main results
over every run (marked "Main result" in the files).

| file | what it models |
|---|---|
| `Prelude.dfy`, `Geometric.dfy` | shared vocabulary; powers and geometric sums |
| `ProgressManager.dfy` | sequence numbers, the history of 50 events, connection lists, the greeting of a joining client; a ghost log that is never trimmed |
| `JobUpdates.dfy` | what the writers of a job row do: the row first, then the message |
| `Delivery.dfy` | the same server with every send interleaved freely, fed by those writers, which may be interrupted or killed between any two effects |
| `Reconnect.dfy` | one browser client with its cursor, backoff and stop flag, over dropped and reopened connections |
| `Wire.dfy` | that client against that server: which of the interleaved sends make a first-in first-out wire |
| `ColmapRetry.dfy` | the inner retry loop with growing timeouts and sleeps |
| `Checkpoint.dfy` | the checkpointed pipeline under step failures, kills and torn checkpoint writes |
| `QueueManager.dfy` | the waiting set (a sorted set) and the active set, order and positions |
| `Lifecycle.dfy` | job rows, queue sets and worker tasks under create, run, automatic retry, cancel, manual retry and delete |
| `JobTable.dfy` | the lifecycle and the delivery machine on one job table: every status the one changes is stored by a writer of the other |
| `NestedRetries.dfy` | the checkpointed pipeline and the lifecycle together: the retries of commands, reconstructions and pipeline runs over the life of one job |
| `TimeWindows.dfy` | how many points of time a half-open window can hold |
| `RateLimit.dfy` | one sliding window of the rate limiter against its full request history |
| `RateKeys.dfy` | the keys of the rate limiter: which configurations keep their rules apart |
| `RateLimiter.dfy` | the rate limiter with all its keys: exactly when it decides as the full histories would |
| `Lockout.dfy` | login lockout, in memory and over Redis |
| `RefreshTokens.dfy` | refresh-token rotation on the server, which may raise at any stage |
| `ClientRefresh.dfy` | the browser's single-flight refresh against that server, behind the rate limiter and over a network that may lose messages |
| `BlurFilter.dfy` | the parallel blur filter, the files it moves, and the two image checks downstream |

`dafny verify dfyconfig.toml` checks everything.

## What the proofs brought to light

The code is modelled as it is. Where a promise holds only under a condition, the exact condition is proved.

- The browser clears its tokens on every answer that is not a success, also when the answer is not about
  the token. If a usable token is presented, it is discarded while still live exactly if the answer came
  from outside: status 429 of the rate limiter, or an exception before the revocation
  (`ClearsLiveTokenExactly`, with the run `ThrottledLogsOut`). What a caller can check beforehand: the tab
  stays logged in exactly if the limiter's window has room, the token is usable and nothing raises
  (`RefreshSucceedsExactly`).
- If the response to a granted refresh is lost, the stored token is revoked exactly if it is the one that
  was used up, and then the next refresh fails (`LostResponse`).
- A logout lasts exactly if no refresh is under way that is or can still be granted, in every run:
  `clearTokens` does not stop one, and its answer is saved (`LogOutLastsExactly`).
- Resuming a reconstruction is equivalent to starting afresh, whatever the tools do, exactly if no old
  `points.ply` is in the directory or the options cover it (`EquivalentExactly`); with unchanged options it
  always is (`SameOptionsEquivalent`, against `StalePlyHappens`).
- A waiting entry always stands for a queued worker task, except after one kind of step: the retryable
  failure of a worker task whose job was deleted meanwhile (`BackedExactly`, `PhantomEntry`).
- A cancellation that stops the worker task is final (`StoppedForGood`); deleting a pending job is not, its
  task can still start (`DeletedStillQueued`).
- A reconnect more than 50 events behind loses exactly the excess (`ReplayLoss`, `LateReconnectLoses`).
- A rate limit of zero or less makes `dispatch` index an empty list (`DeniedExactlyWhenFull`).
- Two rules can meet on one key of the limiter, for example for a configured path `default`
  (`DefaultPathCollides`), and then the limiter can forget what it has to remember (`SharedKeyForgets`). A key
  has one rule, for every key, exactly if the configuration is clear: whenever a configured path reads like
  the end of the default key, or of the key of another entry, the rules of the two are the same
  (`OneRulePerKey`). The limiter always decides as the full history would, for every key, exactly if they are
  the same in this sense: they look equally far back, or admit nothing (`LimiterFaithfulExactly`, and
  `FaithfulExactly` key by key).
- The sends to one socket are not always in order: a broadcast can overtake the replay (`ReplayOvertaken`), and
  then the client's cursor falls back and an event is processed twice (`CursorFallsBack`).
  What a socket was sent stays an unbroken stretch of the log exactly while each broadcast waits for the
  replay and for earlier broadcasts (`SequencedExactly`).
- The statement after the COLMAP loop is reached only for a negative retry limit, and fails there
  (`RunColmap`).
- The Redis lockout lets through up to `2 * max - 1` failures per lockout length, the in-memory one
  `max` (`SharedBound`, `SharedBoundIsReached`, `MemoryBound`); exactly when each blocks is
  `SharedBlockedExactly` and `MemoryBlockedExactly`.
- The blur filter is independent of the completion order exactly if frames of the same name have the
  same score (`ScheduleIndependentExactly`).

## Model

| member | source | states |
|---|---|---|
| ProgressManager.AboveCutsFront | src/api/ws.py:76-78 | filtering a consecutive stretch of the log by number drops a prefix of it and nothing else |
| ProgressManager.ReplayLoss | src/api/ws.py:31-34 | a client at `last` is replayed the gap minus exactly max(0, seq - last - 50) events, and nothing only if it is up to date |
| ProgressManager.RemoveFirstRemovesAll | src/api/ws.py:45-46 | in a connection list without duplicates, list.remove takes out every trace of the socket |
| ProgressManager.JobProgressManager.Connect | src/api/ws.py:36-38 | appends the socket to its own job's list and leaves the other jobs alone |
| ProgressManager.JobProgressManager.Disconnect | src/api/ws.py:42-48 | takes the socket out of its own job's list, whether or not it was there |
| ProgressManager.JobProgressManager.Broadcast | src/api/ws.py:53-58 | the log of the job grows by the event, which carries the next number; the bounded history stays the last min(seq, 50) of the log; the sockets to send to are the list of that moment |
| ProgressManager.JobProgressManager.RemoveDead | src/api/ws.py:66-71 | the list loses exactly the sockets whose send failed |
| ProgressManager.JobProgressManager.HasConnections | src/api/ws.py:73-74 | true if and only if some socket is registered for the job |
| ProgressManager.JobProgressManager.GetEventsSince | src/api/ws.py:76-78 | answers as the untrimmed log would from max(last, seq - 50) on |
| ProgressManager.Join | src/api/ws.py:229-245 | connects the socket and greets it with the events above its base, or with a snapshot carrying the current number if there are none; what a snapshot says of the job is `Delivery.SnapshotTells` |
| Delivery.RemoveDeadStep | src/api/ws.py:66-71 | removing dead sockets is the machine's step of that name |
| JobUpdates.Updates.Store | src/api/db.py:291-311 | one statement changes the row of its own job as specified, a missing row stays missing, and the table stays the outcome of all changes committed |
| JobUpdates.Updates.UpdateProgress | src/api/tasks.py:103-108 | the row first, then the message with the same progress |
| JobUpdates.Updates.Complete | src/api/tasks.py:249-250 | the row first, then the message with status and result |
| JobUpdates.Updates.HandleError | src/api/tasks.py:295-346 | the row first, then the message, for a retry and for a failure |
| JobUpdates.Updates.CancelJob | src/api/routers/jobs.py:500-512 | the row first, then the message |
| JobUpdates.StatusIsLatest | src/api/db.py:291-304 | the status of a row is the one written last |
| JobUpdates.RowIsLatest | src/api/db.py:291-311 | column by column, the row holds what was written last since it was inserted, or what it was inserted with |
| JobUpdates.AnnouncedExactly | src/api/tasks.py:295-346 | published are progress and exactly the changes of status to retrying, completed, failed or cancelled |
| JobUpdates.NoticeTellsStatus | src/api/tasks.py:249-250 | a message tells the status, progress, result or error that its change wrote; a retry tells the error itself where the row has the note |
| Delivery.StoreStep | src/api/tasks.py:103-108 | the first effect of a writer is the machine's store step |
| Delivery.BroadcastStep | src/api/ws.py:53-58 | the locked part of broadcast is the machine's publish step, and numbers the message the writer published |
| Delivery.RelayStep | src/api/ws.py:88-96 | a message for a job without connections is dropped, any other is the machine's publish step |
| Delivery.JoinStep | src/api/ws.py:219-245 | database read, connect and history read are the machine's join step: refused if there is no row, and otherwise greeted with the snapshot of the row read, or with the replay |
| Delivery.SendConserves | src/api/ws.py:61-65 | one send moves one copy from queued to delivered and keeps every other count |
| Delivery.AnnouncedKeeps | src/api/tasks.py:103-108 | because every writer stores before it publishes, every numbered event announces a change that is committed |
| Delivery.StepKeeps | src/api/ws.py:36-71 | every step of writers, broadcasts, sends, joins and removals keeps the invariant of every socket, job and writer |
| Delivery.LeavesForGood | src/api/ws.py:42-71 | a socket that left, or was removed as dead, is never again the target of a broadcast, whatever follows |
| Delivery.ExactlyOnce | src/api/ws.py:36-71 | in every reachable state of every interleaving, an open socket has each event of its job above its base exactly once, delivered or queued, split between replay and broadcast, and nothing else; the base is last_seq, or seq - 50 if the history was too short, or the number of the snapshot |
| Delivery.DrainedMeansComplete | src/api/ws.py:229-245 | when nothing is queued any more, exactly the events above the base were received, each once |
| Delivery.SnapshotNeverStale | src/api/ws.py:219-245 | every snapshot sent shows the row after a number of committed changes that includes every change announced by an event numbered up to the snapshot's seq; the later events all follow |
| Delivery.SnapshotTells | src/api/ws.py:253-276 | every snapshot, in terms of the changes committed when its row was read: if the last change of status was completion with a result, that result; if failure, that error; if pending, the queue position if there is one; else no detail; the progress written last since the row was inserted; and the number of the last event not owed |
| Delivery.SnapshotShowsStatus | src/api/ws.py:256-267 | if an event up to that seq announced a status, the snapshot shows it or one written later, but before the row was read |
| Wire.SequencedExactly | src/api/ws.py:61-65 | what an open socket was sent stays an unbroken stretch of its log if and only if the next send is in order: a broadcast waits for the replay and for earlier broadcasts |
| Wire.ReplayOvertaken | src/api/ws.py:229-236 | a run in which a broadcast overtakes the replay, and the client gets event 3 before event 2 |
| Wire.CursorFallsBack | src/viewer/src/hooks/useJobWebSocket.ts:96-101 | then the cursor falls back to the late message, and the next connection is sent an event again that was already processed |
| Wire.RunRefines | src/api/ws.py:36-71 | every run of client and server with the sends to the client's socket in order, whatever else interleaves, is a run of the client on its first-in first-out wire |
| Wire.EndToEndOverServer | src/viewer/src/hooks/useJobWebSocket.ts:90-120 | so over any such run of the server the client processes events of the job in order and once, counts what it skips, and skips nothing if every reconnect came within 50 events |
| Reconnect.JobSocket.OnOpen | src/viewer/src/hooks/useJobWebSocket.ts:90-94 | sends the cursor and resets the delay |
| Reconnect.JobSocket.OnMessage | src/viewer/src/hooks/useJobWebSocket.ts:96-111 | the cursor takes the message's number; a terminal status stops the hook and closes |
| Reconnect.JobSocket.OnClose | src/viewer/src/hooks/useJobWebSocket.ts:113-120 | waits the current delay and doubles it up to the maximum, unless stopped |
| Reconnect.BackoffClosedForm | src/viewer/src/hooks/useJobWebSocket.ts:113-118 | the k-th failure in a row after an open connection waits min(1000 * 2^k, maximum) |
| Reconnect.StepKeeps | src/viewer/src/hooks/useJobWebSocket.ts:90-120 | broadcast, connect, receive and drop keep the end-to-end invariant |
| Reconnect.EndToEnd | src/viewer/src/hooks/useJobWebSocket.ts:90-120 | over any run, what the client processed is in order, free of duplicates and part of the log, skipped numbers are counted exactly, and if every reconnect came within 50 events it is one unbroken stretch up to the cursor |
| Reconnect.LateReconnectLoses | src/api/ws.py:232-241 | a reconnect more than 50 events behind skips exactly the excess |
| Reconnect.NothingIsUndone | src/viewer/src/hooks/useJobWebSocket.ts:103-107 | skipped numbers stay skipped, and after a terminal message nothing is processed any more |
| ColmapRetry.FirstStopUnique | src/reconstruction/reconstruction.py:91-145 | exactly one attempt is the first that succeeds, is not retryable or is the last allowed |
| ColmapRetry.ReturnsExactly | src/reconstruction/reconstruction.py:91-145 | a command succeeds if and only if some attempt within the limit does and every one before it failed with an error worth a retry; it ends with that attempt, or with the first error not worth one, or with the last allowed |
| ColmapRetry.RunColmap | src/reconstruction/reconstruction.py:83-147 | the loop stops at that attempt, with exactly the effects of the retried ones before it and the result of its process; the statement after the loop is reached only for a negative limit |
| ColmapRetry.RetryEffects | src/reconstruction/reconstruction.py:92-142 | stopping at attempt i means i + 1 processes with timeouts int(T * m^j), i sleeps b * k^j and callbacks numbered 1..i |
| ColmapRetry.TimeoutSchedule | src/reconstruction/reconstruction.py:92 | the j-th timeout is the whole part of T * m^j |
| ColmapRetry.SleepSchedule | src/reconstruction/reconstruction.py:109 | the first sleep is the base delay, each later one the backoff times the one before |
| ColmapRetry.EffectsInOrder | src/reconstruction/reconstruction.py:91-142 | each attempt that is retried runs, reports with its number and error, and sleeps, in this order |
| ColmapRetry.RetryTime | src/reconstruction/reconstruction.py:91-142 | total time is at most the closed forms of the two geometric sums |
| Geometric.GeometricClosedForm | src/reconstruction/reconstruction.py:109 | first * (ratio^n - 1) / (ratio - 1) is the sum of the n terms |
| Checkpoint.Workspace.RunCommand | src/reconstruction/reconstruction.py:518-524 | a core command succeeds exactly if the attempt its retry loop stops at does |
| Checkpoint.Workspace.RunAndSave | src/reconstruction/reconstruction.py:516-526 | running, appending and saving is one unfolding of the specified run, or its end as specified |
| Checkpoint.Workspace.CoreStep | src/reconstruction/reconstruction.py:516-526 | one guarded core step advances the specified run by one step, does nothing if the checkpoint has it, or ends as specified |
| Checkpoint.Workspace.CoreSteps | src/reconstruction/reconstruction.py:505-554 | the three core steps from a loaded checkpoint do what the specification does from where the checkpoint stands |
| Checkpoint.Workspace.Finish | src/reconstruction/reconstruction.py:556-641 | the later tools leave the files, the outcome and the list of steps that the specification gives |
| Checkpoint.Workspace.Reconstruct | src/reconstruction/reconstruction.py:496-664 | a whole invocation has the disk, outcome and events of the specified one |
| Checkpoint.UnrollTools | src/reconstruction/reconstruction.py:567-624 | the first of the requested tools that does not work decides |
| Checkpoint.CoreExactly | src/reconstruction/reconstruction.py:514-554 | the first core step that does not go well decides which steps are started and succeed, what is in the checkpoint afterwards, and whether the core is done, fails or is killed |
| Checkpoint.OutcomeExactly | src/reconstruction/reconstruction.py:496-641 | after any history, an invocation succeeds if and only if there are two images, every core step left goes well, there are 3D points, every tool asked for works, and a cloud to convert, if there is one, neither breaks nor kills the conversion; exactly when it fails and when it is killed; and exactly which steps a success reports |
| Checkpoint.DiskExactly | src/reconstruction/reconstruction.py:514-641 | exactly what an invocation leaves: the checkpoint, points.ply and dense_points.ply |
| Checkpoint.InOrderMeaning | src/reconstruction/reconstruction.py:514-551 | a step started at some point of an ordered history has every earlier step among the successes before that point |
| Checkpoint.PredecessorsFirst | src/reconstruction/reconstruction.py:505-554 | after any history of failures, kills and torn writes the checkpoint is absent, unreadable or a prefix of the three core steps, all of which succeeded; and no core step ever started before its predecessors had succeeded |
| Checkpoint.CoreStarts | src/reconstruction/reconstruction.py:514-551 | an invocation that is not killed starts one core step per step of progress, and one more if it fails there |
| Checkpoint.HistoryStarts | src/reconstruction/reconstruction.py:514-554 | the potential: core steps started so far are at most the failed runs plus the steps in the checkpoint |
| Checkpoint.RunsBoundStarts | src/reconstruction/reconstruction.py:514-554 | n invocations without kills start at most n + 2 core steps between them, failed or not |
| Checkpoint.RetriesAmortised | src/reconstruction/reconstruction.py:514-554 | without kills, F failed runs and any successes start at most (F + 3) * (r + 1) COLMAP processes |
| Checkpoint.AmortisedBoundIsTight | src/reconstruction/reconstruction.py:514-554 | for every F and r some history reaches that number |
| Checkpoint.ResumeEquivalent | src/reconstruction/reconstruction.py:505-639 | after any history, a run that gets through the core steps has the outcome of a fresh run with the same options and tools if and only if it does not convert a stale points.ply |
| Checkpoint.EquivalentExactly | src/reconstruction/reconstruction.py:505-639 | for given options the equivalence holds for all outcomes of the tools if and only if no old points.ply is there, or the options ask for an export or a dense run |
| Checkpoint.PlyOnlyFromExport | src/reconstruction/reconstruction.py:569-574 | points.ply exists only if an earlier invocation asked for it |
| Checkpoint.SameOptionsEquivalent | src/reconstruction/reconstruction.py:505-639 | with unchanged options the equivalence always holds |
| Checkpoint.StalePlyHappens | src/reconstruction/reconstruction.py:626-639 | with changed options it can fail: a concrete history |
| Checkpoint.ReportedOnce | src/reconstruction/reconstruction.py:508-639 | the reported steps contain no step twice and begin with the core steps |
| QueueManager.OrderIsPosition | src/api/queue_manager.py:127-131 | rank in the sorted set is the order by score, then by member, both ways |
| QueueManager.LessIsLexicographic | src/api/queue_manager.py:100-125 | equal scores are ordered by member, lexicographically |
| QueueManager.QueueOrder | src/api/queue_manager.py:33-36 | while enqueue times differ by less than 10^9 s, high precedes normal; each class is first in, first out; a normal job precedes a high one enqueued more than 10^9 s later |
| QueueManager.RemovalShifts | src/api/queue_manager.py:90-91 | taking a job out moves up by one exactly the jobs behind it |
| QueueManager.InsertionShifts | src/api/queue_manager.py:55 | putting a job in moves back by one exactly the jobs after it |
| QueueManager.PositionsAgree | src/api/queue_manager.py:99-131 | `get_position` and `get_status` agree and together are a bijection onto 1..n |
| QueueManager.QueueManager.Enqueue | src/api/queue_manager.py:46-70 | the job is waiting with the score of its class and time, the others are unchanged, and the returned position is the job's own |
| QueueManager.QueueManager.Activate | src/api/queue_manager.py:72-77 | moves the job from waiting to active |
| QueueManager.QueueManager.Cancel | src/api/queue_manager.py:87-97 | takes the job out of both sets and reports whether it was in either |
| QueueManager.SortedJobs | src/api/queue_manager.py:117 | sorted() lists every active job once, in alphabetical order |
| QueueManager.QueueManager.GetStatus | src/api/queue_manager.py:99-120 | both counts, the active jobs sorted, and the waiting jobs numbered in order |
| QueueManager.QueueManager.GetPosition | src/api/queue_manager.py:122-125 | the position, or none |
| Lifecycle.Service.CreateJob | src/api/routers/jobs.py:310-324 | inserting, registering and enqueuing is the machine's create step |
| Lifecycle.Service.EnqueueJob | src/api/routers/jobs.py:200-223 | one more waiting entry, with the score of its priority and time, and one more worker task |
| Lifecycle.Service.StartTask | src/api/tasks.py:95-98 | the start of a task is the machine's start step |
| Lifecycle.Service.EndTask | src/api/tasks.py:249-265 | the end of a task, in success or failure and with its finally, is the machine's succeed or fail step |
| Lifecycle.Service.HandlePipelineError | src/api/tasks.py:276-346 | retries with the next count and delay, re-registers without a row, or marks the job failed |
| Lifecycle.Service.LoseTask | src/api/tasks.py:261-265 | a worker that dies skips its finally: the machine's crash step |
| Lifecycle.Service.CancelJob | src/api/routers/jobs.py:461-524 | 404, 409 or 200, and the machine's cancel step |
| Lifecycle.Service.RetryJob | src/api/routers/jobs.py:433-453 | 404, 409 or 200, and the machine's manual retry step |
| Lifecycle.Service.DeleteJob | src/api/routers/jobs.py:402-425 | 404, 409 or 204, and the machine's delete step |
| Lifecycle.OwnJobConsistent | src/api/tasks.py:95-98 | every step keeps the relation between row, sets and tasks of the job it is about |
| Lifecycle.StepKeeps | src/api/tasks.py:259-346 | every step keeps the invariant of every job |
| Lifecycle.LifecycleSafe | src/api/routers/jobs.py:441-504 | over any run a job has at most one outstanding task, is never waiting and active at once, waits if stored pending or retrying, is active if stored processing, and has nothing left if stored completed or failed |
| Lifecycle.CancellableExactly | src/api/routers/jobs.py:473-480 | over any run a job can be cancelled if and only if it is waiting or active |
| Lifecycle.StoppedForGood | src/api/routers/jobs.py:483-504 | after an accepted cancellation that stops the task, no run of the job ever starts again and its row says cancelled until it is deleted |
| Lifecycle.DeletedStillQueued | src/api/routers/jobs.py:402-425 | a pending job that is deleted goes on waiting, and its task can still start |
| Lifecycle.RetriesTerminate | src/api/tasks.py:276-334 | the retry count stays within 0..P, m manual retries allow at most (m + 1) * (P + 1) pipeline runs, and the delays since the last submission are the geometric progression |
| Lifecycle.DelaysGeometric | src/api/tasks.py:280-283 | one delay for each retry counted; the first is the base delay, each later one the multiplier times the one before |
| Lifecycle.DelaysBounded | src/api/tasks.py:280-283 | over any run the automatic retries since the last submission wait at most base * (mult^P - 1) / (mult - 1) |
| Lifecycle.BackedExactly | src/api/tasks.py:320-334 | a step leaves a waiting entry without a queued task if and only if it is the retryable failure of a deleted job's task |
| Lifecycle.PhantomEntry | src/api/tasks.py:320-325 | a concrete run that does |
| JobTable.StepKeeps | src/api/tasks.py:295-346 | with every status change stored by a writer, each step of lifecycle, writers and sockets keeps the two readings of the job table in agreement |
| JobTable.ShownIsLived | src/api/ws.py:219-256 | over any run a handler finds a row exactly if the job has one and shows its status; a job shown pending or retrying is waiting for its one queued task, one shown processing is active, one shown completed or failed has nothing left; and the client stops for good exactly if it is shown a job that is neither waiting nor active |
| NestedRetries.ReconstructKeepsStarts | src/reconstruction/reconstruction.py:505-554 | one more reconstruction in the same workspace keeps the potential of core steps started |
| NestedRetries.LifeKeepsCalls | src/api/tasks.py:186-197 | every step of the job machine keeps each reconstruction within a pipeline run of its own |
| NestedRetries.RemovesExactly | src/api/routers/jobs.py:402-524 | cancelling or deleting removes the directory exactly if it changes the job's row |
| NestedRetries.WholeLifeBounded | src/api/tasks.py:186-197 | over the whole life of a job, m manual retries and c removals of its directory, without kills, allow at most (B + 2 * min(B, c + 1)) * (r + 1) COLMAP processes for the core steps, B being (m + 1) * (P + 1) |
| NestedRetries.PlanCarriedOut | src/api/tasks.py:276-334 | whatever the attempts are, some run of the job makes them one after the other, through automatic and manual retries |
| NestedRetries.WholeLifeBoundIsTight | src/api/tasks.py:186-197 | for every m, c, P and r some run reaches that number |
| TimeWindows.SpacedBoundsWindows | src/api/rate_limit.py:29-33 | if each entry is at least w after the n-th before it, any half-open window of length w holds at most n |
| RateLimit.TrimmedDecidesAlike | src/api/rate_limit.py:29-33 | dropping entries older than an earlier cutoff changes no later count |
| RateLimit.ProducedIsSpaced | src/api/rate_limit.py:85-97 | the (i + max)-th admission comes at least one window after the i-th |
| RateLimit.AtMostMaxPerWindow | src/api/rate_limit.py:85-97 | any half-open stretch as long as the window holds at most max admissions |
| RateLimit.DeniedExactlyWhenFull | src/api/rate_limit.py:89-90 | a request is denied if and only if exactly max admitted ones lie in (now - W, now]; with max below one it fails on an empty list |
| RateLimit.RetryAfterTight | src/api/rate_limit.py:90-96 | if nothing is admitted meanwhile, admission starts exactly at oldest + W; the header exceeds that wait by more than 0 and at most 1 s; max(1, ...) changes nothing |
| RateLimit.HandlingIsFaithful | src/api/rate_limit.py:85-97 | a kept list that stands for its history decides as the history would, and goes on standing for it |
| RateKeys.MeetExactly | src/api/rate_limit.py:68-83 | in any reflexive and symmetric sense of "the same", the rules that meet on a key are the same, for every key, if and only if the configuration is clear in that sense |
| RateKeys.RuleIsFirst | src/api/rate_limit.py:68-72 | the rule of a request is that of the first entry with its path and, but for case, its method; the default if there is none |
| RateKeys.OneRulePerKey | src/api/rate_limit.py:80-83 | requests with equal keys fall under equal rules, for all requests, if and only if the configuration is clear |
| RateKeys.ColonFreeIsClear | src/api/rate_limit.py:80-83 | a configuration without colons in its paths and without the path `default` is clear |
| RateKeys.DefaultPathCollides | src/api/rate_limit.py:80-83 | the exception of `default` is needed: two requests with one key and two rules |
| RateLimiter.HandlingKeepsKey | src/api/rate_limit.py:85-97 | on a key where no two rules disturb each other, the kept list decides as the full history would and goes on standing for it under every rule that meets there |
| RateLimiter.FaithfulExactly | src/api/rate_limit.py:80-97 | over all sequences of requests on a key, the limiter decides as the full history would if and only if the rules that meet there look equally far back or admit nothing |
| RateLimiter.LimiterFaithfulExactly | src/api/rate_limit.py:68-97 | so it does on every key if and only if the configuration is clear in that sense |
| RateLimiter.SharedKeyForgets | src/api/rate_limit.py:80-88 | four requests, of a configuration whose keys coincide, of which the limiter admits one too many |
| RateLimiter.RateLimiter.GetRule | src/api/rate_limit.py:68-72 | the first rule matching method, regardless of case, and path, or the default |
| RateLimiter.RateLimiter.Admit | src/api/rate_limit.py:86-97 | decides on the kept list of the key and records the request exactly if it admits it |
| RateLimiter.RateLimiter.Dispatch | src/api/rate_limit.py:74-99 | for every configuration decides on the kept list of the key chosen from address, method and path, and on exactly the keys where it always can, so on every key of a clear configuration, as the full history of the key would; other keys are untouched |
| Lockout.InMemoryLockout.Check | src/api/auth.py:79-89 | locked if the limit is reached and the last failure is recent; a lock that has run out is reset |
| Lockout.InMemoryLockout.Login | src/api/auth.py:293-307 | one login changes the record and the failures of its own user as specified, nobody else's |
| Lockout.RedisLockout.Check | src/api/auth.py:61-76 | locked if a live counter has reached the limit |
| Lockout.RedisLockout.RecordFailure | src/api/auth.py:96-102 | counts up, and starts the time to live with the first failure only |
| Lockout.RedisLockout.Login | src/api/auth.py:293-307 | one login changes the key and the failures of its own user as specified, nobody else's |
| Lockout.SharedBlockedExactly | src/api/auth.py:57-114 | over Redis, after any attempts, a login is blocked if and only if a recorded failure began a lifetime still running, no success came since, and at least max(1, limit) failures fell into it; any other login is decided by its password |
| Lockout.SharedForgives | src/api/auth.py:307 | a success is followed by max(1, limit) free failures |
| Lockout.MemoryBlockedExactly | src/api/auth.py:79-114 | in memory a login is blocked if and only if the failures since the last success fill blocks of max(1, limit) and the last is less than a lockout ago; a limit below one also blocks while the clock shows less than a lockout |
| Lockout.MemoryForgives | src/api/auth.py:307 | there, too, fewer failures than that since the last success block nothing |
| Lockout.MemoryBound | src/api/auth.py:79-106 | since the last success, any half-open stretch as long as the lockout holds at most max failed verifications |
| Lockout.SharedBound | src/api/auth.py:61-102 | with the counter that expires from the first failure, at most 2 * max - 1 |
| Lockout.SharedBoundIsReached | src/api/auth.py:96-102 | for every limit and lockout some run reaches 2 * max - 1 |
| RefreshTokens.AuthServer.FinishLogin | src/api/auth.py:309-315 | the end of a login is the ledger's login step |
| RefreshTokens.AuthServer.RefreshTokens | src/api/auth.py:318-355 | a refresh answers and changes the table as the ledger's refresh step does, whatever stage it reaches |
| RefreshTokens.StepKeeps | src/api/auth.py:335-355 | every step keeps the rotation invariant |
| RefreshTokens.RotationSafe | src/api/auth.py:335-355 | over any run a token is accepted at most once, has at most one successor, and each login's chain has at most one unrevoked token |
| RefreshTokens.RevocationIsFinal | src/api/db.py:132-138 | a revoked token stays revoked |
| RefreshTokens.UnspentExactly | src/api/auth.py:335-355 | after any run a token is unrevoked if and only if it was issued and never presented in time |
| RefreshTokens.GrantedExactly | src/api/auth.py:335-355 | after any run a refresh is granted if and only if its token was issued by some step, has not been presented in time since, has not expired by the expiry it was issued with, its user exists and nothing raises; all read off the list of requests |
| RefreshTokens.TableExactly | src/api/auth.py:309-355 | after any run a token is in the table if and only if some login or refresh issued it; its user and expiry are those of that step, and it is revoked if and only if it was presented in time since |
| RefreshTokens.RefusedExactly | src/api/auth.py:335-347 | each refusal, read off the requests: not stored, expired, or user missing |
| RefreshTokens.LiveTokensWithinLogins | src/api/auth.py:309-355 | a user's unrevoked tokens never outnumber their logins |
| ClientRefresh.AuthClient.RefreshAccessToken | src/viewer/src/auth.ts:72-83 | joins the refresh under way, or starts one with the stored token |
| ClientRefresh.AuthClient.OnUnauthorized | src/viewer/src/auth.ts:110-112 | a 401 sends a refresh exactly if a token is stored and none is under way |
| ClientRefresh.AuthClient.OnAnswer | src/viewer/src/auth.ts:84-93 | a granted answer replaces the stored token, any other answer clears it |
| ClientRefresh.UnauthorizedStep | src/viewer/src/auth.ts:108-112 | a 401 is the machine's step of that name, and sends what it sends |
| ClientRefresh.ArriveStep | src/api/rate_limit.py:74-99 | a refresh that arrives is decided by the limiter and only if admitted handled by the endpoint; together they answer as the machine's arrival step does |
| ClientRefresh.TrafficStep | src/api/rate_limit.py:74-99 | any other request whose key has one rule falls under that rule and is the machine's traffic step |
| ClientRefresh.DeliverStep | src/viewer/src/auth.ts:84-93 | an answer that arrives, from the endpoint or from before it, is the machine's delivery step |
| ClientRefresh.StepKeeps | src/viewer/src/auth.ts:70-121 | every step of tab, network, limiter and server keeps the invariant |
| ClientRefresh.OneRefreshAtATime | src/viewer/src/auth.ts:72-96 | over any run, whatever is lost, at most one refresh is outstanding, and one is exactly while the promise is pending |
| ClientRefresh.RequestsCarryLiveTokens | src/viewer/src/auth.ts:70-121 | if no response is lost, every refresh request carries an unrevoked token, and so does the storage whenever no refresh is under way |
| ClientRefresh.ClearsLiveTokenExactly | src/viewer/src/auth.ts:84-87 | if no response is lost, the endpoint's own refusals are only about expired tokens and missing users, and a token that was usable when presented is discarded while live if and only if the answer came from the limiter or from an exception before the revocation |
| ClientRefresh.ThrottledLogsOut | src/api/rate_limit.py:89-96 | a concrete run for every limit: the window is full, a 401 comes, and a usable token is discarded |
| ClientRefresh.RefreshSucceedsExactly | src/api/auth.py:318-355 | a refresh keeps the tab logged in if and only if the limiter's window has room, the token is usable and nothing raises |
| ClientRefresh.LostResponse | src/viewer/src/auth.ts:84-87 | after a granted response is lost, the stored token is revoked if and only if it is the used-up one, and the next refresh succeeds if and only if it is another, usable one, the window has room and nothing raises |
| ClientRefresh.LogOutLastsExactly | src/viewer/src/auth.ts:30-33 | after any run, whatever was lost, a logout lasts until the next login if and only if no refresh is under way that is or can be granted |
| BlurFilter.CollectScores | src/extractor/extractor.py:140-153 | the callbacks count 1, 2, ... of total up to the first failure; without one the scores are those of all frames, a later one of the same name winning |
| BlurFilter.Divide | src/extractor/extractor.py:155-161 | the frames whose score reaches the threshold, in order, and the others, in order |
| BlurFilter.FilterBlurryFrames | src/extractor/extractor.py:135-163 | fails if and only if some score cannot be computed, and otherwise gives the specified split and one callback per frame |
| BlurFilter.ChosenPartition | src/extractor/extractor.py:155-161 | every frame lands on exactly one side |
| BlurFilter.OwnVerdict | src/extractor/extractor.py:143-163 | if frames of the same name have the same score, every completion order gives each frame its own verdict, order kept on both sides |
| BlurFilter.ScheduleIndependentExactly | src/extractor/extractor.py:143-163 | all completion orders give the same result if and only if frames of the same name have the same score |
| BlurFilter.ExtractionDir.MoveAll | src/extractor/extractor.py:195-197 | exactly the named files move, unchanged |
| BlurFilter.ExtractionDir.ExtractAndFilter | src/extractor/extractor.py:185-228 | exactly the frames whose score does not reach the threshold, NaN included, move away, the metadata flags agree with the scores and with the split, the totals count it; on failure nothing moves |
| BlurFilter.Verdicts | src/extractor/extractor.py:155-211 | a listed frame is moved and flagged if and only if its score is NaN, minus infinity, or a number below the threshold |
| BlurFilter.ThresholdMonotone | src/extractor/extractor.py:155-161 | raising the threshold only enlarges the set moved, and a frame stays whenever one with a smaller finite score does |
| BlurFilter.ProgressExactly | src/extractor/extractor.py:140-153 | the callbacks count up by one from 1, and reach the total if and only if no frame failed |
| BlurFilter.Describe | src/extractor/extractor.py:199-211 | index, timestamp, name, score and flag of every frame |
| BlurFilter.NothingLost | src/extractor/extractor.py:191-197 | every picture is afterwards in exactly one of the two directories, and the frames left number all minus the moved |
| BlurFilter.CountImages | src/reconstruction/reconstruction.py:496-500 | the sum over the six patterns counts each file once |
| BlurFilter.ImagesExactly | src/reconstruction/reconstruction.py:495-498 | an image is a file with one of the six endings |
| BlurFilter.GuardImpliesImageCheck | src/api/tasks.py:148-154 | the images found by `reconstruct` are at least total_extracted - total_filtered, and exactly that if the directory held only frames, so the worker's check implies the later one |

## Left out

- The Redis subscriber thread (src/api/ws.py:102-148) and the hand-over to the event loop (src/api/ws.py:92-98): a message that does not get to `broadcast` is a killed writer.
- Authentication, ownership and parsing of the first WebSocket message, timestamps in events, and the failure of `get_position` beyond "no position".
- `Reconnect` and `Wire`: one job per client; a snapshot goes out when its socket joins. `Delivery` covers sends in any order, `Wire` says which orders give the client its wire.
- API restarts: sequence numbers and logs live in memory; `fail_stale_jobs` and `cleanup_expired`, which run at start, are not modelled, except that `NestedRetries` lets a directory be removed at any time.
- RQ itself: a worker task is a token for a job; scheduling, argument passing and the parameters a retry forwards are not modelled.
- `Lifecycle`: one API call, one start and one end of a worker task are single steps; "cancelled is final" and the limit of jobs per user do not hold across a running worker or a manual retry and are not claimed. The retry limit is not negative.
- `NestedRetries`: a directory is not removed while a reconstruction in it is under way.
- `JobUpdates`: the columns with file paths and parameters.
- The `job_meta` key and its expiry; the Redis sorted set is a sorted list of entries.
- Which error messages are retryable: an arbitrary predicate in `ColmapRetry`, `Checkpoint` and `Lifecycle`.
- The external tools, statistics parsing and file formats: each tool is an arbitrary outcome.
- Progress notifications, `*.tmp` and `*.log` cleanup, the written metadata file, and a kill after the last tool.
- The inner limit of `Checkpoint` is not negative; `ColmapRetry` covers negative limits.
- `RateKeys`: addresses and paths are arbitrary strings; reading the address from headers (src/api/rate_limit.py:62-66) is not modelled. A configured rule that is the default rule object itself.
- Switching between Redis and memory during a lockout, rounding of Redis times to live, and logins of one user that overlap.
- JWT coding, bcrypt, access tokens and their retry; `revoke_all_for_user`, which nothing calls.
- `ClientRefresh`: browser tabs that share one local storage, and a tab whose address changes. The browser asks for `/api/auth/...` (src/viewer/src/auth.ts:1) while the router serves `/auth/...` (src/api/auth.py:25) and neither proxy configuration rewrites the path; the model takes the mapping as given.
- Process pool size, the Laplacian score itself, and ffmpeg, whose listing of frames is a parameter.
- Pagination, storage sums, VRAM presets, URL checks, file serving, React components and configuration.
