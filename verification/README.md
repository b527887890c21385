# Verified model of the model runner client

This project models the parts of the model runner client that keep state, and proves what they
keep. It is written in Dafny 4.11; `dafny verify dfyconfig.toml` checks all of it.

## What is modelled

**The cluster membership protocol** (`ClusterSteps`, `ClusterObject`). `ModelCluster` keeps two
dictionaries, `models_run` and `pending_model_runs`, which asyncio tasks change concurrently. The model
is a transition system: every `await` is a point where another task may run, and what happens between
two awaits is one atomic step. Runner objects and tasks are entries of two growing sequences, so an
index is an object identity. `ClusterObject.ModelCluster` is the same code as an object that updates its
fields in place, one method per stretch between two awaits; every method is proved to be one step.
A few of these scheduling points are not real suspensions (an awaited coroutine starts at once), and
`Deliver` may happen at any moment, while the one listener of the code reads an event only when the
handler of the event before has ended. So the model allows all interleavings of the code and some more:
what is proved of every run holds of the code, and the runs that serve as counterexamples
(`ClusterOrphans`) are built from steps that the code can schedule (`CodeStep`).

A run is any sequence of labels; a label that is not enabled changes nothing. Three fields of a
runner (`stage`, `owner`, `removed`) are history: no step reads them.

- `ClusterInvariant`, `ClusterLifecycle`: what holds in every run, with no assumption at all.
- `ClusterEntry`: what one entry of an event creates and changes in any state, whatever else is running,
  and how an add starts.
- `ClusterSafety`, `ClusterRuns`: no orphan connection. The plain claim is false of the code. It is
  proved that a run has no orphan exactly when no publication overwrites an open entry, and that two
  assumptions imply this (H1: no add reads the current runner while another add of the same model is
  between reading it and registering its own; H2: the init of a runner does not succeed once a removal
  of it has completed).
- `ClusterOrphans`: each of the two is needed. Without H2: a reconnect is pending when STOPPED arrives for
  its runner, the removal ends, the model comes up elsewhere, and the late init evicts the new runner.
  Without H1: an event moves a model, and while it waits for the close of the old runner, a reconnect of
  that runner publishes a copy, which the event then overwrites.
- `ClusterConfluence`, `ClusterHandler`, `ClusterTable`, `ClusterRefinement`, `ClusterTermination`: with no
  background task, an event that builds at most one runner for each model is a fold over its entries,
  under every interleaving; its tasks always come to rest. H1 and H2 are not assumed there: they are
  proved to hold. An event starts at rest; when its handler returns, everything it started has ended.
  The handler raises exactly when the init of a runner built for the event raises. It then does not wait
  for the rest of its tasks, because `gather` passes the first exception on at once, and an init event
  skips its resync. In a session of events the tasks left behind may go on while later events are
  handled; these are assumed to name other models, and to be no init event while an add is left.
- `ClusterDeterminism`: the result of an event does not depend on the schedule if and only if no two of
  its entries build a runner for the same model. A RUNNING entry builds one when the table does not have
  its model with its deployment and address; repeated entries that remove, or that only update infos, do
  no harm. If two runners are built for a model, the add that is held back longest decides.
- `ClusterBackground`: what a failure task and a reconnect do from rest, in every run that comes to rest.
  A reconnect of a runner that is no longer the current one removes the current one; the code does not
  check for this.

**The runner** (`RunnerModel`): the counters, the cooldown, the retry loop of `init`, and `close`.

**The circuit breaker** (`Breaker`): one call to one model, and sequences of such calls. The
tasks it schedules (`Report`, `Reconnect`) are the labels `SpawnFailure` and `SpawnReconnect` of the
cluster.

**The outgoing queue** (`ReportQueue`): `send_message` and `_send_pending_messages`, as interleaved
steps and as an object. A report the cluster submits is a `Submit` of this queue.

**The INT codec** (`IntCodec`): signed little-endian integers of n bytes; the code uses n = 8.

Where the code and its documentation differ, the model follows the code. The class comment says that a
health check is made every 20% of the limit; the code makes one when the count before the call is a
positive multiple of the threshold, so an unhealthy answer, which leaves the count alone, is asked for
again at the next timeout. It also says that a model is marked as faulty when it exceeds its limit of
failures; an unexpected exception counts towards no limit.

## Model

| member | source | states |
|---|---|---|
| ClusterObject.ModelCluster.HandleEvent | model_runner_client/model_cluster.py:82-151 | the loop over an event builds all its coroutines in one atomic step, before any of them runs |
| ClusterObject.ModelCluster.UpdateModel | model_runner_client/model_cluster.py:92-149 | one entry removes, updates, reconnects or ignores the runner filed under its model id, running first and then pending |
| ClusterObject.ModelCluster.FindModelRunner | model_runner_client/model_cluster.py:102-106 | the runner an entry refers to; none if its deployment differs |
| ClusterObject.ModelCluster.RemoveUnnamedModels | model_runner_client/model_cluster.py:66-70 | after its batch an init event queues the removal of exactly the running models it does not name |
| ClusterObject.ModelCluster.GatherReturns | model_runner_client/model_cluster.py:151 | a gather passes on an exception of a gathered task, or ends when all have ended |
| ClusterObject.ModelCluster.AddModelRunner | model_runner_client/model_cluster.py:157-168 | an add waits for the removal of the current runner, or registers at once |
| ClusterObject.ModelCluster.InitReturned | model_runner_client/model_cluster.py:168-184 | clean-up of the pending entry and publication are one step; errors map to failure codes |
| ClusterObject.ModelCluster.ProcessFailure | model_runner_client/model_cluster.py:186-203 | nothing happens when reporting is off; otherwise one report with the model, code, reason and address |
| ClusterObject.ModelCluster.BeginClose | model_runner_client/model_runners/model_runner.py:246-255 | the flag is set before the channels are closed |
| ClusterObject.ModelCluster.CloseReturned | model_runner_client/model_cluster.py:205-229 | after the close, the identity-guarded deletions and whatever the caller does next |
| ClusterInvariant.StepKeeps | model_runner_client/model_cluster.py:82-232 | every step keeps: dictionaries file runners under their own model, each runner has one adding task, published means initialised, pending means inside init |
| ClusterEntry.PendingEntry | model_runner_client/model_cluster.py:92-149 | an entry for a model with a runner in its init: RUNNING at its address creates nothing, RUNNING elsewhere or with another deployment one runner with the settings of the entry and one add, STOPPED or RECOVERING with its deployment one removal of it, all else nothing |
| ClusterEntry.PublishedEntry | model_runner_client/model_cluster.py:92-149 | the same for a published runner, which RUNNING at its address gives the new infos and name |
| ClusterEntry.AbsentEntry | model_runner_client/model_cluster.py:92-149 | an entry for a model with no runner: RUNNING creates one runner and one add, all else nothing |
| ClusterEntry.EventIsEntries | model_runner_client/model_cluster.py:92-151 | an event is its entries in order: the runners and tasks of the first entry, and then those of the rest |
| ClusterEntry.AddBegins | model_runner_client/model_cluster.py:160-168 | an add waits for the removal of the published runner of its model, or else of the pending one; with neither it files its runner as pending and starts the init |
| ClusterLifecycle.PendingIsOwned | model_runner_client/model_cluster.py:165-172 | in every reachable state a pending entry is the runner of an add task that is inside its init |
| ClusterLifecycle.NoInitNoPending | model_runner_client/model_cluster.py:165-172 | pending is empty whenever no task is in init, also after failed and raising inits |
| ClusterLifecycle.OneWay | model_runner_client/model_cluster.py:137-229 | over any run a runner enters each dictionary at most once, is never in both, is never pending after it was published, and never comes back |
| ClusterLifecycle.LeavesRunExactlyWhen | model_runner_client/model_cluster.py:174-215 | a published runner leaves exactly when its own removal ends or another runner of its model is published; no other removal or clean-up evicts it |
| ClusterLifecycle.LeavesPendExactlyWhen | model_runner_client/model_cluster.py:165-215 | a pending runner leaves exactly when its own init or removal ends or an add that waited registers over it |
| ClusterLifecycle.OneVerdictPerAdd | model_runner_client/model_cluster.py:168-203 | an ended add raises only for a raised init nobody catches; a ready, raised or aborted init is reported nowhere; BAD_IMPLEMENTATION is reported once as such, a failed connection or authentication as CONNECTION_FAILED, FAILED as MULTIPLE_FAILED, and the runner is removed |
| ClusterLifecycle.OneReportPerFailure | model_runner_client/model_cluster.py:186-215 | in any run, a failure task that has ended has not raised, has submitted exactly one report with its code, reason, model and address and removed its runner, or none with reporting off |
| ClusterLifecycle.ReconnectNeverRaises | model_runner_client/model_cluster.py:217-231 | in any run, a reconnect does not raise, whatever the init of its new runner does |
| ClusterSafety.PublishedOnceIfReady | model_runner_client/model_cluster.py:168-175 | over any run a runner was published exactly once if its init succeeded, and never otherwise |
| ClusterSafety.StepOrphansExactlyWhen | model_runner_client/model_cluster.py:174-175 | one step makes a live runner unreachable exactly when it publishes over an entry that is still open |
| ClusterSafety.NoOrphanExactlyWhen | model_runner_client/model_cluster.py:153-231 | a whole run never has an orphan exactly when no publication in it overwrites an open entry |
| ClusterSafety.NoOrphanConnection | model_runner_client/model_cluster.py:153-231 | under H1 and H2, at every moment: disjoint dictionaries, every live runner is the published one, at most one live runner per model |
| ClusterSafety.RunExclusive | model_runner_client/model_cluster.py:153-215 | under H1 and H2 every state keeps the places exclusive, and no publication overwrites an open entry |
| ClusterSafety.RunUnremoved | model_runner_client/model_cluster.py:174-215 | under H1 and H2 no published runner was ever removed |
| ClusterRuns.RestIsExact | model_runner_client/model_cluster.py:205-215 | when a run under H1 and H2 has come to rest, `models_run` names exactly the live runners |
| ClusterOrphans.OrphanWithoutH1 | model_runner_client/model_cluster.py:160-166 | a run made of steps of the code that keeps H2 but not H1 and ends with an orphan |
| ClusterOrphans.OrphanWithoutH2 | model_runner_client/model_runners/model_runner.py:94-113 | a run made of steps of the code that keeps H1 but not H2 and ends with an orphan |
| ClusterConfluence.OrderlyDisciplined | model_runner_client/model_cluster.py:153-184 | while one batch with distinct ids is handled alone, every step satisfies H1 and H2 |
| ClusterConfluence.StepKeepsPromises | model_runner_client/model_cluster.py:151-215 | no step of a task changes the table the state is heading for, whatever the inits do |
| ClusterConfluence.RestKeepsPromise | model_runner_client/model_cluster.py:151-215 | at rest that table is `models_run`, and nothing is pending |
| ClusterConfluence.RunKeepsOpen | model_runner_client/model_cluster.py:205-215 | the runners of that table are neither closed nor opened on the way |
| ClusterHandler.HandlerReturnsAtRest | model_runner_client/model_cluster.py:57-151 | when the handler of an event has returned without an exception, every task has ended |
| ClusterHandler.HandlerRaisesExactlyWhen | model_runner_client/model_cluster.py:44-151 | the handler of an event, once it has ended, has raised if and only if the init of a runner built for the event raises |
| ClusterHandler.GatherEndsExactlyWhen | model_runner_client/model_cluster.py:151 | a gather ends exactly when a gathered task has raised, whatever the others do, or all have returned and no resync is due |
| ClusterHandler.ResyncRemovesUnnamed | model_runner_client/model_cluster.py:64-70 | a resync starts only when all gathered tasks have returned, with one removal for each published model the event does not name |
| ClusterRefinement.EventRefinesFold | model_runner_client/model_cluster.py:57-184 | from rest, any interleaving of an event that builds at most one runner for each model ends, when its handler has returned, in the plain fold over its entries; a published runner is live unless it was closed before the event |
| ClusterRefinement.UnnamedLeaveExactlyWhen | model_runner_client/model_cluster.py:57-70 | the models an init event does not name all leave if no init of a runner built for it raises, and all stay if one does |
| ClusterRefinement.SessionRefinesTable | model_runner_client/model_cluster.py:57-184 | any sequence of such events, init events and raised inits included, leaves the fold of all of them, also if tasks of a raised handler go on during later events on other models |
| ClusterRefinement.TableFromStart | model_runner_client/model_cluster.py:20-184 | from the empty cluster on, the events alone determine `models_run` |
| ClusterRefinement.BatchIsSequential | model_runner_client/model_cluster.py:82-215 | a batch ends with the same runners and settings as its entries handled one at a time in order |
| ClusterRefinement.ResyncConverges | model_runner_client/model_cluster.py:57-71 | whatever ran before, an init event of distinct RUNNING entries leaves exactly its own table if and only if every init it took succeeded; replayed, it then changes nothing and builds no runner; a listed runner is live unless it was kept for its deployment and address and closed before |
| ClusterTermination.StepDecreases | model_runner_client/model_cluster.py:151-231 | every step of a task lowers a measure, so no interleaving goes on for ever |
| ClusterTermination.NoDeadlock | model_runner_client/model_cluster.py:57-151 | while some task has not ended, some task can go on |
| ClusterTermination.EventComesToRest | model_runner_client/model_cluster.py:57-151 | every event can be scheduled to rest, whatever its entries and its inits are |
| ClusterTermination.SessionExists | model_runner_client/model_cluster.py:57-151 | from rest, any events can be handled one after the other |
| ClusterTermination.RaisedInitKeepsUnnamed | model_runner_client/model_cluster.py:64-70 | two events after which `models_run` holds a model that the last init event did not name |
| ClusterDeterminism.DeterminedExactlyWhen | model_runner_client/model_cluster.py:92-175 | all schedules of an event end with the same `models_run`, whatever its inits do, if and only if no two of its entries build a runner for the same model |
| ClusterDeterminism.AnyBuiltCanDecide | model_runner_client/model_cluster.py:137-175 | for any event, each runner it builds is the one left by some schedule, or leaves its model with none if its init fails |
| ClusterDeterminism.ListedTwice | model_runner_client/model_cluster.py:92-175 | a witness: one model listed twice in the first event, and either runner can be left |
| ClusterDeterminism.MoveAndStop | model_runner_client/model_cluster.py:108-146 | an event that moves a model and then stops it keeps the runner of the move, under every schedule |
| ClusterBackground.LoneRunEnds | model_runner_client/model_cluster.py:186-232 | every run of one task alone that comes to rest ends in the same state |
| ClusterBackground.FailureRun | model_runner_client/model_cluster.py:186-215 | in every run to rest a failure task submits exactly one report, closes the runner and takes it alone out of the dictionaries; with reporting off it changes nothing |
| ClusterBackground.RecreateCopies | model_runner_client/model_cluster.py:217-229 | in any state, the step of a reconnect that ends the removal builds one open runner with the deployment, model, name, address and infos of the old one, and takes the old one alone out of the dictionaries |
| ClusterBackground.ReconnectReplaces | model_runner_client/model_cluster.py:153-232 | in every run to rest a reconnect leaves the model with a fresh runner that has the old settings, or with none and one report of its failure, also when the old runner was not the current one; no other runner is touched |
| RunnerModel.ModelRunner.ShouldSkipForTimeoutReason | model_runner_client/model_runners/model_runner.py:157-183 | the cooldown steps down, gives one chance at 0, and starts again at half the timeouts, rounded up |
| RunnerModel.ModelRunner.Init | model_runner_client/model_runners/model_runner.py:93-143 | the retry loop, with its verdict, number of attempts, total sleep and closed flag |
| RunnerModel.VerdictExactlyWhen | model_runner_client/model_runners/model_runner.py:94-143 | for each verdict of init, the exact condition on the attempts: exhaustion, abort, failed authentication, misuse, or what setup returned |
| RunnerModel.EndsAtLastAttempt | model_runner_client/model_runners/model_runner.py:94-143 | the last attempt fixes the verdict, the number of attempts, the total sleep and the closed flag |
| RunnerModel.AttemptsBounded | model_runner_client/model_runners/model_runner.py:94-143 | at most n attempts; a definite verdict or exception exactly when n is at least 1 |
| RunnerModel.TotalBackoff | model_runner_client/model_runners/model_runner.py:137-140 | a run using all n attempts sleeps S in total with (b-1)*S = b^n - b |
| RunnerModel.CloseStopsRetries | model_runner_client/model_runners/model_runner.py:95-97 | a close during attempt k or its backoff allows no further attempt |
| RunnerModel.ReadyExactlyWhen | model_runner_client/model_runners/model_runner.py:94-135 | init succeeds exactly when the runner starts open and some attempt sets up after transient attempts only; a close during that attempt does not matter, which is why H2 is an assumption |
| Breaker.ConcurrentRunner.ExecuteModelMethod | model_runner_client/model_concurrent_runners/model_concurrent_runner.py:158-248 | one call: skip or send, counters, health check, scheduled tasks and status |
| Breaker.ConcurrentRunner.HandleTimeout | model_runner_client/model_concurrent_runners/model_concurrent_runner.py:213-239 | a timeout or a skipped call is penalised or, if a due check is not SERVING, reconnected |
| Breaker.SlowCall | model_runner_client/model_concurrent_runners/model_concurrent_runner.py:213-239 | after any calls, a timed-out or skipped call schedules a reconnect exactly when its check is due and not SERVING, and then keeps the count; otherwise it counts one; MULTIPLE_TIMEOUT is reported exactly when the count then exceeds the limit |
| Breaker.AnsweredCall | model_runner_client/model_concurrent_runners/model_concurrent_runner.py:175-248 | after any calls, what an answered call counts and reports, for each outcome, with code and reason |
| Breaker.CooldownInvariant | model_runner_client/model_runners/model_runner.py:157-183 | in every reachable state the cooldown is at least -1 and 2*(cooldown+1) <= timeouts+1 while both count |
| Breaker.SkipsExactly | model_runner_client/model_runners/model_runner.py:157-183 | the number of skips before the next real call is fixed by the counters, whatever the calls do |
| Breaker.NoStarvation | model_runner_client/model_runners/model_runner.py:157-183 | with t timeouts counted, at most ceil(t/2) calls are skipped before a real one |
| Breaker.SuccessClears | model_runner_client/model_concurrent_runners/model_concurrent_runner.py:182-186 | a success clears all counters, and no call is skipped until a new timeout |
| Breaker.ExponentialBackoff | model_runner_client/model_runners/model_runner.py:157-183 | over n timeouts the P calls sent satisfy 3^P <= (n+2)*2^(P-1), and the count at the k-th one (q_k+3)*2^k <= 4*3^k |
| Breaker.HealthCheckCount | model_runner_client/model_concurrent_runners/model_concurrent_runner.py:101-237 | for every limit m, MULTIPLE_TIMEOUT comes first at timeout m+1, after floor(m / max(1, floor(m/5))) checks, between min(m,5) and 9 |
| Breaker.BoundedDetection | model_runner_client/model_concurrent_runners/model_concurrent_runner.py:175-248 | F+T+1 calls without a success, not counting calls that ended in an unexpected exception, have scheduled a report or a reconnect |
| Breaker.DetectionExactlyWhen | model_runner_client/model_concurrent_runners/model_concurrent_runner.py:175-248 | n such calls are always enough if and only if both limits are on and n is at least F+T+1 |
| Breaker.DetectionIsTight | model_runner_client/model_concurrent_runners/model_concurrent_runner.py:191-237 | up to F failures and then up to T timeouts schedule nothing, and any number if the limit is off |
| Breaker.BreaksGoUndetected | model_runner_client/model_concurrent_runners/model_concurrent_runner.py:245-248 | any number of unexpected exceptions schedules nothing and counts nothing |
| ReportQueue.WebsocketClient.SendMessage | model_runner_client/websocket_client.py:129-143 | a message is sent at once if possible and queued at the tail otherwise |
| ReportQueue.WebsocketClient.SendPendingMessages | model_runner_client/websocket_client.py:145-156 | the flush loop: it sends from the head until a send fails, moves that message to the tail and raises |
| ReportQueue.SendIsRun | model_runner_client/websocket_client.py:129-143 | a direct send is the run of its interleaved steps: delivered if connected and it succeeds, else at the tail of the queue |
| ReportQueue.QueueKeepsOrder | model_runner_client/websocket_client.py:129-156 | over any interleaving without failing sends, messages submitted while disconnected are delivered in the order of their submission |
| ReportQueue.FlushIsRun | model_runner_client/websocket_client.py:145-156 | that loop is the run of the interleaved steps when nothing else happens |
| ReportQueue.ReportsConserved | model_runner_client/websocket_client.py:129-156 | over any interleaving nothing is lost or duplicated: sent, queued and in-flight messages add up to the submitted ones |
| ReportQueue.FailingDoNotBlock | model_runner_client/websocket_client.py:145-156 | with k always-failing messages, k+1 flushes deliver all others in order and leave exactly the failing ones |
| ReportQueue.OneFewerExactlyWhen | model_runner_client/websocket_client.py:145-156 | k flushes are enough exactly when no other message stands behind the last failing one |
| IntCodec.DecodeEncode | model_runner_client/utils/datatype_transformer.py:14-42 | encoding succeeds exactly in range, gives n bytes, and decodes to the value |
| IntCodec.EncodeDecode | model_runner_client/utils/datatype_transformer.py:14-42 | every n-byte string decodes into range and encodes back to itself |
| IntCodec.ByteAt | model_runner_client/utils/datatype_transformer.py:14-15 | byte i of an encoding is digit i of the value in base 256 from the low end, in two's complement |
| IntCodec.EightBytes | model_runner_client/utils/datatype_transformer.py:14-15 | the eight bytes of the code hold exactly the signed 64-bit values |

## Left out

- Runner objects of the cluster are records in a sequence of the cluster object, named by index; aliasing of heap objects is modelled by the index only.
- Breaker.ExponentialBackoff: is about sequential calls; with overlapping calls a success resets the timeouts but not a cooldown that another call started.
- ClusterRefinement.EventRefinesFold: leaves out events that build two runners for one model, because for them the schedule decides, as DeterminedExactlyWhen shows.
- ClusterRefinement.SessionRefinesTable: after a handler that raised, assumes that later events name no model on which a task it left behind still works, and that an init event comes when no add is left.
- ClusterRefinement.TableFromStart: the same assumption.
- Cancellation of tasks, and exceptions other than those the code handles in sending a message or closing a channel.
- A model update with missing keys; ids, addresses and deployments are plain values here, and the `infos` mapping has string values.
- `int(limit * 0.2)` and `math.ceil(t / 2)` are exact integer arithmetic here; the floating-point results agree for all limits below 2^50.
- gRPC channels, the health stub, the TLS probe, real time, logging and the websockets library: they are outcomes chosen by the environment.
- `connect`, `listen` and `init` of the websocket client, apart from the connection going up and down.
- The gathering of one call over all models, which is one independent call for each model.
- The security package, the STRING, DOUBLE, JSON and PARQUET encodings, the generated code, and the dynamic subclass runner, whose status codes are the error kinds of the model.
