# Delivery pipeline of noapp, modelled and proved in Dafny

noapp keeps project boards. Creating a task or moving it to another column writes the task row and an outbox row in
one PostgreSQL transaction; relay workers lease outbox rows and publish them to Kafka; a realtime process consumes
the log and broadcasts each event to subscribed WebSocket clients; the browser merges events into a version-guarded
map and redraws only the columns that changed. Everything in between may crash, repeat, reorder or get lost. This
project models that pipeline as a protocol, step by step, and proves what survives. The main results are safety
statements about every state of every run: a loaded page shows the database row of a task if and only if the row's
version was in its snapshot, came back from its own write, or was received since the install; and for a live page that
has received everything queued for it, this is said in terms of what was broadcast, once for pages that subscribed
before their snapshot was read and once for pages that did not. Nothing is said about how soon an event arrives, except
that no reachable state rules it out: every run can be continued so that every open outbox row is published. A second,
smaller part models the simulator engine's run lifecycle.

## Structure

| file | content |
|---|---|
| `Base.dfy` | `Option`, `Result`, a few facts about sequences |
| `Events.dfy` | tasks, envelopes, the codec, `Decode` |
| `Merge.dfy` | `applyTask` as an operation on the task map; sequences of it compute a join |
| `BoardView.dfy` | the insertion-ordered map, rendered columns, task counts; class `Board` |
| `Writers.dfy` | the two write transactions with row locks and sequence allocation; class `TaskStore` |
| `Outbox.dfy` | rows, claim scan, conditional updates, retry delay; classes `OutboxTable`, `Relay` |
| `RelayProtocol.dfy` | any number of workers, crashes, lost replies, clock skew; the row and worker invariant |
| `RelayRefinement.dfy` | a batch of class `Relay` is a run of that protocol |
| `Kafka.dfy`, `Consumer.dfy` | append-only logs; poll, process, commit, crash; class `Loop` |
| `Hub.dfy` | subscriptions, bounded queues, cancellation; classes `Client`, `Hub` |
| `Pipeline.dfy` | all of the above plus sockets and browsers as one state machine |
| `PipelineProof.dfy` | the pipeline invariant holds in every reachable state |
| `Theorems.dfy` | each stage's guarantee over whole runs |
| `Recovery.dfy` | from any reachable state a continuation that publishes every open row |
| `PageSteps.dfy` | what each step of a page, a socket and the processes behind them does, field by field |
| `Sources.dfy` | where the tasks a page has applied came from, in every reachable state |
| `Convergence.dfy` | when exactly a page shows what the database holds |
| `Screens.dfy` | from the page's map to the drawn columns; pages that saw the same things |
| `DrawnOrder.dfy` | when the tasks alone determine how a column is drawn |
| `LostUpdate.dfy` | runs on which the page misses an event in two ways, and one on which it converges |
| `Simulator.dfy` | the simulator engine as interleaved mutex sections; class `Engine` |

Each stage has pure step functions. The classes carry the source's loops and field updates and are proved against
those functions. `Hub`, `Client` and `Loop` are proved against the very functions their protocol steps with, and so is
`Engine` but for its hiring loop. `TaskStore` holds no fields of its own, its state being the database: it issues the
protocol's transaction steps in the order of the handlers. Where a class is specified by functions of its own, lemmas
connect these with the protocol: a batch of `Relay` is a run of the relay protocol
(`RelayRefinement.RunBatchIsAProtocolRun`), the hiring loop is a run of the engine (`Simulator.HiringIsARun`), and what
`Board` has after an install and further events is the page of the pipeline with its columns drawn
(`Screens.ViewIsPage`). States also carry history the program does not store (every committed revision, every Broadcast
call, where a message was first appended); it is only ever written, never read by a step's decision.

Times are integers in nanoseconds. `Params.skew` bounds how far a worker's clock may be from the database clock; with
0 the back-off bound is the one of a single clock.

## Where the code and its description differ

The repository's README says versions make delivery idempotent. That is true of `applyTask` in any order and with any
repetition (`Merge.OrderAndRepetitionDoNotMatter`), but a finished `loadBoard` replaces the whole map, so an event
applied while the request was in flight can be undone: `LostUpdate.InstallCanLoseAnEvent` gives a run of the whole
pipeline on which that happens, `Merge.InstallLosesNothingIff` says on the snapshot and the events when nothing is lost,
`Merge.InstallGuard` is the check a page could make before it installs, and `Convergence.ConvergesIff` says exactly
when a page that subscribed in time shows the row.

It also says that the reload after a reconnect closes any delivery gap. The page sends its subscription and starts the
request without waiting for the server to confirm (internal/app/web/app.js:339-343), so the snapshot may be read first:
`LostUpdate.ReloadCanLeaveAGap` gives a run on which an event broadcast in between reaches the page in no way, with
nothing overwritten and everything received. `Convergence.FirstSubscriptionIff` says exactly which versions such a page
shows.

Tasks created in the same millisecond are drawn in the order in which the page learned of them. The tasks determine a
column if and only if it has no such tie (`DrawnOrder.ColumnDeterminedIff`). The displayed task count can drift: after a
selection, an event of a task that the count already includes adds one (`BoardView.SelectionDrift`);
`BoardView.CountRightIff` and `Screens.CountConverges` say exactly when the count is right.

The whole-second truncation of the lease in the claim statement is modelled as written (`Outbox.LeaseLength`).

## Model

| member | source | states |
|---|---|---|
| Merge.ApplyAllIsJoin | internal/app/web/app.js:104-113 | any sequence of applyTask calls computes the per-id highest-version join of the starting map and the events of the selected project |
| Merge.JoinUnique | internal/app/web/app.js:104-113 | when id and version determine content there is only one such join, so the reference pins the map down |
| Merge.OrderAndRepetitionDoNotMatter | internal/app/web/app.js:104-113 | two event sequences with the same set of events leave the same map |
| Merge.ApplyAllMonotone | internal/app/web/app.js:107 | no sequence of applyTask calls lowers the version held for a task |
| Merge.TakenIff | internal/app/web/app.js:104-108 | a task of the project is taken exactly when nothing at its version or above is held, and only its entry changes |
| Merge.InstallLosesNothingIff | internal/app/web/app.js:63-67 | replacing the map by a snapshot loses no event applied before it exactly when, for each of them, the snapshot or a later event has its task at its version or above |
| Merge.InstallGuard | internal/app/web/app.js:65-66 | comparing the events held with the snapshot before the install decides exactly whether the install loses one |
| Events.DecodeAccepts | internal/events/events.go:87-96 | decoding undoes encoding and accepts exactly the current schema with an id, a project and a task |
| Events.NewTaskEventAgrees | internal/events/events.go:51-67 | the header of a new event carries the given type, actor and time and agrees with its task |
| LostUpdate.InstallCanLoseAnEvent | internal/app/web/app.js:63-67 | a run from a seeded database to a live, subscribed page that has received a published and consumed event and shows the version before it |
| LostUpdate.InstallFirstConverges | internal/app/web/app.js:335-350 | the same run with the install before the event: all hypotheses of convergence hold together and the page shows the row |
| LostUpdate.ReloadCanLeaveAGap | internal/app/web/app.js:339-343 | a run on which the snapshot is read, the event is broadcast and only then the subscription is served: the live page has received all that was queued for it, no event among it, and shows the version before |
| BoardView.SortIsStable | internal/app/web/app.js:79-81 | a column is the stable sort by creation of the matching tasks in map order |
| BoardView.ColumnOrder | internal/app/web/app.js:76-81 | a task created at least a millisecond before another stands above it, and tasks of one millisecond stand in the order in which they came into the map |
| BoardView.PutKeepsPlaces | internal/app/web/app.js:108 | setting a task keeps the place of every key in the map, and a new key goes to the end |
| BoardView.StatusesHaveColumns | internal/app/web/app.js:70-74 | the statuses the server accepts are exactly those with a column |
| BoardView.StableSortUnique | internal/app/web/app.js:79-81 | two stable sorts of the same tasks are equal, so the drawn order does not depend on the sort algorithm |
| BoardView.ColumnUntouched | internal/app/web/app.js:108-110 | setting a task leaves every column alone whose status is neither its old nor its new one, for replaced and for appended tasks |
| BoardView.ApplyTaskCurrent | internal/app/web/app.js:104-113 | one applyTask call keeps every drawn column equal to a full recomputation and changes the map as the version guard says |
| BoardView.IncrementalEqualsFull | internal/app/web/app.js:70-113 | after any sequence of applyTask calls the board equals its own full renderBoard |
| BoardView.InstallCurrent | internal/app/web/app.js:57-68 | after an install, or a clear without a selection, every drawn column is a full recomputation |
| BoardView.CountConservation | internal/app/web/app.js:106-120 | the displayed count of the selected project grows by exactly the number of ids that entered the map |
| BoardView.CountRightIff | internal/app/web/app.js:57-120 | after an install and further events the displayed count is the number of tasks on the board if and only if the earlier count, with the ids that entered before the install, was the number listed |
| BoardView.SelectionDrift | internal/app/web/app.js:106-138 | an event of an already counted task between selection and install leaves the count one too high |
| BoardView.CountAfterAdd | internal/app/web/app.js:115-120 | the first listed project with the id gets the delta, not below zero; an unlisted one gets nothing |
| BoardView.Board.Apply | internal/app/web/app.js:104-113 | applyTask on the page's state equals the view step, reports applied and created correctly, and keeps all columns current |
| BoardView.Board.Render | internal/app/web/app.js:76-86 | renderColumn redraws exactly one column to its full recomputation, whose order `BoardView.ColumnOrder` states, or nothing without a column |
| BoardView.Board.RenderAll | internal/app/web/app.js:70-74 | renderBoard draws the three columns from the map |
| BoardView.Board.UpdateProjectTaskCount | internal/app/web/app.js:115-120 | only the first project with the id changes, by the delta, not below zero |
| BoardView.Board.FinishLoad | internal/app/web/app.js:65-67 | a reply for a project no longer selected changes nothing; otherwise the listing replaces map and columns |
| BoardView.Board.StartLoad | internal/app/web/app.js:57-63 | without a selection the map is emptied and no column is left; otherwise nothing changes and the selected project is requested |
| BoardView.Board.Select | internal/app/web/app.js:132-138 | subscribes on an open socket and starts the load; map and columns stay until the install, but only tasks of the new project are accepted |
| Writers.StepInv | internal/app/server.go:339-428 | every step of either transaction, interleaved with any other transactions, keeps tables, history and open transactions consistent |
| Writers.Agreement | internal/app/server.go:395-428 | a task has exactly one outbox row per version above its base and none else, sequence order is version order, and the newest row carries the task row |
| Writers.StepGrows | internal/app/server.go:346-370 | committed revisions and events are never changed or removed |
| Writers.LockedRowIsNext | internal/app/server.go:402-410 | the row an open transaction holds locked is exactly one version past the committed one |
| Writers.StepContent | internal/app/server.go:339-410 | no step changes a task's project, assignee, name, title, description or creation time, the name is the assigned user's, and events tell creation from change of status |
| Writers.RollbackForgets | internal/app/server.go:343 | a rollback frees the locks and leaves tables and numbers as they are |
| Writers.TaskStore.CreateTask | internal/app/server.go:315-377 | success exactly for valid input, existing references and no fault; then, and also when only the commit reply is lost, the new version 1 row, with the fields asked for and the assigned user's name, and its event are both committed, otherwise neither table changes |
| Writers.TaskStore.UpdateTaskStatus | internal/app/server.go:379-432 | after whatever other transactions did while the update waited for the row lock: success exactly for a valid status, an existing task and no fault; then, and also when only the commit reply is lost, status and version plus one over the row then committed are committed with the event, otherwise the request changes neither table |
| Writers.TaskStore.Finish | internal/events/events.go:69-85 | event and row are committed together or, on a failed insert or commit, not at all; a lost commit reply still commits both |
| Outbox.NewDefaults | internal/outbox/relay.go:69-87 | every configuration with a worker id is accepted, set values are kept, and unset ones become batches of 100, 30 s leases, delays up to 60 s and 20 attempts |
| Outbox.LeaseLengthShape | internal/outbox/relay.go:185-190 | the lease is whole seconds, less than one second short of the configured time |
| Outbox.NewRowIsEligible | internal/events/events.go:69-85 | a new outbox row waits for its first attempt from the start of its transaction on |
| Outbox.RetryDelayShape | internal/outbox/relay.go:307-317 | one second first, doubling per attempt up to the cap, never above the maximum, never shrinking |
| Outbox.BatchUnique | internal/outbox/relay.go:171-182 | the claim statement's row selection is determined by the table, the time and the locked rows |
| Outbox.SelectedMeans | internal/outbox/relay.go:171-187 | only unpublished, live, due, unleased and unlocked rows are selected, at most the limit, with their payload and attempts; any such row left out comes after all of them, the batch being full |
| Outbox.OutboxTable.Scan | internal/outbox/relay.go:171-182 | the scan returns the smallest-sequence eligible unlocked rows up to the limit, each once, as they are in the table |
| Outbox.OutboxTable.Claim | internal/outbox/relay.go:165-211 | exactly the selected rows get the worker's lease until now plus its length, nobody can claim them before it has passed, and every other row and column is unchanged |
| Outbox.OutboxTable.Mark | internal/outbox/relay.go:254-264 | affects the row exactly while it is leased to the worker and unpublished; it is then published, leased to nobody and never claimable again, and no other row or column changes |
| Outbox.OutboxTable.Fail | internal/outbox/relay.go:283-292 | under the same guard one attempt is counted and the lease ends, so the row can be claimed exactly from the next attempt time on unless it is dead; no other row or column changes |
| Outbox.OutcomeOnce | internal/outbox/relay.go:254-292 | an outcome is recorded once: after either update a second one by any worker changes nothing |
| Outbox.OutboxTable.Pending | internal/outbox/relay.go:131-138 | the count of rows neither published nor dead |
| Outbox.PendingIsTheRest | internal/outbox/relay.go:131-138 | that count is total minus published minus dead |
| Outbox.Relay.PublishOne | internal/outbox/relay.go:213-305 | what is produced, what the row becomes and which error is returned, for every combination of decode, append, acknowledgement and database outcome; no error means produced and marked, an update without a row is a lost claim |
| Outbox.AttemptOutcome | internal/outbox/relay.go:213-292 | what one attempt does to each column of its row: nothing without the lease, published when acknowledged, else one more attempt, its delay, and death at the last |
| Outbox.Relay.PublishAll | internal/outbox/relay.go:149-160 | a batch applies publishOne to its items in order, going on after failures |
| Outbox.Relay.RunBatch | internal/outbox/relay.go:140-163 | claim, publish each claimed item, store the backlog; a failed claim changes nothing, a lost claim reply leaves the rows leased, a failed count keeps the old backlog |
| RelayRefinement.RunBatchIsAProtocolRun | internal/outbox/relay.go:140-305 | the table and log a batch leaves are those of a run of the relay protocol, whatever the outcome of each publish |
| RelayRefinement.ProducedIsLogged | internal/outbox/relay.go:242-247 | what the class says it produced is what the protocol appended: each message once, in its project's partition, in batch order |
| RelayRefinement.AfterInv | internal/outbox/relay.go:140-305 | such a run ends in the relay invariant |
| Outbox.PublishRowsAt | internal/outbox/relay.go:149-160 | in a batch each claimed row goes through its own attempt only |
| Outbox.PublishRowsElsewhere | internal/outbox/relay.go:149-160 | a batch leaves every other row as it was |
| Outbox.PublishedWasProduced | internal/outbox/relay.go:242-257 | a batch marks a row published only if it produced that row's payload |
| RelayProtocol.StepInv | internal/outbox/relay.go:140-305 | the row, worker and log invariant is kept by every step of any number of workers |
| RelayProtocol.RowStep | internal/outbox/relay.go:183-187 | a step changes a row only by an eligible claim or by the holder's own outcome |
| RelayProtocol.FailRow | internal/outbox/relay.go:279-292 | a recorded failure counts the true attempt, dies exactly at the last one, and extends the back-off bound |
| RelayProtocol.ClaimGrants | internal/outbox/relay.go:183-187 | a claim writes the worker's lease until the claim time plus the lease length, changes no other column, and hands over the batch if its reply arrives |
| RelayProtocol.LeaseFencing | internal/outbox/relay.go:175-187 | under an unexpired lease a row changes only by its holder's recorded outcome |
| RelayProtocol.StaleOutcomeIsIgnored | internal/outbox/relay.go:257-292 | an outcome from a worker that no longer holds the row leaves the table unchanged |
| RelayProtocol.SettledIsFinal | internal/outbox/relay.go:175-176 | published and dead rows never change again |
| RelayProtocol.DeathIsLate | internal/outbox/relay.go:280-292 | a dead row has used all attempts, no earlier than its first recorded failure plus the accumulated back-off |
| RelayProtocol.DefaultBackoff | internal/outbox/relay.go:82-87 | with the defaults New fills in and one clock that is 843 seconds |
| RelayProtocol.NoRowIsStuck | internal/outbox/relay.go:173-178 | after the longer of lease and largest back-off every pending row can be claimed again |
| RelayProtocol.OutcomesUseUpWork | internal/outbox/relay.go:254-292 | each recorded outcome strictly decreases the attempts left over all rows, and no other step but a new row's commit changes them |
| RelayProtocol.NoWorkIff | internal/outbox/relay.go:131-138 | no attempts are left exactly when every row is published or dead |
| Consumer.StepInv | cmd/realtime/main.go:85-102 | every record below the position is handled or still fetched, over polls, commits and crashes |
| Consumer.CommittedIsHandled | cmd/realtime/main.go:96-98 | every record below a committed offset was broadcast with its own event and payload, or rejected by Decode |
| Consumer.ReprocessingIsBounded | cmd/realtime/main.go:85-102 | processing touches only offsets at or above the committed one, which never goes back |
| Consumer.CrashRewinds | cmd/realtime/main.go:85-98 | a restart begins at the committed offsets, and a commit without effect leaves them |
| Consumer.Loop.ProcessRecord | cmd/realtime/main.go:104-128 | one record that decodes leads to exactly one Broadcast call with its event, payload and place, one that does not to none |
| Consumer.Loop.ConsumeOnce | cmd/realtime/main.go:86-101 | one round broadcasts the fetched records in order and then commits their highest offsets, if the commit takes effect |
| Hub.DeliverOk | internal/realtime/hub.go:182-195 | the offers of a Broadcast call keep, for every client, that what it was handed since it subscribed is what was broadcast for its project, except the last call for a client it found full |
| Hub.SubscribeOk | internal/realtime/hub.go:239-244 | subscribing keeps the agreement of what was handed with what was broadcast, for the new project and for the same one again |
| Hub.SubscribeReplaces | internal/realtime/hub.go:239-244 | the requested project becomes the one and only subscription, with an account of its own unless it was subscribed already, and nothing else changes |
| Hub.SubscriptionDecides | internal/realtime/hub.go:182-195 | after subscribing, a client with room is handed exactly the events of that project; after unsubscribing, none of it |
| Hub.OfferOrCancel | internal/realtime/hub.go:252-279 | any other message joins a queue with fewer than 64 or cancels the client, and writing takes one message |
| Hub.OmissionCancels | internal/realtime/hub.go:189-204 | a subscribed client gets the message, or its queue was full and the end of the same call cancels it |
| Hub.BroadcastWasHanded | internal/realtime/hub.go:182-195 | each call for the project since the subscription was put in the queue after it |
| Hub.Client.TrySend | internal/realtime/hub.go:189-194 | enqueued exactly when fewer than 64 messages wait |
| Hub.Client.SendJson | internal/realtime/hub.go:252-262 | enqueue, or cancel on a full queue |
| Hub.Client.WriteOne | internal/realtime/hub.go:267-279 | the oldest queued message leaves the queue |
| Hub.Hub.OfferAll | internal/realtime/hub.go:182-196 | each client after the first loop is served, untouched, or among the dropped, and the count is of those served |
| Hub.Hub.BroadcastAll | internal/realtime/hub.go:177-213 | every registered client ends as the single-client step says, and the delivery count is of the clients that were handed the message |
| Hub.Hub.SubscribeClient | internal/realtime/hub.go:239-244 | the project becomes the client's only subscription; queue and cancellation stay |
| Hub.Hub.UnsubscribeClient | internal/realtime/hub.go:246-250 | the project is removed from the subscriptions |
| Hub.Hub.RemoveClient | internal/realtime/hub.go:228-237 | the client is cancelled and gone from the hub |
| PipelineProof.StepInv | internal/app/web/app.js:335-350 | every step of writers, workers, consumer, hub, sockets and pages keeps the pipeline invariant |
| PipelineProof.RunInv | cmd/realtime/main.go:85-102 | the invariant holds at every point of every run |
| PipelineProof.CallIsCommitted | internal/outbox/relay.go:242-247 | every Broadcast call carries a committed event exactly as its transaction wrote it |
| PipelineProof.SnapshotOk | internal/app/server.go:282-313 | a task listing covers everything broadcast before it was read |
| PipelineProof.HandleOk | internal/app/web/app.js:335-350 | handling a message of the current socket applies only committed tasks |
| PageSteps.OwnWriteIsApplied | internal/app/web/app.js:91-113 | the response to the page's own write is taken into the map by the version guard and remembered as its own, and nothing else changes |
| PageSteps.OwnWriteShows | internal/app/web/app.js:91-113 | a loaded page that applies a response equal to the current row shows the row |
| PageSteps.EventIsApplied | internal/app/web/app.js:350 | an event received on the current socket is taken into the map by the version guard, loaded or not, and nothing else changes |
| PageSteps.ReadyLoads | internal/app/web/app.js:339-343 | on ready the page subscribes on an open socket and asks for the selected project |
| PageSteps.SelectLoads | internal/app/web/app.js:132-138 | selecting a project subscribes and asks for it, and what is shown stays |
| PageSteps.ServedRows | internal/app/server.go:287-291 | the response holds exactly the committed rows of the requested project |
| PageSteps.InstallStartsOver | internal/app/web/app.js:63-67 | the response replaces the map if its project is still selected, and is dropped otherwise |
| PageSteps.ConnectIsFresh | internal/app/web/app.js:328-331 | a connection attempt gets a new generation and a client outside the hub; board and requests stay |
| PageSteps.CommandIsServed | internal/realtime/hub.go:144-152 | commands are served in order; a valid subscription replaces the one before |
| PageSteps.ConnectionSteps | internal/realtime/hub.go:196-279 | what a control message, a write, a drop after a Broadcast call, a cancellation and a removal do to a client, and that they touch nothing else |
| PageSteps.PageStepsArePossible | internal/app/web/app.js:57-143 | a page can reload, select, connect, resubscribe and apply a response at any time, and every request can be answered, finish or fail |
| PageSteps.SocketStepsArePossible | internal/realtime/hub.go:107-157 | a socket can end at any time and goes on whenever it has something to do |
| PageSteps.BroadcastReaches | internal/realtime/hub.go:182-195 | one processed record is one Broadcast call, handed to a client with room exactly if it is subscribed to the project |
| PageSteps.CrashEndsClients | cmd/realtime/main.go:85-98 | a crash ends every client and rewinds to the committed offsets, and pages keep what they show |
| PageSteps.CommitPublishes | internal/app/server.go:363-370 | a commit makes the task row and an unleased outbox row without attempts visible together |
| Sources.StepSources | internal/app/web/app.js:335-350 | every step keeps that the tasks applied since the install are exactly the responses to the page's own writes and the tasks of the Broadcast calls received since, on any of its sockets |
| Convergence.ShowsIffArrived | internal/app/web/app.js:57-113 | in every reachable state a loaded page, connected or not, shows the row if and only if it was in the snapshot, came from its own write, or was carried by a call received since |
| Convergence.ConvergesIff | internal/app/web/app.js:57-113 | a live page that subscribed before its snapshot was read and has received what was queued for it shows the row if and only if it was in the snapshot, came from its own write, or was broadcast and not received before the install |
| Convergence.SubscribedShows | internal/app/web/app.js:339-343 | whenever it subscribed, such a page shows what was broadcast since its subscription and not received before the install |
| Convergence.FirstSubscriptionIff | internal/app/web/app.js:339-343 | without regard to the order of subscription and snapshot read, on a socket's first subscription that is also the only other way: the row is missed exactly when every call that carried it came before the subscription or was overwritten |
| Convergence.EveryRunShows | internal/app/web/app.js:57-113 | in every run a loaded page's whole map equals the project's part of the table if and only if each of its tasks has arrived |
| Convergence.EveryRunConverges | internal/realtime/hub.go:177-204 | the same over what was broadcast, for pages that subscribed in time and for pages on their first subscription |
| Convergence.Convergence | internal/app/web/app.js:57-113 | the promised direction: the newest event was broadcast and not received between snapshot read and install, unless the snapshot has it |
| Convergence.ConsumedIsBroadcast | cmd/realtime/main.go:85-102 | an event below the committed offset was broadcast, even if its row was never marked published |
| Convergence.ConsumedBoardConverges | internal/app/web/app.js:57-113 | in every run, once the newest events of the project are consumed and none was overwritten, the map is the project's part of the table |
| Convergence.ShowsNewestIff | internal/app/web/app.js:64-66 | a loaded page shows a task's row if and only if the snapshot had it or it was handed to applyTask since |
| Convergence.EntriesAreCommitted | internal/app/web/app.js:63-67 | every entry of a loaded map is a committed row of the selected project |
| Convergence.EntriesAreNamed | internal/app/server.go:287-291 | in every run every entry of a loaded map carries the name of its assigned user |
| Screens.FromListingIs | internal/app/web/app.js:66 | the map built from a listing of a task map is that map, whatever the order |
| Screens.ColumnHolds | internal/app/web/app.js:76-86 | a column is ordered by creation, oldest millisecond first and ties by insertion, and holds exactly the map's tasks of its status, each once |
| Screens.ViewIsPage | internal/app/web/app.js:57-113 | install and incremental redraws leave a fully drawn board over the page's map |
| Screens.ScreenConverges | internal/app/web/app.js:70-113 | in every run the drawn columns of a converged page are exactly the database rows of each status, oldest first |
| Screens.ScreensAgree | internal/app/web/app.js:79-81 | two such columns are equal if no two of the rows were created in the same millisecond |
| Screens.CountConverges | internal/app/web/app.js:115-120 | in every run a converged page displays the number of the project's tasks if and only if the count was the size of the snapshot at the install |
| DrawnOrder.ColumnDeterminedIff | internal/app/web/app.js:76-113 | over all listings in order of creation and all applyTask calls that lead to a table of tasks, a column is always drawn the same if and only if no two of its tasks were created in the same millisecond |
| Screens.SameEventsSamePage | internal/app/web/app.js:104-113 | in every run, pages with the same snapshot and the same set of events since hold the same map, in any order and with any repetition |
| Theorems.EveryRunAgrees | internal/app/server.go:339-373 | the table and outbox agreement in every run, with base 1 for the tasks the run started with and 0 for all others |
| Theorems.EveryRunKeepsContent | internal/app/server.go:339-410 | in every run every version of a task has the first version's content but for status, version and update time, and its user's name; the event says created for version 1 and moved for the others |
| Theorems.SettledForever | internal/outbox/relay.go:175-176 | in every run published and dead rows stay as they are |
| Theorems.ExclusiveLease | internal/outbox/relay.go:175-187 | in every run a leased row does not change until its lease expires or its holder records an outcome |
| Theorems.ClaimIsExclusive | internal/outbox/relay.go:171-187 | in every run a claimed row stays as the claim left it until the claim time plus the lease length has passed or the claimant records an outcome |
| Theorems.OutboxGuarantees | internal/outbox/relay.go:131-305 | in every run: dead exactly at the last attempt and not too early, published excludes dead, neither is leased, published rows are in the log, the backlog is the rest |
| Theorems.LogHoldsOnlyCommitted | internal/outbox/relay.go:242-247 | in every run the log holds only messages of committed rows, in their project's partition |
| Theorems.NothingIsRejected | internal/events/events.go:51-95 | in every run each committed payload decodes to its event, each claimed item decodes, and the consumer rejects nothing |
| Theorems.CommittedWasBroadcast | cmd/realtime/main.go:91-98 | in every run each record below a committed offset was broadcast with its payload |
| Theorems.NoSilentGap | internal/realtime/hub.go:107-204 | in every run an uncancelled client was handed exactly the Broadcast calls for its project since it subscribed, in order, with at most 64 waiting; only a client the last call found full may miss that one |
| Theorems.CancelledBeforeNextCall | internal/realtime/hub.go:196-204 | in every run a client found full is cancelled before the next Broadcast call |
| Theorems.UntouchedRowBecomesEligible | internal/outbox/relay.go:173-178 | in every run a pending row left alone long enough satisfies the claim predicate |
| Theorems.OutcomesAreBounded | internal/outbox/relay.go:279-292 | in every run, between commits, workers record at most as many outcomes as attempts are left |
| Recovery.EveryRunCanRecover | internal/outbox/relay.go:140-305 | every run with a worker, whatever crashed or is leased, can be continued by worker steps and time alone so that every open row is published |
| Theorems.OnlyTheNewestSocketCounts | internal/app/web/app.js:336 | a message on an older socket changes no page, and no message changes another page |
| Theorems.OtherStepsNeverRegress | internal/app/web/app.js:104-113 | every step other than an install or a clear keeps each entry at its version or later |
| Theorems.InstallIsForTheSelection | internal/app/web/app.js:63-67 | an install happens only for the selected project and then holds only its tasks |
| Simulator.StepInv | internal/simulator/engine.go:94-331 | every mutex section and every outside call keeps the engine's invariant |
| Simulator.OwnershipKept | internal/simulator/engine.go:296-331 | a team found eligible in one section may still get a project in the next |
| Simulator.RunSafety | internal/simulator/engine.go:94-418 | over any calls and failures: one run, running exactly outside the stopped phase, at most two projects per team and ten in all, each team's list is its part of the project list, totals are sums, recent is the newest thirty |
| Simulator.RecordedAccounts | internal/simulator/engine.go:406-418 | record keeps totals, error count, action counts and the recent list in agreement with what was recorded |
| Simulator.CreateEffect | internal/simulator/engine.go:317-331 | a project is added to the list and to its team exactly when the call succeeds, and the outcome is recorded either way |
| Simulator.ChoiceIsEligible | internal/simulator/engine.go:296-315 | a team is chosen only with workers, fewer than two projects and fewer than ten in all |
| Simulator.FinishEffect | internal/simulator/engine.go:184-193 | the end of the run leaves the engine stopped with everything else on display |
| Simulator.BootstrapCalls | internal/simulator/engine.go:225-266 | in every run, once the engine acts, exactly fifty users and at least five projects have been asked for, successfully or not |
| Simulator.FoundingIsARun | internal/simulator/engine.go:253-266 | one round of the second bootstrap loop is a run: the project goes to its team, and two attempts at a task follow exactly if it was created |
| Simulator.ActionEffect | internal/simulator/engine.go:268-283 | an action records its own success or failure, or nothing, and leaves teams and projects alone |
| Simulator.HiredRoundRobin | internal/simulator/engine.go:235-251 | user i joins team i mod 5, in order |
| Simulator.Engine.StartRun | internal/simulator/engine.go:99-117 | a second start changes nothing; a first one resets everything for the new session, which is initializing |
| Simulator.Engine.StopRun | internal/simulator/engine.go:120-128 | stop cancels the live run, if any, and the phase is stopping |
| Simulator.Engine.RecordOne | internal/simulator/engine.go:406-418 | record changes statistics and recent list as specified and nothing else |
| Simulator.Engine.HireAll | internal/simulator/engine.go:235-251 | the hiring loop deals the workforce to the teams and records every call, up to the first iteration that finds the run cancelled |
| Simulator.HiringIsARun | internal/simulator/engine.go:235-251 | the first n rounds of that loop are a run of the engine with the same teams and records |
| Simulator.StopEndsHiring | internal/simulator/engine.go:120-240 | a stop between two rounds leaves no further call possible and ends the run |

## Left out

- SQL, pgx, franz-go and WebSocket internals: tables, atomic commits, row locks, append-only logs and bounded queues stand for them.
- JSON, UUID and base64: the codec is a round-tripping pair and event ids are only required to be non-empty.
- Trace headers in the envelope, telemetry, logging, metrics, profiling and health endpoints.
- Authentication and token refresh: a client is registered when its first message was accepted; expiry is one cause of a cancellation.
- HTTP routing, request parsing and trimming, project and user creation, deletion and cascades: projects, users and assignee names are fixed.
- The `last_error` column, which nothing reads.
- A second realtime process in the same consumer group, Kafka retention and rebalancing: one process consumes all partitions.
- Two incarnations of a worker with the same host name: a crash ends the earlier one's database statements; its Kafka messages may still arrive late.
- Network loss on a socket other than by its end: messages of one connection arrive in order.
- Reconnect timers and back-off of the browser: a page may open a new socket at any time.
- Column markup, card rendering and the per-column count, which is the length of the column.
- Simulator users' names, text, speed and timers: action choices and API outcomes are arbitrary; the statuses of simulated tasks are not tracked.
- Outbox.Relay.RunBatch: no other worker acts between its statements, because interleavings are the subject of `RelayProtocol`.
- BoardView.Board.Render: the DOM is represented by the ordered task list of each column.
