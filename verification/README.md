# blueapi: the task protocol and the logic that relies on it

blueapi is a service that drives one bluesky RunEngine. Requests submit, begin and clear tasks from
the threads of a web server; one worker thread takes tasks out of a channel of capacity one, hands
them to the engine and publishes events; clients follow those events to learn what became of their
task. This project models that protocol, the event streams and the client logic built on it, and a
few smaller parts of the service with a rich behaviour of their own.

| file | what it models |
|---|---|
| `Basics.dfy`, `WorkerEvents.dfy` | Option and Result; the vocabulary of the worker's event stream |
| `TaskProtocol.dfy` | the worker as a state machine: every interleaving of callers, worker thread and engine is a run |
| `TaskSafety.dfy`, `EventGrammar.dfy` | the invariants every step keeps |
| `TaskHistory.dfy` | what the worker's fields and events owe to the steps of a run, read off the actions one by one |
| `TaskTheorems.dfy`, `Restart.dfy` | what holds of every run, which premises are needed, and what a restarted worker finds |
| `Worker.dfy` | the worker's objects and dicts, updated in place, shown to make runs of the state machine |
| `Completion.dfy` | how a client learns that its task is complete, over the message bus and over the websocket |
| `EventPublisher.dfy` | the publisher, with callbacks that subscribe, unsubscribe and raise while they are called |
| `TaskSubscriptions.dfy` | what a request to begin a task subscribes and takes back, interleaved with the worker and with other subscribers; piping events |
| `SubscriptionLifetimes.dfy` | the same over the runs of the worker: when a begin's subscriptions end |
| `BeginRequests.dfy`, `EventPipes.dfy` | the service's begin_task with its list of subscribers, and its event pipe, over the publisher's objects |
| `Reload.dfy`, `Dispatcher.dfy` | reloading the environment against a polling client; the dispatcher's state, updated in place |
| `ConfigMerge.dfy`, `ConfigLoader.dfy` | layered configuration: the law of merging, and the update of nested dicts in place |
| `NestedRuns.dfy` | file paths from the innermost open run |
| `TypeConversion.dfy` | plan annotations, with device types replaced by references |
| `DeviceLookup.dfy`, `DeviceReferences.dfy` | dotted device addresses on the server, attribute chains and their cache on the client |
| `ArgumentBinding.dfy` | binding a call's arguments to a plan's parameters |
| `Progress.dfy` | the live snapshot of statuses and the progress events |

## How the worker is modelled

An action of the state machine is one atomic step of one thread. `Execute` gives the state a run ends
in, so a lemma about all runs is a statement about all interleavings. The engine is an adversary: it
may report any state at any time, and a plan returns or raises when it likes. Three conditions recur,
and each is a property a reader can check of a run:

* `InTurn`: no thread is spawned while the one spawned before it has not even cleared the stopped flag.
  This is so if and only if there is never a second loop (`SingleLoopExactly`). It holds in particular
  if no call of `start` gave up that early (`PromptIsInTurn`); `TimedOutStartAllowsSecondLoop` is a run
  in which one did.
* `Unrepeated`: no begin handed over the task that the worker was still busy with. This is so if and
  only if no task is handed over twice (`ExecutedAgainExactly`). It holds in particular of every run that
  is `Guarded`, in which each begin passed the check that `main.py` makes in the same atomic step
  (`GuardedIsUnrepeated`); `UnguardedBeginExecutesTwice` is a run that is not.
* `Quiet`, of one task: the engine reported no state while that task was current and already complete.
  This is no premise of the results about events but one side of them: a task's events are as they
  should be if and only if it was left quiet.

`Worker.TaskWorker` has the fields of the class in the source. Its ghost field `run` records the atomic
steps made so far; `Valid` says that they are a run of the state machine and that the objects are in
the state it ends in. Every method is one step and keeps `Valid`, so results about runs hold of the
objects: `GetCommand` never makes a task current that was executed before, and `PublishedFollowsGrammar`
and `DictsAreApart` speak of the fields themselves.

## Where the code falls short of what one would expect

Each of these is proved, with an input that shows it and, where the code decides between cases, the
exact condition.

* A state change after a task is complete, as `resume` causes when it is called late, publishes the
  task's completion again (`LateStateChange`). The events of a task follow the grammar, and its clients
  get just what they are owed, exactly if there was none (`EventsFollowGrammar`, `EndToEndCompletion`).
* The check of the active task refuses more than it has to: a fresh task begun between the end of the
  plan and the moment its task is marked complete is turned away too (`GuardRefusesFreshTask`). What it
  refuses, and that this covers every repeat, is `GuardCoversRepeats`.
* A stop can return before the thread of a start that gave up has begun, and then that thread is still
  to come (`StopMissesSpawnedThread`); `StopLeavesFlagsClear` says exactly when a thread is left.
* A begin that times out takes its subscriptions back but leaves its task in the channel: the task is
  executed later without them (`RaisedYetExecuted`).
* The cycle of a kill signal ends in the `KeyError` of the pop at `task_worker.py:478` exactly if there
  has been a task (`KillCycleRaises`; `KilledAfterTask` and `KilledBeforeTask` are such runs): the
  finished task gets an error, the worker's errors are not cleared and no event is published. In general
  the pop raises exactly if a kill signal was taken or the task was cleared (`PopRaisesExactly`).
* A stop that gave up waiting can make a later one leave a kill signal in the channel, which stops the
  restarted worker at once (`SecondStopLeavesSignal`, `RestartStopsAtOnce`). This is so exactly if a
  signal was put when the worker was past taking one (`SignalLeftExactly`), and never if every call
  waits as long as it takes (`PatientStopLeavesNoSignal`).
* Two overlapping reloads can make a stop bring back the id of an environment that has already been
  replaced (`OverlappingReloadsBringBackOldId`). A stop keeps the id exactly if nothing has replaced the
  environment since it began, or the last to do so was a stop that had seen the same id
  (`StopKeepsIdExactly`; `OverlappingStopsKeepId` is a case of the latter).
* Merging configuration layers is associative exactly without a clash: some path is a dict, a non-dict
  and a dict in the three layers, and the third does not cover the first (`AssociativeExactly`).
* Type conversion does not enter the parameter list of a callable type: a device type is left outside
  every reference exactly when it stands in such a list (`OnlyParametersStayExposed`).
* The client's device cache sets an attribute named after the device's own name, whatever its address:
  after `m.x` is looked up, the client accepts `m-x`, which the server does not know
  (`OwnNameBecomesFirstName`). A chain stands for its joined address exactly when its first name is not
  such an attribute (`ChainAgrees`).
* The client lists devices by their own names. With distinct dot-free names its listing can be relied
  on exactly when every device is registered under its own name, and a single name exactly when its
  device is (`ListingSoundExactly`, `ListedChainExactly`;
  `RenamedDeviceIsNotFound` is a listing that cannot).
* A status callback's last two steps are not taken together: a notification between them puts a
  completed status back into the live snapshot (`OverlapHappens`, `OverlapExactly`); one that arrives
  after the cycle has ended does so for good (`LateNotificationHappens`, `LateStaysForGood`).
* A request that returned and whose task is never reported complete leaves its two subscriptions behind
  (`SubscriptionsConserved`): with a null id (`NullIdLeavesTwo`), or because the task was cleared while
  it ran (`ClearedWhileRunning`). Over the runs of the worker the condition is exact
  (`LivesUntilReported`).

## Model

| member | source | states |
|---|---|---|
| TaskTheorems.SingleLoop | src/blueapi/worker/task_worker.py:329-395 | in every interleaving in which threads are spawned in turn, at most one is inside the loop; started implies exactly one, and not stopped |
| TaskTheorems.SingleLoopExactly | src/blueapi/worker/task_worker.py:329-395 | over every run, there is at no moment a second thread in the loop if and only if no thread is spawned while the last one has not cleared the stopped flag |
| TaskTheorems.PromptIsInTurn | src/blueapi/worker/task_worker.py:357-361 | so it is if no start gave up before its thread had cleared that flag |
| TaskTheorems.TimedOutStartAllowsSecondLoop | src/blueapi/worker/task_worker.py:329-361 | a run with two loops: after a start that timed out a second start spawns a thread too |
| TaskTheorems.StopLeavesFlagsClear | src/blueapi/worker/task_worker.py:341-354 | a returned stop leaves started and stopping clear and stopped set; it leaves no thread, unless one spawned by a start that gave up has not begun |
| TaskTheorems.StopMissesSpawnedThread | src/blueapi/worker/task_worker.py:341-354 | a run in which a returned stop leaves such a thread |
| TaskTheorems.RestartPossible | src/blueapi/worker/task_worker.py:329-395 | from every state a stop returned in, a worker comes back to its channel, by a start or by the thread still to come, and nothing but the flags and its place has changed |
| Restart.SignalLeftExactly | src/blueapi/worker/task_worker.py:341-354 | a returned stop leaves a kill signal in the channel exactly if one was put when the worker was past taking it, and nothing was taken since |
| Restart.PatientHolds | src/blueapi/worker/task_worker.py:329-368 | if no call gives up waiting, what the caller is doing says where the worker is, over every run |
| Restart.PatientStopLeavesNoSignal | src/blueapi/worker/task_worker.py:341-368 | then no stop leaves a signal behind |
| Restart.RestartExecutes | src/blueapi/worker/task_worker.py:378-436 | without a signal left behind, the restarted worker executes the task in the channel, or the first that is begun |
| Restart.RestartStopsAtOnce | src/blueapi/worker/task_worker.py:462-466 | with one, it takes that and stops, executing nothing |
| Restart.SecondStopLeavesSignal | src/blueapi/worker/task_worker.py:341-368 | a run that leaves a signal behind |
| TaskSafety.LifecycleHolds | src/blueapi/worker/task_worker.py:378-395 | the three flags are determined by where the worker thread is, over every run |
| TaskSafety.ConservationHolds | src/blueapi/worker/task_worker.py:157-167 | every id is in exactly one place, or in none if it was never submitted, over every run |
| TaskTheorems.TasksConserved | src/blueapi/worker/task_worker.py:476-479 | submitted ids are the disjoint union of pending, completed, cleared and the one task between pop and insertion |
| TaskTheorems.ClearedNeverReappears | src/blueapi/worker/task_worker.py:157-167 | an id once cleared is in neither dict at any later point, even if cleared while running |
| TaskTheorems.ClearIsForGood | src/blueapi/worker/task_worker.py:165-167 | clearing a task that is in one of the dicts takes it out of both, then and at every later point of the run, and leaves every other task where it was |
| TaskTheorems.ClearedOnlyGrows | src/blueapi/worker/task_worker.py:157-167 | no step takes an id back out of the cleared ones; every prefix of a run is a run |
| TaskSafety.ExecutionHolds | src/blueapi/worker/task_worker.py:424-479 | what is known of each task's record: untouched before the engine has seen it, complete once the next one began |
| TaskTheorems.BeginAnswers | src/blueapi/worker/task_worker.py:258-302 | a begin hands its task over if and only if it is pending and not complete, the engine idle, the channel empty and the check passed; and each refusal, the first that applies |
| TaskTheorems.ExecutedAgainExactly | src/blueapi/worker/task_worker.py:258-302 | over every run, guarded or not: some task is handed to the engine twice, or waits in the channel for a second time, if and only if some begin handed over the task the worker was busy with |
| TaskTheorems.GuardedIsUnrepeated | src/blueapi/service/main.py:426-435 | the guard lets no such begin through |
| TaskTheorems.ExecutedAtMostOnce | src/blueapi/service/main.py:426-435 | with the guard, no run hands the same task to the engine twice, whatever begin timeouts, restarts and late begins it contains |
| TaskTheorems.GuardCoversRepeats | src/blueapi/service/main.py:426-430 | among begins the worker would accept, the guard refuses those that come while the current task is unfinished; a task already given to the engine is among them only as that current task, so every repeat is refused |
| TaskTheorems.GuardRefusesFreshTask | src/blueapi/service/main.py:426-430 | a run in which it refuses a task the engine has never seen |
| TaskTheorems.UnguardedBeginHandsOver | src/blueapi/worker/task_worker.py:297-326 | without the guard a begin arriving before the pop is accepted for a task that has just run |
| TaskTheorems.UnguardedBeginExecutesTwice | src/blueapi/worker/task_worker.py:424-479 | and the engine then executes that task a second time |
| TaskTheorems.OnlyTheActiveTaskRuns | src/blueapi/worker/task_worker.py:211-229 | what is listed as running is the active task; what is stored as completed is complete |
| TaskTheorems.KillCycleRaises | src/blueapi/worker/task_worker.py:462-483 | for every run that awaits with a kill signal in the channel, the cycle ends in the KeyError exactly if there has been a task; with none, exactly one event without a task is published |
| TaskTheorems.KillAfterTask | src/blueapi/worker/task_worker.py:462-483 | after a task: an error for that task and for the worker, nothing published, nothing cleared, every other task and both dicts unchanged |
| TaskTheorems.KillBeforeTask | src/blueapi/worker/task_worker.py:462-483 | before any task: one event without a task, and the errors are cleared |
| TaskTheorems.KilledAfterTask | src/blueapi/worker/task_worker.py:341-354 | a run of the first kind |
| TaskTheorems.KilledBeforeTask | src/blueapi/worker/task_worker.py:341-354 | a run of the second kind |
| TaskTheorems.PopRaisesExactly | src/blueapi/worker/task_worker.py:476-479 | whatever other threads do meanwhile, the pop raises exactly if the task was cleared or a kill signal was taken, and then nothing is published |
| TaskTheorems.ExecutingWorker | src/blueapi/worker/task_worker.py:424-436 | a fresh worker, started, given a task and begun, is executing it |
| TaskTheorems.CurrentLeftHolds | src/blueapi/worker/task_worker.py:476-479 | outside its own cycle, and in the cycle of a kill signal, the current task is never pending |
| TaskTheorems.CurrentThereHolds | src/blueapi/worker/task_worker.py:435-478 | in its own cycle it is pending unless it was cleared |
| TaskHistory.RecordHolds | src/blueapi/worker/task_worker.py:432-444 | over every run a task's record is what the steps made while it was current say: taken or not, marked complete or not, the texts of the exceptions reported, and what its plan returned or raised |
| TaskHistory.PlanEndsOnce | src/blueapi/worker/task_worker.py:435-443 | a plan comes to one value: none before its end, and never a second one |
| TaskHistory.ErrorsHold | src/blueapi/worker/task_worker.py:481-531 | the worker's errors are the texts of the exceptions reported since they were last cleared: the plan's, the pop's, and those of subscribers |
| TaskHistory.ClearedAfterCleanReport | src/blueapi/worker/task_worker.py:417-421 | errors are cleared only after a report whose subscribers raised nothing |
| TaskHistory.PlacesHold | src/blueapi/worker/task_worker.py:157-167 | a task is pending if it was submitted and since then neither cleared nor popped, and completed if it was stored and not cleared since |
| TaskHistory.EngineHolds | src/blueapi/worker/task_worker.py:524 | the engine's state is the one last reported, and idle before that |
| TaskHistory.CurrentHolds | src/blueapi/worker/task_worker.py:432 | the current task is the one taken last |
| TaskHistory.ChannelHolds | src/blueapi/worker/task_worker.py:318 | the engine gets exactly the tasks that begins handed over, in that order; only the last may still be waiting |
| TaskHistory.BegunWhenIdle | src/blueapi/worker/task_worker.py:298-299 | no step of any run puts a task into the channel unless it is a begin of a pending task while the engine is idle |
| TaskHistory.LogHolds | src/blueapi/worker/task_worker.py:533-565 | the whole event stream is what the steps say: one event for each state change, with the new state, and one for each report at the end of a cycle, each with the errors and the task's outcome, completion and failure of that moment |
| TaskTheorems.EventsFollowGrammar | src/blueapi/worker/task_worker.py:513-565 | over every run the worker events form a prelude without task and one block per executed task, in order, each about its own task; and for each task: its block has one completion event, last, exactly when its cycle has decided and it was not cleared while pending, if and only if the engine reported no state while the task was current and complete; that event carries what the plan returned or raised |
| TaskTheorems.EndsWithOutcome | src/blueapi/worker/task_worker.py:435-443 | a block that follows the grammar ends in what the run's one end of that plan came to |
| TaskTheorems.StateChangeIsPublished | src/blueapi/worker/task_worker.py:524-525 | a state change adds exactly one event, with the new state and the errors and the task status of that moment |
| EventGrammar.KnownHolds | src/blueapi/worker/task_worker.py:424-565 | the shape of the log and what is known of each state hold after every run, whatever the engine reports |
| EventGrammar.GrammarHolds | src/blueapi/worker/task_worker.py:424-565 | a block is as it should be as long as its task is left quiet, and broken for good from the first disturbance on |
| TaskTheorems.LateStateChange | src/blueapi/worker/task_worker.py:408-414 | a run in which a late state change publishes a completion twice |
| Worker.TaskWorker.SubmitTask | src/blueapi/worker/task_worker.py:266-289 | a new object under its own id is added to the pending dict: pending, not complete, without errors or outcome; nothing else changes |
| Worker.TaskWorker.ClearTask | src/blueapi/worker/task_worker.py:157-167 | takes the key out of the dict it is in, pending first, and leaves all others; then it is in neither; an unknown id is an error and changes nothing |
| Worker.TaskWorker.BeginTask | src/blueapi/worker/task_worker.py:250-326 | each answer if and only if it is the first check of the fields to apply: busy with an unfinished task, not pending, engine not idle, already complete, channel full; only otherwise is that very object put into the channel |
| Worker.TaskWorker.Start | src/blueapi/worker/task_worker.py:334-336 | refused exactly if the started flag is set |
| Worker.TaskWorker.SpawnIfStopped | src/blueapi/worker/task_worker.py:336-337 | a thread is spawned only once the stopped flag is set |
| Worker.TaskWorker.FinishStart | src/blueapi/worker/task_worker.py:338-361 | the timeout is an error exactly if the started flag is still not set |
| Worker.TaskWorker.Stop | src/blueapi/worker/task_worker.py:347-351 | there is a signal to put exactly if the worker has been started |
| Worker.TaskWorker.SignalIfEmpty | src/blueapi/worker/task_worker.py:348-349 | the signal is put only into an empty channel |
| Worker.TaskWorker.FinishStop | src/blueapi/worker/task_worker.py:352-368 | giving up is an error exactly if the stopped flag is still not set |
| Worker.TaskWorker.TestStopping | src/blueapi/worker/task_worker.py:390-391 | the loop goes on exactly if the stopping flag is not set |
| Worker.TaskWorker.Run | src/blueapi/worker/task_worker.py:388-394 | the flag operations before and after the loop, each one a step of a run |
| Worker.TaskWorker.GetCommand | src/blueapi/worker/task_worker.py:426-467 | the object taken becomes current and not pending, and was never executed before; a kill signal sets stopping and leaves current alone |
| Worker.TaskWorker.FinishPlan | src/blueapi/worker/task_worker.py:435-444 | the current object's outcome is what the plan came to; the text of an exception is added to its errors and to the worker's, and nothing is if there was none |
| Worker.TaskWorker.MarkComplete | src/blueapi/worker/task_worker.py:476-477 | the current task, if any, becomes complete, also in the cycle of a kill signal |
| Worker.TaskWorker.PopPending | src/blueapi/worker/task_worker.py:478 | takes the key out of pending, or adds the KeyError's text to the errors and abandons the cycle |
| Worker.TaskWorker.StoreCompleted | src/blueapi/worker/task_worker.py:479 | the very same object is stored under its own id, and nothing else changes in the dict |
| Worker.TaskWorker.ReportError | src/blueapi/worker/task_worker.py:527-531 | exactly this text more on the worker and on the current task, its outcome and completion unchanged |
| Worker.TaskWorker.ReportStatus | src/blueapi/worker/task_worker.py:533-565 | exactly one event more: the state, the current object's id, outcome, completion and failure, and the errors, as they are now |
| Worker.TaskWorker.ReportCompletion | src/blueapi/worker/task_worker.py:417-421 | the event is published even if a subscriber raises; then that text is added to the errors and they are not cleared |
| Worker.TaskWorker.ClearErrors | src/blueapi/worker/task_worker.py:481 | the worker's errors are forgotten, the tasks keep theirs |
| Worker.TaskWorker.OnStateChange | src/blueapi/worker/task_worker.py:513-525 | the state is stored before it is published: one event more, with the new state |
| Worker.TaskWorker.DictsAreApart | src/blueapi/worker/task_worker.py:96-97 | no id is a key of both dicts, each key is its object's id, and a stored object is complete |
| Worker.TaskWorker.PublishedFollowsGrammar | src/blueapi/worker/task_worker.py:533-565 | what the object has published follows the grammar, under the same exact condition |
| Completion.RunTask | src/blueapi/client/client.py:512-551 | the future holds the first completion of the task that carries its correlation id, whatever else is delivered, and is set twice exactly if there are several |
| Completion.CorrelatedOnBus | src/blueapi/worker/task_worker.py:540-565 | as the worker publishes its events, these are all completions of the task |
| Completion.RunPlan | src/blueapi/service/main.py:693-700 | the server forwards the task's own events up to and including the first completion |
| Completion.RunBlocking | src/blueapi/client/client.py:463-481 | the client returns the first completion it is sent, or fails when there is none |
| Completion.RunOverWebsocket | src/blueapi/client/client.py:463-481 | server filter and client together return the first completion of the task in the whole stream |
| Completion.CompletionsOfOwn | src/blueapi/service/main.py:693-697 | filtering by task id loses no completion of the task and lets no other through |
| Completion.OwnEventsExactly | src/blueapi/service/main.py:693-697 | what passes the filter are the task's worker, progress and data events, and none of them is lost |
| Completion.CompletesInOwnBlock | src/blueapi/worker/event.py:174-181 | over every run, an event about a task is in that task's block |
| Completion.TraceGrows | src/blueapi/worker/task_worker.py:480-480 | what is executed after a moment is published after it; nothing published is taken back |
| Completion.EndToEndCompletion | src/blueapi/client/client.py:548-551 | a stream followed since before the begin, mixed with any progress and data events, holds exactly what is owed - one completion with what the plan returned or raised, or none if the task is not done or was cleared - if and only if the task was left quiet |
| Completion.OwedIsExpected | src/blueapi/worker/task_worker.py:540-546 | what is owed by the run's steps is what the worker holds, and it always has an outcome |
| Completion.LogSince | src/blueapi/worker/task_worker.py:480-565 | the same of the worker's own log; and without quiet there is always a completion |
| Completion.BothClients | src/blueapi/client/client.py:463-551 | the future is set once, and to what is owed, if and only if the task was left quiet, what is owed being what the plan returned or raised; both clients always return the same status |
| Completion.FutureSetTwice | src/blueapi/client/client.py:534-546 | a run and a stream in which a client's future is set a second time |
| EventPublisher.Publisher.Subscribe | src/blueapi/core/event.py:61-64 | the new entry goes last under the next token |
| EventPublisher.Publisher.Unsubscribe | src/blueapi/core/event.py:66-67 | exactly that entry goes; an unknown token is an error and changes nothing |
| EventPublisher.Publisher.UnsubscribeAll | src/blueapi/core/event.py:69-70 | no entry stays, the counter goes on |
| EventPublisher.Publisher.Publish | src/blueapi/core/event.py:72-88 | whatever the callbacks do to the subscriptions, each entry present at the call is delivered to once, in order |
| EventPublisher.ErrorsAreTheOutcomes | src/blueapi/core/event.py:81-88 | publish raises one error for each callback that failed, in their order, and raises only then |
| EventPublisher.RaisesFirstFailure | src/blueapi/core/event.py:83-86 | a callback's calls are made up to the first that fails - one that raises, or an unsubscribe of a token not there then - and it raises what that one does, or nothing |
| EventPublisher.ErrorOfCallExactly | src/blueapi/core/event.py:83-86 | a callback raises if and only if it fires and comes to a failing call |
| EventPublisher.PublishRaisesExactly | src/blueapi/core/event.py:81-88 | publish raises if and only if one of the callbacks it calls does, as the scripts and the tokens before it say; and then exactly those errors in order |
| EventPublisher.TokensOfAct | src/blueapi/core/event.py:61-70 | what each call does to the set of subscribed tokens, and when it fails |
| EventPublisher.CallsKeep | src/blueapi/core/event.py:82-86 | a publish with any callbacks keeps entries in token order and gives no old token a new callback |
| EventPublisher.TokensNeverReused | src/blueapi/core/event.py:57-70 | over every sequence of operations and publishes, unsubscribe_all included, an old token stands for its old entry or nothing |
| EventPublisher.SubscribedTokenKeepsMeaning | src/blueapi/core/event.py:61-64 | the token a caller gets stands for that caller's callback as long as it stands for anything |
| TaskSubscriptions.ManagedPublish | src/blueapi/service/interface.py:214-228 | callbacks that remove themselves while an event is delivered: all are called, none fails, just those that fired are gone |
| TaskSubscriptions.RequestStepKeeps | src/blueapi/service/interface.py:194-237 | each step of a begin, each event published and each subscribe or unsubscribe of others meanwhile keeps what the request owns apart from what others own |
| TaskSubscriptions.SubscriptionsConserved | src/blueapi/service/interface.py:184-237 | whatever is published and others do meanwhile: a begin that raised leaves both streams as if never made; one that returned does exactly if its task's completion was published, and otherwise leaves exactly its two |
| TaskSubscriptions.WaitHearsEvents | src/blueapi/worker/task_worker.py:306-320 | while the worker waits for the task to start, every event reaches the mark |
| TaskSubscriptions.NullIdLeavesTwo | src/blueapi/service/interface.py:230-237 | a request that returns and leaves its two subscriptions |
| SubscriptionLifetimes.CompletedIfPublished | src/blueapi/service/interface.py:214-227 | a request that has returned has seen its task complete exactly if a completion was among the events published |
| SubscriptionLifetimes.ReportedIfPublished | src/blueapi/worker/task_worker.py:476-480 | over every run, a completion was published since a moment before the execution exactly if the task's cycle has decided and it was not cleared while pending, or it was disturbed |
| SubscriptionLifetimes.LivesUntilReported | src/blueapi/service/interface.py:184-237 | both together: a returned begin's subscriptions are gone exactly once its task is reported complete, and stay if it is cleared while running |
| SubscriptionLifetimes.ReportedInPeace | src/blueapi/worker/task_worker.py:476-480 | for a task left quiet: exactly when its cycle has decided and it was not cleared while pending |
| SubscriptionLifetimes.ClearedWhileRunning | src/blueapi/worker/task_worker.py:157-167 | a run in which a running task is cleared, and a request whose subscriptions then stay |
| SubscriptionLifetimes.RaisedYetExecuted | src/blueapi/worker/task_worker.py:317-324 | a begin that raised on its timeout has taken its subscriptions back, and the worker executes its task afterwards |
| BeginRequests.Service.Subscribe | src/blueapi/service/interface.py:194-228 | the writer on the engine, then the removal callback on the worker events, and both in the list of subscribers |
| BeginRequests.Service.Attempted | src/blueapi/worker/task_worker.py:297-326 | refused or waited for while events are published: the mark subscribed for the wait is always taken back |
| BeginRequests.Service.CleanUp | src/blueapi/service/interface.py:231-236 | the clean-up loop, which ends early if the second removal raises, with events published between the two removals |
| BeginRequests.Service.BeginTask | src/blueapi/service/interface.py:184-237 | the whole call, with events published between any two of its steps, is a request in the sense above, so both streams are restored, or keep its two, under the same exact condition |
| TaskSubscriptions.PipeEvents | src/blueapi/service/interface.py:297-313 | one passive subscription more on each of the three streams, and their tokens |
| TaskSubscriptions.UnpipeEvents | src/blueapi/service/interface.py:316-320 | removes the three tokens, each from its own stream |
| TaskSubscriptions.UnpipeUndoesPipe | src/blueapi/service/interface.py:297-320 | pipe, any events, unpipe leave each stream as the same events would have left it |
| EventPipes.EventPipe.Enter | src/blueapi/service/runner.py:190-195 | pushes the tokens of the three new subscriptions |
| EventPipes.EventPipe.Exit | src/blueapi/service/runner.py:197-201 | takes back the innermost handles, each token from its own stream |
| EventPipes.WithPipe | src/blueapi/service/runner.py:182-201 | the with-block never fails to unsubscribe and leaves all three streams as the same events on each of them leave them without it |
| Reload.InitializedMeansNoError | src/blueapi/service/runner.py:80-116 | in every state of every interleaving an initialized environment carries no error |
| Reload.EnvironmentFollows | src/blueapi/service/runner.py:80-116 | under every interleaving the error is that of the last start, or of a later stop that failed, and the environment is initialized if and only if the last thing to finish was a start that raised nothing |
| Reload.DeleteSchedules | src/blueapi/service/main.py:257-260 | a request to delete schedules one reload if the environment is up or has an error, and otherwise none |
| Reload.StartLeavesDrawnId | src/blueapi/service/runner.py:81-95 | a start that ends, well or not, leaves the id it drew when it began |
| Reload.WhoPutItInPlace | src/blueapi/service/runner.py:80-95 | an initialized environment comes from one successful start, with the id that start drew |
| Reload.NeverStale | src/blueapi/service/main.py:252-260 | what differs from the captured id and is initialized comes from a start that finished after the capture |
| Reload.StopKeepsIdExactly | src/blueapi/service/runner.py:98-116 | under every interleaving, with ids drawn fresh, a stop keeps the id exactly if nothing replaced the environment since it began, or the last to do so was a stop that had seen the same id |
| Reload.StandingIdIsKept | src/blueapi/service/runner.py:98-116 | one direction, without any premise on the ids |
| Reload.StopBegan | src/blueapi/service/runner.py:98-99 | every stop that ends began in exactly one earlier step |
| Reload.StopKeepsId | src/blueapi/service/runner.py:98-116 | in particular, stop never changes the id as long as reloads do not overlap |
| Reload.OverlappingStopsKeepId | src/blueapi/service/runner.py:98-116 | overlapping stops that keep it |
| Reload.OverlappingReloadsBringBackOldId | src/blueapi/service/runner.py:98-116 | with two overlapping reloads it can |
| Reload.WaitForReload | src/blueapi/client/client.py:727-748 | returns the first decisive answer: reloaded, failed with the server's message, or timed out with every answer undecided |
| Reload.BoundedWait | src/blueapi/client/client.py:727-748 | with a timeout the loop ends after at most ceil(timeout / interval) requests |
| Reload.ReloadEnvironment | src/blueapi/client/client.py:698-748 | against any interleaving, a returned environment is initialized, without error, and put in place after the delete |
| Dispatcher.WorkerDispatcher.Delete | src/blueapi/service/main.py:252-260 | schedules a reload only if there is something to reload, and answers with the current id |
| Dispatcher.WorkerDispatcher.EndStop | src/blueapi/service/runner.py:98-116 | makes the model's step: the captured id comes back, an earlier error stays unless the stop itself fails |
| Dispatcher.WorkerDispatcher.EndStart | src/blueapi/service/runner.py:80-95 | makes the model's step: initialized exactly if neither factory nor set-up raised |
| Dispatcher.WorkerDispatcher.Reload | src/blueapi/service/runner.py:73-77 | an undisturbed reload puts the drawn id in place, and its error is that of the start alone |
| Dispatcher.DeleteThenWait | src/blueapi/client/client.py:698-748 | after an undisturbed reload the first poll gives the client the new environment, or the error of the start |
| ConfigMerge.LeafOfMerge | src/blueapi/config.py:415-424 | a leaf survives a merge exactly when the upper layer sets it, or the lower does and the upper does not hide it |
| ConfigMerge.DictOfMerge | src/blueapi/config.py:415-424 | and so does a dict, even an empty one |
| ConfigMerge.LeafOfMergeAll | src/blueapi/config.py:404-436 | a path holds a leaf exactly when some layer sets it there and no later one defines the path or cuts it off |
| ConfigMerge.ReapplyingLastLayer | src/blueapi/config.py:404-426 | using the last layer again changes nothing |
| ConfigMerge.CoversMeansNoChange | src/blueapi/config.py:415-424 | when merging over a layer leaves the upper one as it was |
| ConfigMerge.AssociativeExactly | src/blueapi/config.py:415-426 | three layers may be merged in either order exactly when they do not clash |
| ConfigMerge.NotAssociative | src/blueapi/config.py:415-426 | a concrete clash |
| ConfigLoader.UpdateMap | src/blueapi/config.py:415-424 | the nested dict objects, updated in place in any key order, hold the merge; the upper layer's objects are not written |
| ConfigLoader.ContentsOfMerge | src/blueapi/config.py:415-424 | what the resulting objects stand for is the pure merge |
| ConfigLoader.SeparateMerge | src/blueapi/config.py:415-424 | merging layers that share no dict never makes a dict occur twice |
| ConfigLoader.Loader.UseValues | src/blueapi/config.py:404-426 | the loader's values become their merge with the layer |
| ConfigLoader.LoadAll | src/blueapi/config.py:428-440 | several layers in turn give the left fold of the merge |
| NestedRuns.PathProvider.RunStart | src/blueapi/utils/path_provider.py:19-21 | pushes start documents only |
| NestedRuns.PathProvider.RunStop | src/blueapi/utils/path_provider.py:23-31 | pops only for the innermost uid; a rejected stop leaves the stack unchanged |
| NestedRuns.PathProvider.PathFor | src/blueapi/utils/path_provider.py:33-56 | fails outside a run or without a template, otherwise answers from the top of the stack |
| NestedRuns.AcceptsWellNested | src/blueapi/utils/path_provider.py:19-31 | a stream is accepted with nothing left open exactly when its runs are properly nested and matched on uid |
| NestedRuns.AcceptsOpenRuns | src/blueapi/utils/path_provider.py:19-31 | and with a given stack left exactly when it is so but for these open runs |
| NestedRuns.RejectsExactly | src/blueapi/utils/path_provider.py:23-31 | a stop is rejected if and only if no run is open, or the innermost open one has another uid; each with its own error |
| NestedRuns.TopIsInnermost | src/blueapi/utils/path_provider.py:42-47 | the top of the stack is the run since whose start everything is properly nested |
| NestedRuns.PathAfter | src/blueapi/utils/path_provider.py:33-56 | every path request after an accepted stream uses the innermost open run |
| TypeConversion.BlueskyContext.Refer | src/blueapi/core/context.py:367-425 | one reference per target, made once and kept |
| TypeConversion.BlueskyContext.ConvertType | src/blueapi/core/context.py:472-499 | makes just the missing references of the annotation's targets, and returns the conversion that uses them |
| TypeConversion.ConversionKeepsMeaning | src/blueapi/core/context.py:472-499 | reading references as their targets gives back the annotation, new-style unions as Union and skipped None as None |
| TypeConversion.ConversionSeparates | src/blueapi/core/context.py:472-499 | annotations that mean different things stay different |
| TypeConversion.OnlyParametersStayExposed | src/blueapi/core/context.py:488-499 | at every depth, a bluesky type is left outside a reference exactly when it stands in a callable's parameter list |
| TypeConversion.CallableParameterStaysExposed | src/blueapi/core/context.py:493-499 | such an annotation |
| TypeConversion.NoneFollowsDefault | src/blueapi/core/context.py:488-498 | with a default no bare None is left, without one none is skipped; no new-style union is left |
| TypeConversion.UsesItsTargets | src/blueapi/core/context.py:490-492 | a conversion uses the references of its outermost device types and no others |
| TypeConversion.SharedByTarget | src/blueapi/core/context.py:382-425 | across conversions equal targets share one reference and distinct targets never do |
| TypeConversion.Stable | src/blueapi/core/context.py:423-425 | references made later change no earlier conversion |
| TypeConversion.ConvertTwo | src/blueapi/core/context.py:427-470 | two parameters of one context, end to end: both keep their meaning and share exactly by target |
| DeviceLookup.FindsWhatIsThere | src/blueapi/core/device_lookup.py:22-47 | a device is found exactly when the address leads to it, through dicts and devices alike |
| DeviceLookup.MissingOnlyAtTheEnd | src/blueapi/core/device_lookup.py:22-47 | None is the answer exactly when all but the last name is there and only the last is missing |
| DeviceLookup.FailsAtTheEnd | src/blueapi/core/device_lookup.py:23-47 | an empty address, and an address leading to something that is no device, are each told if and only if that is the case |
| DeviceLookup.OtherwiseNotSearchable | src/blueapi/core/device_lookup.py:29-38 | in every other case something on the way was missing before the last name, or cannot be searched |
| DeviceLookup.LookupComposes | src/blueapi/core/device_lookup.py:22-43 | past a prefix that names a device, lookup goes on as if started at that device |
| DeviceLookup.JoinOfSplit | src/blueapi/core/context.py:198-200 | joining a split name gives it back, for every string |
| DeviceLookup.SplitOfJoin | src/blueapi/client/client.py:134-137 | splitting joined parts gives them back exactly when there are parts, none holding a dot |
| DeviceReferences.DeviceCache.constructor | src/blueapi/client/client.py:89-98 | caches what is listed, and sets attributes for all but private names |
| DeviceReferences.DeviceCache.GetItem | src/blueapi/client/client.py:100-110 | a name cached is never asked for again, so none is fetched twice; what the server knows is cached under the full name and set as an attribute under the own name; a failure changes nothing |
| DeviceReferences.DeviceCache.Chain | src/blueapi/client/client.py:112-137 | an attribute chain succeeds exactly when each step's full name is cached or known to the server |
| DeviceReferences.ChainAgrees | src/blueapi/client/client.py:112-137 | it stands for its joined address exactly when its first name is no other device's own name |
| DeviceReferences.ChainFindsDevice | src/blueapi/client/client.py:112-137 | then its model is that of the device the server finds at the same address; where the chain is a single listed name, borne by one device, this is so if and only if that device is registered under it |
| DeviceReferences.ServedIsSound | src/blueapi/service/interface.py:147-152 | what the server answers is what lookup finds under that name |
| DeviceLookup.ServedExactly | src/blueapi/service/interface.py:147-152 | a request is answered if and only if the name leads to a device that counts as true, with that device's own name and protocols; it is not found if nothing is there or the device counts as false, and fails if the lookup does |
| DeviceLookup.ListsExactly | src/blueapi/service/interface.py:142-144 | the listing describes each registered device by its own name and protocols, in order |
| DeviceReferences.ListedSoundExactly | src/blueapi/client/client.py:89-98 | one listed name can be relied on if and only if under it there is a device with the same model |
| DeviceReferences.ListedChainExactly | src/blueapi/client/client.py:89-98 | if no other device bears it, if and only if its device is registered under it |
| DeviceReferences.ListingSoundExactly | src/blueapi/service/interface.py:142-144 | the listing agrees with lookup if and only if each own name leads to a registered device with the same model; with distinct names, if and only if devices are registered under their own names |
| DeviceReferences.RenamedDeviceIsNotFound | src/blueapi/client/client.py:89-98 | a listing under a name the server does not know |
| DeviceReferences.OwnNameBecomesFirstName | src/blueapi/client/client.py:103-108 | after a lookup the client accepts a first name that the server does not know |
| ArgumentBinding.BuildArgs | src/blueapi/client/client.py:174-202 | succeeds exactly for acceptable calls, with exactly the positionals in schema order and the keywords; each error names what is wrong, in the source's order |
| ArgumentBinding.BindKeywords | src/blueapi/client/client.py:192-198 | fails exactly at the first keyword already bound by position |
| ArgumentBinding.PositionIsName | src/blueapi/client/client.py:186-198 | passing an argument by position or by name is equally acceptable and binds the same values |
| ArgumentBinding.BindEitherWay | src/blueapi/client/client.py:174-202 | a call that is bound at all gives the very same parameters when its positional arguments are passed by name |
| Progress.StatusTracker.WaitingHook | src/blueapi/worker/task_worker.py:606-616 | only watchable statuses that are not done enter the snapshot |
| Progress.MonitoredExactly | src/blueapi/worker/task_worker.py:606-616 | each status that is watchable and not done enters the snapshot with nothing known of its progress, and nothing else changes |
| Progress.StatusTracker.OnStatusEvent | src/blueapi/worker/task_worker.py:629-675 | a completed status is ignored; otherwise its view shows full completion if it is done, and the remaining fraction taken from one if that is known; it is published for the current task, or the call raises without one |
| Progress.StatusTracker.OnComplete | src/blueapi/worker/task_worker.py:622-625 | undisturbed, a finished status is announced, removed and recorded; called again it raises where the source's del does |
| Progress.SnapshotExactly | src/blueapi/worker/task_worker.py:612-663 | over every run with its thread interleavings, the snapshot holds the statuses watched and not yet removed, those notified late, and no others |
| Progress.CompletedExactly | src/blueapi/worker/task_worker.py:483 | the completed set holds what was recorded since the last cycle ended |
| Progress.OverlapExactly | src/blueapi/worker/task_worker.py:622-663 | snapshot and completed set share a status exactly when a notification came between its removal and its record |
| Progress.OverlapHappens | src/blueapi/worker/task_worker.py:622-625 | such a run |
| Progress.DisjointExactly | src/blueapi/worker/task_worker.py:612-663 | the two are disjoint in a state if and only if no notification slipped in for any status recorded in the cycle |
| Progress.AlwaysDisjointExactly | src/blueapi/worker/task_worker.py:612-663 | over every run the two are disjoint in every state if and only if no status notifies between its own removal and its own record; what other statuses do in between is free |
| Progress.PublishedExactly | src/blueapi/worker/task_worker.py:660-675 | which steps publish, and that every published snapshot holds just the watched and the late statuses |
| Progress.ShownAgainExactly | src/blueapi/worker/task_worker.py:622-663 | a completed status is in an event of the rest of its cycle if and only if a notification came between its removal and its record: then it is in all of them, otherwise in none |
| Progress.NeverShownAgain | src/blueapi/worker/task_worker.py:660-663 | if its own completion was undisturbed, a completed status is in no event published before the cycle ends |
| Progress.LateStaysForGood | src/blueapi/worker/task_worker.py:483 | a notification after the cycle brings a finished status back, and nothing removes it |
| Progress.LateNotificationHappens | src/blueapi/worker/task_worker.py:622-663 | a legal run in which it does, every completion in it being undisturbed |
| Progress.AnnouncedIsDone | src/blueapi/worker/task_worker.py:622-624 | a status announced and not yet removed is shown as done |
| Progress.DoneIsFull | src/blueapi/worker/task_worker.py:643-646 | in every snapshot, what is done is shown as fully complete |
| Progress.SnapshotShows | src/blueapi/worker/task_worker.py:643-663 | over every run the snapshot shows each status as it was last reported, fractions included |
| Progress.PublishedForTask | src/blueapi/worker/task_worker.py:665-675 | events are published for the task begun last |

## Left out

- REST, websocket, STOMP and HTTP transport, serialisation, pydantic validation, YAML parsing: messages are taken as delivered in order.
- Authentication, authorisation, the command line, scratch directories, tracing, logging and metrics.
- The RunEngine and ophyd: the engine is an adversary that reports states, returns or raises; devices are objects with attributes.
- Concurrency finer than the steps of `TaskProtocol`: taking a command and setting the current task is one step, and so is the check of the active task together with the begin that follows it.
- TaskTheorems.ExecutedAtMostOnce: with the guard made in the same step as the begin; in the source other requests can come in between, and ExecutedAgainExactly says which of them do harm.
- What two worker loops do after a start that timed out: the state machine follows one worker thread, so the results about the worker have the premise `InTurn`.
- The time a begin waits for its task to start is not a state of the worker, since it changes nothing the worker sees: the task stays in the channel whether or not the wait times out.
- Unsubscribing the document callback after the stopped flag is set, the engine's hooks, and the worker's list of warnings, which nothing fills.
- Pause, resume and cancel, and the table of state transitions allowed over REST.
- TaskSubscriptions.SubscriptionsConserved: with tiled configured, without which a request subscribes nothing of its own; the other subscribers are event pipes and other begins, whose callbacks remove nothing but themselves and their own writer; subscribing the removal callback and appending it to the list is one step; the engine's unsubscribe is taken not to raise.
- EventPublisher.Publisher.Publish: callbacks act on the subscriptions and raise; a callback that publishes on the same stream is not modelled, and the correlation id is left to the Completion module.
- Reload.WaitForReload: takes a bound on the number of polls, since without a timeout the loop in the source may run for ever.
- BeginRequests.Service.BeginTask: as one call, with events published between any two of its steps; what other subscribers do in between is in TaskSubscriptions.
- SubscriptionLifetimes.LivesUntilReported: the task is begun after its request subscribed the removal callback, as every begin does.
- EventPipes.WithPipe: events of all three streams are of one type here; a pipe's handler does nothing to the subscriptions whatever it is given.
- The content of documents and of data events, and a client's own event callbacks.
- ConfigLoader.UpdateMap: the two mappings share no dict object, and the lower one holds none twice.
- ConfigLoader.LoadAll: no dict object occurs in two layers or twice in one.
- ConfigLoader.Loader.UseValues: layers that share nested dicts with each other or with the loader are excluded, as the source stores nested dicts without copying them; turning the values into a typed configuration is library behaviour.
- NestedRuns.PathProvider.RunStop: a stop with no run open raises IndexError in the source, which appears here as the error NoOpenRun.
- NestedRuns.PathProvider.PathFor: says which template and document are used; the formatting of the name is library behaviour.
- TypeConversion.BlueskyContext.ConvertType: types are equal when they are built alike; Python also ignores the order of a union's members. What a reference validates, and fields for composite parameters, are not modelled.
- DeviceReferences.DeviceCache.constructor: own names that would overwrite the attributes the cache itself relies on are excluded, and so is a server whose devices change while a client holds its cache.
- DeviceReferences.ListingSoundExactly: own names that hold dots are excluded, since an address is split at its dots.
- DeviceLookup.FindComponent: attributes are a finite map and reading one has no effect; objects may form cycles, as with a device and its parent.
- ArgumentBinding.BuildArgs: schema properties and keywords have distinct names, as keys of a dict do.
- Progress.StatusTracker.OnStatusEvent: a view keeps done and percentage, over the reals; name, units, limits and times are copied through in the source.
- Progress.SnapshotExactly: statuses are watched under ids of their own, as the source draws a new one each time, and complete once.
