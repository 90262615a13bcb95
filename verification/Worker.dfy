/**
 TaskWorker itself: dicts of shared, mutable TrackableTask objects, a box for the next command, a `_current`
 reference and three flags (src/blueapi/worker/task_worker.py).  The ghost field `run` records the atomic steps so far.
 Valid says that they are a run of TaskProtocol and that the objects are in the state it ends in; every step keeps
 that, so what holds of all runs holds of this class.
 */
module Worker {
  import opened Basics
  import opened WorkerEvents
  import opened TaskProtocol
  import opened TaskSafety
  import opened EventGrammar
  import opened TaskTheorems

  class TrackableTask {
    const id: TaskId
    var isPending: bool
    var isComplete: bool
    var errors: seq<string>
    var outcome: Option<TaskOutcome>

    constructor (id: TaskId)
      ensures this.id == id && Record() == NEW_TASK
    {
      this.id := id;
      isPending, isComplete, errors, outcome := true, false, [], None;
    }

    ghost function Record(): TaskRecord
      reads this
    {
      TaskRecord(isPending, isComplete, errors, outcome)
    }
  }

  /** What goes through the Queue. */
  datatype Message = TaskMessage(task: TrackableTask) | KillMessage

  type TaskDict = map<TaskId, TrackableTask>

  /** Each key is its task's id, so no id names two objects. */
  ghost predicate KeyedById(objects: TaskDict) {
    forall id :: id in objects ==> objects[id].id == id
  }

  /** A dict of tasks holds the objects themselves. */
  ghost predicate HoldsObjects(dict: TaskDict, objects: TaskDict) {
    forall id :: id in dict ==> id in objects && dict[id] == objects[id]
  }

  ghost predicate Holds(task: TrackableTask, objects: TaskDict) {
    task.id in objects && objects[task.id] == task
  }

  /** The records of the model are those of the objects. */
  ghost predicate RecordsAre(objects: TaskDict, tasks: map<TaskId, TaskRecord>)
    reads objects.Values
  {
    objects.Keys == tasks.Keys && forall id :: id in objects ==> tasks[id] == objects[id].Record()
  }

  lemma NewObject(objects: TaskDict, dict: TaskDict, tasks: map<TaskId, TaskRecord>, task: TrackableTask)
    requires KeyedById(objects) && HoldsObjects(dict, objects) && RecordsAre(objects, tasks)
    requires task.id !in objects && task.Record() == NEW_TASK
    ensures KeyedById(objects[task.id := task]) && RecordsAre(objects[task.id := task], tasks[task.id := NEW_TASK])
    ensures HoldsObjects(dict, objects[task.id := task])
    ensures HoldsObjects(dict[task.id := task], objects[task.id := task])
  {
  }

  function EndOfPlan(outcome: TaskOutcome): (step: CycleStep) {
    match outcome
    case TaskResult(value) => PlanReturns(value)
    case TaskError(kind, message) => PlanRaises(kind, message)
  }

  /** The text of the exception, if the plan raised one. */
  function Texts(outcome: TaskOutcome): (texts: seq<string>) {
    match outcome
    case TaskResult(_) => []
    case TaskError(_, message) => [message]
  }

  class TaskWorker {
    var pendingTasks: TaskDict
    var completedTasks: TaskDict
    var state: WorkerState
    var errors: seq<string>
    var taskChannel: Option<Message>
    var current: TrackableTask?
    var flags: Flags                  // _started, _stopping and _stopped
    var published: seq<WorkerEvent>   // what the worker event stream has delivered

    ghost var objects: TaskDict       // every task ever submitted
    ghost var model: State
    ghost var run: seq<Action>        // the steps so far

    ghost predicate ChannelIs(channel: Option<Command>)
      reads this`taskChannel, this`objects
    {
      match taskChannel
      case None => channel == None
      case Some(TaskMessage(task)) => Holds(task, objects) && channel == Some(RunTask(task.id))
      case Some(KillMessage) => channel == Some(KillSignal)
    }

    ghost predicate CurrentIs(id: Option<TaskId>)
      reads this`current, this`objects
    {
      if current == null then id == None else Holds(current, objects) && id == Some(current.id)
    }

    ghost predicate TasksAre(store: Store)
      reads this`pendingTasks, this`completedTasks, this`objects, objects.Values
    {
      && KeyedById(objects) && RecordsAre(objects, store.tasks)
      && HoldsObjects(pendingTasks, objects) && pendingTasks.Keys == store.pending
      && HoldsObjects(completedTasks, objects) && completedTasks.Keys == store.completed
    }

    /** The objects are in the state of the model. */
    ghost predicate Matches()
      reads this`pendingTasks, this`completedTasks, this`state, this`errors, this`taskChannel, this`current
      reads this`flags, this`published, this`objects, this`model, objects.Values
    {
      && TasksAre(model.store) && CurrentIs(model.current) && ChannelIs(model.channel)
      && flags == model.flags && state == model.engine && errors == model.errors && published == model.trace.log
    }

    /** And that is the state in which the steps so far end. */
    ghost predicate Valid()
      reads this, objects.Values
    {
      Matches() && IsRun(run) && Final(run) == model
    }

    constructor ()
      ensures Valid() && run == [] && model == INITIAL
    {
      pendingTasks, completedTasks := map[], map[];
      state, errors, taskChannel, current := IDLE, [], None, null;
      flags, published := Flags(false, false, true), [];
      objects, model, run := map[], INITIAL, [];
    }

    /** Records a step that the objects and the model have made. */
    ghost method Note(a: Action)
      requires Matches() && IsRun(run) && Enabled(Final(run), a) && model == Next(Final(run), a)
      modifies this`run
      ensures Valid() && run == old(run) + [a]
    {
      run := Extend(run, a);
    }

    /** Makes a step in which a thread only moves on. */
    ghost method Advance(a: Action)
      requires Valid() && Enabled(model, a)
      requires Next(model, a) == model.(at := Next(model, a).at, live := Next(model, a).live,
                                              caller := Next(model, a).caller)
      modifies this`model, this`run
      ensures Valid() && run == old(run) + [a] && model == Next(old(model), a)
    {
      GoTo(Next(model, a).at, Next(model, a).live, Next(model, a).caller);
      Note(a);
    }

    /** Nothing that the state machine keeps depends on where the threads are. */
    ghost method GoTo(at: Location, live: nat, caller: Caller)
      requires Matches()
      modifies this`model
      ensures Matches() && model == old(model).(at := at, live := live, caller := caller)
    {
      model := model.(at := at, live := live, caller := caller);
    }

    // ---------- what holds of every run holds of the objects ----------

    /** No task is under both dicts; each key is its task's id; what is stored as completed is complete. */
    lemma DictsAreApart(id: TaskId)
      requires Valid() && InTurn(run)
      ensures !(id in pendingTasks && id in completedTasks)
      ensures id in pendingTasks ==> pendingTasks[id].id == id
      ensures id in completedTasks ==> completedTasks[id].id == id
      ensures Unrepeated(run) && id in completedTasks ==> completedTasks[id].isComplete
    {
      ConservationHolds(run);
      assert ConservedAt(model, id);
      if Unrepeated(run) {
        OnlyTheActiveTaskRuns(run, id);
      }
    }

    /** What this object has published follows the grammar. */
    lemma PublishedFollowsGrammar()
      requires Valid() && InTurn(run) && Unrepeated(run)
      ensures Shape(Trace(model.trace.executed, model.trace.starts, published))
      ensures forall k :: 0 <= k < |model.trace.executed| ==>
                (FollowsGrammar(model, k) <==> Quiet(run, model.trace.executed[k]))
    {
      EventsFollowGrammar(run);
      assert model.trace == Trace(model.trace.executed, model.trace.starts, published);
    }

    /** The current task as an event shows it. */
    function Status(): (status: Option<TaskStatus>)
      reads this`current, if current == null then {} else {current}
    {
      if current == null then None
      else Some(TaskStatus(current.id, current.outcome, current.isComplete, current.errors != []))
    }

    // ---------- calls ----------

    method SubmitTask(id: TaskId)
      requires Valid() && id !in model.store.tasks
      modifies this`pendingTasks, this`objects, this`model, this`run
      ensures Valid() && run == old(run) + [Call(Submit(id))] && model == AddTask(old(model), id)
      ensures id in pendingTasks && fresh(pendingTasks[id]) && pendingTasks == old(pendingTasks)[id := pendingTasks[id]]
      ensures pendingTasks[id].id == id && pendingTasks[id].Record() == TaskRecord(true, false, [], None)
    {
      var task := new TrackableTask(id);
      AddPending(task);
      Note(Call(Submit(id)));
    }

    method AddPending(task: TrackableTask)
      requires Matches() && task.id !in objects && task.Record() == NEW_TASK
      modifies this`pendingTasks, this`objects, this`model
      ensures Matches() && model == AddTask(old(model), task.id)
      ensures pendingTasks == old(pendingTasks)[task.id := task]
    {
      KeepNew(task);
      SetModel(AddTask(model, task.id));
    }

    ghost method SetModel(next: State)
      requires TasksAre(next.store) && CurrentIs(next.current) && ChannelIs(next.channel)
      requires flags == next.flags && state == next.engine && errors == next.errors && published == next.trace.log
      modifies this`model
      ensures Matches() && model == next
    {
      model := next;
    }

    method KeepNew(task: TrackableTask)
      requires Matches() && task.id !in objects && task.Record() == NEW_TASK
      modifies this`pendingTasks, this`objects
      ensures TasksAre(AddTask(model, task.id).store) && CurrentIs(model.current) && ChannelIs(model.channel)
      ensures pendingTasks == old(pendingTasks)[task.id := task]
    {
      NewObject(objects, pendingTasks, model.store.tasks, task);
      NewObject(objects, completedTasks, model.store.tasks, task);
      KeepObject(task);
      pendingTasks := pendingTasks[task.id := task];
      assert TasksAre(AddTask(model, task.id).store);
    }

    /** One more object takes nothing away from what the channel and the current task refer to. */
    ghost method KeepObject(task: TrackableTask)
      requires CurrentIs(model.current) && ChannelIs(model.channel) && task.id !in objects
      modifies this`objects
      ensures objects == old(objects)[task.id := task] && CurrentIs(model.current) && ChannelIs(model.channel)
    {
      objects := objects[task.id := task];
    }

    method ClearTask(id: TaskId) returns (r: Result<TaskId, TaskId>)
      requires Valid()
      modifies this`pendingTasks, this`completedTasks, this`model, this`run
      ensures Valid() && run == old(run) + [Call(Clear(id))] && model == AfterCall(old(model), Clear(id))
      ensures r == if id in old(pendingTasks) || id in old(completedTasks) then Ok(id) else Err(id)
      ensures pendingTasks == old(pendingTasks) - {id}
      ensures completedTasks == if id in old(pendingTasks) then old(completedTasks) else old(completedTasks) - {id}
      ensures InTurn(old(run)) ==> id !in pendingTasks && id !in completedTasks
    {
      if InTurn(run) {
        DictsAreApart(id);
      }
      r := PopEither(id);
      Note(Call(Clear(id)));
    }

    method PopEither(id: TaskId) returns (r: Result<TaskId, TaskId>)
      requires Matches()
      modifies this`pendingTasks, this`completedTasks, this`model
      ensures Matches() && model == old(model).(store := Cleared(old(model).store, id))
      ensures r == if id in old(pendingTasks) || id in old(completedTasks) then Ok(id) else Err(id)
      ensures pendingTasks == old(pendingTasks) - {id}
      ensures completedTasks == if id in old(pendingTasks) then old(completedTasks) else old(completedTasks) - {id}
    {
      if id in pendingTasks {
        var task := PopFromPending(id);
        r := Ok(task.id);
      } else if id in completedTasks {
        var task := PopFromCompleted(id);
        r := Ok(task.id);
      } else {
        r := Err(id);
      }
    }

    method PopFromPending(id: TaskId) returns (task: TrackableTask)
      requires Matches() && id in pendingTasks
      modifies this`pendingTasks, this`model
      ensures Matches() && model == old(model).(store := Cleared(old(model).store, id))
      ensures task == old(pendingTasks)[id] && task.id == id && pendingTasks == old(pendingTasks) - {id}
    {
      task := pendingTasks[id];
      pendingTasks := pendingTasks - {id};
      model := model.(store := Cleared(model.store, id));
      assert TasksAre(model.store);
    }

    method PopFromCompleted(id: TaskId) returns (task: TrackableTask)
      requires Matches() && id in completedTasks && id !in pendingTasks
      modifies this`completedTasks, this`model
      ensures Matches() && model == old(model).(store := Cleared(old(model).store, id))
      ensures task == old(completedTasks)[id] && task.id == id && completedTasks == old(completedTasks) - {id}
    {
      task := completedTasks[id];
      completedTasks := completedTasks - {id};
      model := model.(store := Cleared(model.store, id));
      assert TasksAre(model.store);
    }

    /** The check of the active task, begin_task and _submit_trackable_task up to the wait. */
    method BeginTask(id: TaskId, guarded: bool) returns (r: BeginOutcome)
      requires Valid()
      modifies this`taskChannel, this`model, this`run
      ensures Valid() && run == old(run) + [Call(Begin(id, guarded))]
      ensures model == AfterCall(old(model), Begin(id, guarded))
      ensures r == AlreadyActive <==> guarded && Busy()
      ensures r == NoPendingTask <==> !(guarded && Busy()) && id !in pendingTasks
      ensures r == EngineBusy <==> !(guarded && Busy()) && id in pendingTasks && state != IDLE
      ensures r == AlreadyRun <==>
                !(guarded && Busy()) && id in pendingTasks && state == IDLE && pendingTasks[id].isComplete
      ensures r == ChannelFull || r == HandedOver <==>
                !(guarded && Busy()) && id in pendingTasks && state == IDLE && !pendingTasks[id].isComplete
      ensures r == ChannelFull ==> old(taskChannel).Some?
      ensures r == HandedOver ==> old(taskChannel).None? && taskChannel == Some(TaskMessage(pendingTasks[id]))
      ensures r != HandedOver ==> taskChannel == old(taskChannel)
    {
      r := CheckedBegin(id, guarded);
      Note(Call(Begin(id, guarded)));
    }

    /** What the API's check asks: is there a current task that is not complete? */
    predicate Busy()
      reads this`current, if current == null then {} else {current}
    {
      current != null && !current.isComplete
    }

    method CheckedBegin(id: TaskId, guarded: bool) returns (r: BeginOutcome)
      requires Matches()
      modifies this`taskChannel, this`model
      ensures Matches() && model == AfterCall(old(model), Begin(id, guarded))
      ensures r == AlreadyActive <==> guarded && Busy()
      ensures r == NoPendingTask <==> !(guarded && Busy()) && id !in pendingTasks
      ensures r == EngineBusy <==> !(guarded && Busy()) && id in pendingTasks && state != IDLE
      ensures r == AlreadyRun <==>
                !(guarded && Busy()) && id in pendingTasks && state == IDLE && pendingTasks[id].isComplete
      ensures r == ChannelFull || r == HandedOver <==>
                !(guarded && Busy()) && id in pendingTasks && state == IDLE && !pendingTasks[id].isComplete
      ensures r == ChannelFull ==> old(taskChannel).Some?
      ensures r == HandedOver ==> old(taskChannel).None? && taskChannel == Some(TaskMessage(pendingTasks[id]))
      ensures r != HandedOver ==> taskChannel == old(taskChannel)
    {
      if guarded && current != null && !current.isComplete {
        return AlreadyActive;
      }
      if id !in pendingTasks {
        return NoPendingTask;
      }
      var task := pendingTasks[id];
      if state != IDLE {
        return EngineBusy;
      }
      if task.isComplete {
        return AlreadyRun;
      }
      if taskChannel.Some? {
        return ChannelFull;
      }
      PutCommand(TaskMessage(task), RunTask(id));
      r := HandedOver;
    }

    method PutCommand(message: Message, ghost command: Command)
      requires Matches() && taskChannel.None?
      requires match message
               case TaskMessage(task) => Holds(task, objects) && command == RunTask(task.id)
               case KillMessage => command == KillSignal
      modifies this`taskChannel, this`model
      ensures Matches() && taskChannel == Some(message) && model == old(model).(channel := Some(command))
    {
      taskChannel := Some(message);
      model := model.(channel := Some(command));
    }

    // ---------- start and stop, which test the three flags ----------

    /** start, up to the wait for `_stopped`: refused if the worker has been started. */
    method Start() returns (raised: bool)
      requires Valid() && model.caller == NoCall
      modifies this`model, this`run
      ensures Valid() && run == old(run) + [Control(CallStart)]
      ensures raised <==> old(flags).started
      ensures model.caller == if raised then NoCall else StartAwaitsStopped
    {
      raised := flags.started;
      Advance(Control(CallStart));
    }

    /** Spawns the worker's thread if `_stopped` is set, and waits on if it is not. */
    method SpawnIfStopped() returns (spawned: bool)
      requires Valid() && model.caller == StartAwaitsStopped
      modifies this`model, this`run
      ensures Valid() && run == old(run) + if spawned then [Control(SpawnWorker)] else []
      ensures spawned <==> old(flags).stopped
      ensures spawned ==> model.at == Spawned && model.live == old(model).live + 1
    {
      spawned := flags.stopped;
      if spawned {
        Advance(Control(SpawnWorker));
      } else {
        assert run + [] == run;
      }
    }

    /** The end of the wait for `_started`: the timeout is an error only if it is still not set. */
    method FinishStart() returns (timedOut: bool)
      requires Valid() && model.caller == StartAwaitsStarted
      modifies this`model, this`run
      ensures Valid() && run == old(run) + [Control(if timedOut then StartTimesOut else StartReturns)]
      ensures timedOut <==> !old(flags).started
      ensures model.caller == NoCall
    {
      timedOut := !flags.started;
      if timedOut {
        Advance(Control(StartTimesOut));
      } else {
        Advance(Control(StartReturns));
      }
    }

    /** stop, up to the put: there is a signal to put only if the worker has been started. */
    method Stop() returns (signals: bool)
      requires Valid() && model.caller == NoCall
      modifies this`model, this`run
      ensures Valid() && run == old(run) + [Control(CallStop)]
      ensures signals <==> old(flags).started
      ensures model.caller == if signals then StopPutsKill else StopAwaitsStopped
    {
      signals := flags.started;
      Advance(Control(CallStop));
    }

    /** The put of the kill signal, which blocks while the channel is full. */
    method SignalIfEmpty() returns (put: bool)
      requires Valid() && model.caller == StopPutsKill
      modifies this`taskChannel, this`model, this`run
      ensures Valid() && run == old(run) + if put then [Control(PutKill)] else []
      ensures put <==> old(taskChannel).None?
      ensures put ==> taskChannel == Some(KillMessage)
    {
      put := taskChannel.None?;
      if put {
        PutKillMessage();
        Note(Control(PutKill));
      } else {
        assert run + [] == run;
      }
    }

    method PutKillMessage()
      requires Matches() && taskChannel.None?
      modifies this`taskChannel, this`model
      ensures Matches() && taskChannel == Some(KillMessage)
      ensures model == old(model).(channel := Some(KillSignal), caller := StopAwaitsStopped)
    {
      PutCommand(KillMessage, KillSignal);
      GoTo(model.at, model.live, StopAwaitsStopped);
      assert taskChannel == Some(KillMessage);
    }

    /** The wait of start for `_stopped` times out: an error only if it is still not set. */
    method GiveUpStart() returns (gaveUp: bool)
      requires Valid() && model.caller == StartAwaitsStopped
      modifies this`model, this`run
      ensures Valid() && run == old(run) + if gaveUp then [Control(GiveUpWaitingForStop)] else []
      ensures gaveUp <==> !old(flags).stopped
    {
      gaveUp := !flags.stopped;
      if gaveUp {
        Advance(Control(GiveUpWaitingForStop));
      } else {
        assert run + [] == run;
      }
    }

    /** The end of the wait of stop for `_stopped`: giving up is an error only if it is still not set. */
    method FinishStop() returns (gaveUp: bool)
      requires Valid() && model.caller == StopAwaitsStopped
      modifies this`model, this`run
      ensures Valid() && run == old(run) + [Control(if gaveUp then GiveUpWaitingForStop else StopReturns)]
      ensures gaveUp <==> !old(flags).stopped
      ensures model.caller == NoCall
    {
      gaveUp := !flags.stopped;
      if gaveUp {
        Advance(Control(GiveUpWaitingForStop));
      } else {
        Advance(Control(StopReturns));
      }
    }

    // ---------- run, around the cycle ----------

    /** The test at the head of the loop. */
    method TestStopping() returns (again: bool)
      requires Valid() && model.at == LoopTop
      modifies this`model, this`run
      ensures Valid() && run == old(run) + [Loop(CheckStopping)]
      ensures again <==> !old(flags).stopping
      ensures model.at == if again then Awaiting else Leaving
    {
      again := !flags.stopping;
      Advance(Loop(CheckStopping));
    }

    /** One of the flag operations before and after the loop. */
    method Run(step: LoopStep)
      requires Valid() && LoopEnabled(model, step) && !step.CheckStopping?
      modifies this`flags, this`model, this`run
      ensures Valid() && run == old(run) + [Loop(step)]
      ensures flags == match step
                       case ClearStopped => old(flags).(stopped := false)
                       case SetStarted => old(flags).(started := true)
                       case ClearStarted => old(flags).(started := false)
                       case ClearStopping => old(flags).(stopping := false)
                       case SetStopped => old(flags).(stopped := true)
    {
      match step {
        case ClearStopped => SetFlags(flags.(stopped := false));
        case SetStarted => SetFlags(flags.(started := true));
        case ClearStarted => SetFlags(flags.(started := false));
        case ClearStopping => SetFlags(flags.(stopping := false));
        case SetStopped => SetFlags(flags.(stopped := true));
      }
      GoTo(Next(Final(run), Loop(step)).at, Next(Final(run), Loop(step)).live, model.caller);
      Note(Loop(step));
    }

    method SetFlags(next: Flags)
      requires Matches()
      modifies this`flags, this`model
      ensures Matches() && flags == next && model == old(model).(flags := next)
    {
      flags := next;
      model := model.(flags := next);
    }

    // ---------- the cycle ----------

    /** What every update of one object does to the records. */
    lemma RecordUpdated(before: map<TaskId, TaskRecord>, task: TrackableTask)
      requires KeyedById(objects) && Holds(task, objects) && objects.Keys == before.Keys
      requires forall id :: id in objects && id != task.id ==> before[id] == objects[id].Record()
      ensures RecordsAre(objects, before[task.id := task.Record()])
    {
    }

    method ClearPendingMark(task: TrackableTask)
      requires TasksAre(model.store) && Holds(task, objects)
      modifies task`isPending
      ensures !task.isPending
      ensures TasksAre(PutRecord(model.store, task.id, Record(model.store, task.id).(isPending := false)))
    {
      task.isPending := false;
      RecordUpdated(model.store.tasks, task);
    }

    method MakeCurrent(task: TrackableTask, ghost next: State)
      requires TasksAre(next.store) && Holds(task, objects)
      requires next.current == Some(task.id) && next.channel == None
      requires flags == next.flags && state == next.engine && errors == next.errors && published == next.trace.log
      modifies this`taskChannel, this`current, this`model
      ensures Matches() && model == next && current == task && taskChannel == None
    {
      taskChannel, current, model := None, task, next;
    }

    method TakeTask(task: TrackableTask)
      requires Matches() && model.at == Awaiting && taskChannel == Some(TaskMessage(task))
      modifies this`taskChannel, this`current, this`model, task`isPending
      ensures Matches() && model == TaskProtocol.TakeTask(old(model), task.id)
      ensures current == task && !task.isPending && taskChannel == None
    {
      ghost var next := TaskProtocol.TakeTask(model, task.id);
      ClearPendingMark(task);
      MakeCurrent(task, next);
    }

    method TakeKill()
      requires Matches() && model.at == Awaiting && taskChannel == Some(KillMessage)
      modifies this`taskChannel, this`flags, this`model
      ensures Matches() && model == TakeCommand(old(model)) && taskChannel == None && current == old(current)
    {
      taskChannel := None;
      flags := flags.(stopping := true);
      model := TakeCommand(model);
    }

    /** The task taken was never executed before; a kill signal leaves the current task alone. */
    method GetCommand()
      requires Valid() && CycleEnabled(model, Take)
      modifies this`taskChannel, this`current, this`flags, this`model, this`run, objects.Values
      ensures Valid() && run == old(run) + [Cycle(Take)] && model == TakeCommand(old(model))
      ensures old(taskChannel).value.TaskMessage? ==> current == old(taskChannel).value.task && !current.isPending
      ensures taskChannel == None
      ensures old(taskChannel).value.KillMessage? ==> current == old(current) && flags.stopping
      ensures InTurn(old(run)) && Unrepeated(old(run)) && old(taskChannel).value.TaskMessage? ==>
                current.id !in old(model).trace.executed
                && model.trace.executed == old(model).trace.executed + [current.id]
    {
      if InTurn(run) && Unrepeated(run) {
        ExecutionHolds(run);
      }
      match taskChannel.value {
        case TaskMessage(task) => TakeTask(task);
        case KillMessage => TakeKill();
      }
      Note(Cycle(Take));
    }

    method ReportError(message: string)
      requires Matches()
      modifies this`errors, this`model, if current == null then {} else {current}
      ensures Matches() && model == TaskProtocol.ReportError(old(model), message)
      ensures errors == old(errors) + [message]
      ensures current != null ==> current.errors == old(current.errors) + [message]
      ensures current != null ==> current.outcome == old(current.outcome)
      ensures current != null ==> current.isComplete == old(current.isComplete)
    {
      if current != null {
        current.errors := current.errors + [message];
        RecordUpdated(model.store.tasks, current);
      }
      errors := errors + [message];
      model := TaskProtocol.ReportError(model, message);
    }

    method SetOutcome(outcome: TaskOutcome)
      requires Matches() && current != null
      modifies this`model, current
      ensures Matches() && model == WithCurrentRecord(old(model), CurrentRecord(old(model)).(outcome := Some(outcome)))
      ensures current.outcome == Some(outcome) && current.errors == old(current.errors)
    {
      current.outcome := Some(outcome);
      RecordUpdated(model.store.tasks, current);
      SetModel(WithCurrentRecord(model, CurrentRecord(model).(outcome := Some(outcome))));
    }

    method FinishPlan(outcome: TaskOutcome)
      requires Valid() && model.at == Executing && current != null
      modifies this`errors, this`model, this`run, current
      ensures Valid() && run == old(run) + [Cycle(EndOfPlan(outcome))]
      ensures model == TaskProtocol.FinishPlan(old(model), outcome)
      ensures current.outcome == Some(outcome)
      ensures errors == old(errors) + Texts(outcome) && current.errors == old(current.errors) + Texts(outcome)
    {
      EndPlan(outcome);
      Note(Cycle(EndOfPlan(outcome)));
    }

    method EndPlan(outcome: TaskOutcome)
      requires Matches() && current != null
      modifies this`errors, this`model, current
      ensures Matches() && model == TaskProtocol.FinishPlan(old(model), outcome)
      ensures current.outcome == Some(outcome)
      ensures errors == old(errors) + Texts(outcome) && current.errors == old(current.errors) + Texts(outcome)
    {
      ghost var before := model;
      SetOutcome(outcome);
      ghost var told := model;
      if outcome.TaskError? {
        ReportError(outcome.message);
      }
      FinishInSteps(before, told, outcome);
      GoTo(Finishing, model.live, model.caller);
    }

    lemma FinishInSteps(s: State, told: State, outcome: TaskOutcome)
      requires told == WithCurrentRecord(s, CurrentRecord(s).(outcome := Some(outcome)))
      ensures TaskProtocol.FinishPlan(s, outcome) ==
              (if outcome.TaskError? then TaskProtocol.ReportError(told, outcome.message) else told).(at := Finishing)
    {
    }

    method MarkComplete()
      requires Valid() && model.at == Finishing
      modifies this`model, this`run, if current == null then {} else {current}
      ensures Valid() && run == old(run) + [Cycle(CycleStep.MarkComplete)] && model == MarkCurrent(old(model))
      ensures current != null ==> current.isComplete
    {
      if current != null {
        SetComplete();
        GoTo(Popping, model.live, model.caller);
      } else {
        GoTo(Reporting, model.live, model.caller);
      }
      Note(Cycle(CycleStep.MarkComplete));
    }

    method SetComplete()
      requires Matches() && current != null
      modifies this`model, current
      ensures Matches() && model == WithCurrentRecord(old(model), CurrentRecord(old(model)).(isComplete := true))
      ensures current.isComplete
    {
      current.isComplete := true;
      RecordUpdated(model.store.tasks, current);
      SetModel(WithCurrentRecord(model, CurrentRecord(model).(isComplete := true)));
    }

    method PopPending()
      requires Valid() && model.at == Popping && current != null
      modifies this`pendingTasks, this`errors, this`model, this`run, current
      ensures Valid() && run == old(run) + [Cycle(CycleStep.PopPending)] && model == PopCurrent(old(model))
      ensures pendingTasks == old(pendingTasks) - {current.id}
      ensures errors == old(errors) + if current.id in old(pendingTasks) then [] else ["'" + current.id.text + "'"]
    {
      PopOrRaise();
      Note(Cycle(CycleStep.PopPending));
    }

    method PopOrRaise()
      requires Matches() && current != null
      modifies this`pendingTasks, this`errors, this`model, current
      ensures Matches() && model == PopCurrent(old(model))
      ensures pendingTasks == old(pendingTasks) - {current.id}
      ensures errors == old(errors) + if current.id in old(pendingTasks) then [] else ["'" + current.id.text + "'"]
    {
      if current.id in pendingTasks {
        PopCurrentTask();
      } else {
        RaiseKeyError();
      }
    }

    method PopCurrentTask()
      requires Matches() && current != null && current.id in pendingTasks
      modifies this`pendingTasks, this`model
      ensures Matches() && model == PopCurrent(old(model)) && pendingTasks == old(pendingTasks) - {current.id}
    {
      RemoveCurrent();
      GoTo(Storing, model.live, model.caller);
    }

    method RaiseKeyError()
      requires Matches() && current != null && current.id !in pendingTasks
      modifies this`errors, this`model, current
      ensures Matches() && model == PopCurrent(old(model))
      ensures errors == old(errors) + ["'" + current.id.text + "'"]
    {
      ReportError("'" + current.id.text + "'");
      GoTo(LoopTop, model.live, model.caller);
    }

    method RemoveCurrent()
      requires Matches() && current != null && current.id in pendingTasks
      modifies this`pendingTasks, this`model
      ensures Matches() && pendingTasks == old(pendingTasks) - {current.id}
      ensures model == old(model).(store := old(model).store.(pending := old(model).store.pending - {current.id}))
    {
      pendingTasks := pendingTasks - {current.id};
      model := model.(store := model.store.(pending := model.store.pending - {current.id}));
      assert TasksAre(model.store);
    }

    method StoreCompleted()
      requires Valid() && model.at == Storing && current != null
      modifies this`completedTasks, this`model, this`run
      ensures Valid() && run == old(run) + [Cycle(CycleStep.StoreCompleted)] && model == StoreCurrent(old(model))
      ensures completedTasks == old(completedTasks)[current.id := current]
    {
      AddCompleted();
      GoTo(Reporting, model.live, model.caller);
      Note(Cycle(CycleStep.StoreCompleted));
    }

    method AddCompleted()
      requires Matches() && current != null
      modifies this`completedTasks, this`model
      ensures Matches() && completedTasks == old(completedTasks)[current.id := current]
      ensures model == old(model).(store := old(model).store.(completed := old(model).store.completed + {current.id}))
    {
      completedTasks := completedTasks[current.id := current];
      model := model.(store := model.store.(completed := model.store.completed + {current.id}));
      assert TasksAre(model.store);
    }

    /** Publishes the worker's status. */
    method ReportStatus()
      requires Matches()
      modifies this`published, this`model
      ensures Matches() && model == TaskProtocol.ReportStatus(old(model))
      ensures published == old(published) + [WorkerEvent(state, Status(), errors)]
    {
      var status := if current == null then None
                    else Some(TaskStatus(current.id, current.outcome, current.isComplete, current.errors != []));
      published := published + [WorkerEvent(state, status, errors)];
      model := TaskProtocol.ReportStatus(model);
    }

    method ReportCompletion(raised: Option<string>)
      requires Valid() && model.at == Reporting
      modifies this`published, this`errors, this`model, this`run, if current == null then {} else {current}
      ensures Valid() && run == old(run) + [Cycle(CycleStep.ReportCompletion(raised))]
      ensures model == ReportAtEnd(old(model), raised)
      ensures published == old(published) + [WorkerEvent(state, old(Status()), old(errors))]
      ensures errors == old(errors) + (if raised.Some? then [raised.value] else [])
      ensures model.at == if raised.Some? then LoopTop else Clearing
    {
      PublishAtEnd(raised);
      Note(Cycle(CycleStep.ReportCompletion(raised)));
    }

    method PublishAtEnd(raised: Option<string>)
      requires Matches()
      modifies this`published, this`errors, this`model, if current == null then {} else {current}
      ensures Matches() && model == ReportAtEnd(old(model), raised)
      ensures published == old(published) + [WorkerEvent(state, old(Status()), old(errors))]
      ensures errors == old(errors) + (if raised.Some? then [raised.value] else [])
      ensures model.at == if raised.Some? then LoopTop else Clearing
    {
      ReportStatus();
      if raised.Some? {
        ReportError(raised.value);
        GoTo(LoopTop, model.live, model.caller);
      } else {
        GoTo(Clearing, model.live, model.caller);
      }
    }

    method ClearErrors()
      requires Valid() && model.at == Clearing
      modifies this`errors, this`model, this`run
      ensures Valid() && run == old(run) + [Cycle(CycleStep.ClearErrors)]
      ensures model == old(model).(errors := [], at := LoopTop) && errors == []
    {
      ForgetErrors();
      GoTo(LoopTop, model.live, model.caller);
      Note(Cycle(CycleStep.ClearErrors));
    }

    method ForgetErrors()
      requires Matches()
      modifies this`errors, this`model
      ensures Matches() && model == old(model).(errors := [])
    {
      errors := [];
      model := model.(errors := []);
    }

    // ---------- the state hook ----------

    method OnStateChange(to: WorkerState)
      requires Valid()
      modifies this`state, this`published, this`model, this`run
      ensures Valid() && run == old(run) + [EngineChanges(to)] && model == Next(old(model), EngineChanges(to))
      ensures state == to && published == old(published) + [WorkerEvent(to, Status(), errors)]
    {
      SetState(to);
      ReportStatus();
      Note(EngineChanges(to));
    }

    method SetState(to: WorkerState)
      requires Matches()
      modifies this`state, this`model
      ensures Matches() && model == old(model).(engine := to) && state == to
    {
      state := to;
      model := model.(engine := to);
    }
  }
}
