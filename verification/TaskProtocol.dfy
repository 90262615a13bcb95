/**
 The protocol between the threads that call a TaskWorker and the thread that runs its loop
 (src/blueapi/worker/task_worker.py), as a state machine.  An action is one atomic step of one thread;
 a run is any sequence of enabled actions, so a statement about all runs is a statement about all interleavings.

 The RunEngine is an adversary: it may report any state at any time, and it returns or raises when it likes.
 */
module TaskProtocol {
  import opened Basics
  import opened WorkerEvents

  /** The mutable part of one TrackableTask.  Ids are fresh, so an id stands for the object. */
  datatype TaskRecord = TaskRecord(isPending: bool, isComplete: bool, errors: seq<string>, outcome: Option<TaskOutcome>)

  const NEW_TASK := TaskRecord(true, false, [], None)

  datatype Command = RunTask(id: TaskId) | KillSignal

  /** Where the thread that executes TaskWorker.run is. */
  datatype Location =
    | Dead        // no thread inside run
    | Spawned     // handed to the executor, before `_stopped.clear()`
    | Entering    // before `_started.set()`
    | LoopTop     // before `while not self._stopping.is_set()`
    | Awaiting    // in `_task_channel.get()`
    | Executing   // in `do_task`
    | Finishing   // at the test of `_current` after the try statement
    | Popping     // before the pop from `_pending_tasks`
    | Storing     // before the insertion into `_completed_tasks`
    | Reporting   // before `_report_status()`
    | Clearing    // before `_errors.clear()`
    | Leaving     // out of the loop, before `_started.clear()`
    | Unstarted   // before `_stopping.clear()`
    | Unstopping  // before `_stopped.set()`

  /** What the (serial) caller of start and stop is blocked on. */
  datatype Caller = NoCall | StartAwaitsStopped | StartAwaitsStarted | StopPutsKill | StopAwaitsStopped

  /** The two task dicts.  The last two sets are history: the ids cleared out of each of them. */
  datatype Store = Store(
    tasks: map<TaskId, TaskRecord>,   // every object ever submitted
    pending: set<TaskId>,             // keys of _pending_tasks
    completed: set<TaskId>,           // keys of _completed_tasks
    withdrawn: set<TaskId>,
    discarded: set<TaskId>)

  /** The three threading.Event objects. */
  datatype Flags = Flags(started: bool, stopping: bool, stopped: bool)

  /** History: what has been handed to the engine, and what has been published. */
  datatype Trace = Trace(
    executed: seq<TaskId>,
    starts: seq<nat>,                 // length of the log when each of them was taken
    log: seq<WorkerEvent>)

  datatype State = State(
    store: Store,
    current: Option<TaskId>,
    channel: Option<Command>,         // Queue(maxsize=1)
    engine: WorkerState,              // _state
    errors: seq<string>,
    flags: Flags,
    at: Location,
    live: nat,                        // threads inside run
    caller: Caller,
    trace: Trace)

  const INITIAL := State(Store(map[], {}, {}, {}, {}), None, None, IDLE, [], Flags(false, false, true), Dead, 0, NoCall,
                         Trace([], [], []))

  /** Calls that concern tasks. */
  datatype TaskCall =
    | Submit(id: TaskId)
    | Clear(id: TaskId)
    | Begin(id: TaskId, guarded: bool)

  /** Steps of the calls of start and stop. */
  datatype ControlStep =
    | CallStart | SpawnWorker | StartReturns | StartTimesOut
    | CallStop | PutKill | StopReturns
    | GiveUpWaitingForStop

  /** Steps of TaskWorker.run outside _cycle. */
  datatype LoopStep = ClearStopped | SetStarted | CheckStopping | ClearStarted | ClearStopping | SetStopped

  /** Steps of TaskWorker._cycle. */
  datatype CycleStep =
    | Take
    | PlanReturns(value: string)
    | PlanRaises(kind: string, message: string)
    | MarkComplete
    | PopPending
    | StoreCompleted
    | ReportCompletion(raised: Option<string>)
    | ClearErrors

  datatype Action =
    | Call(call: TaskCall)
    | Control(control: ControlStep)
    | Loop(loop: LoopStep)
    | Cycle(cycle: CycleStep)
    | EngineChanges(to: WorkerState)    // the engine's state hook

  // ---------- what each step does ----------

  function Record(st: Store, id: TaskId): TaskRecord {
    if id in st.tasks then st.tasks[id] else NEW_TASK
  }

  /** The record behind `_current`. */
  function CurrentRecord(s: State): TaskRecord {
    if s.current.Some? then Record(s.store, s.current.value) else NEW_TASK
  }

  function PutRecord(st: Store, id: TaskId, r: TaskRecord): Store {
    if id in st.tasks then st.(tasks := st.tasks[id := r]) else st
  }

  function WithCurrentRecord(s: State, r: TaskRecord): State {
    if s.current.Some? then s.(store := PutRecord(s.store, s.current.value, r)) else s
  }

  predicate CurrentUnfinished(s: State) {
    s.current.Some? && !CurrentRecord(s).isComplete
  }

  datatype BeginOutcome = AlreadyActive | NoPendingTask | EngineBusy | AlreadyRun | ChannelFull | HandedOver

  /** The API guard, then begin_task and _submit_trackable_task up to the put. */
  function BeginResult(s: State, id: TaskId, guarded: bool): BeginOutcome {
    if guarded && CurrentUnfinished(s) then AlreadyActive
    else if id !in s.store.pending || id !in s.store.tasks then NoPendingTask
    else if s.engine != IDLE then EngineBusy
    else if s.store.tasks[id].isComplete then AlreadyRun
    else if s.channel.Some? then ChannelFull
    else HandedOver
  }

  function Cleared(st: Store, id: TaskId): Store {
    if id in st.pending then st.(pending := st.pending - {id}, withdrawn := st.withdrawn + {id})
    else if id in st.completed then st.(completed := st.completed - {id}, discarded := st.discarded + {id})
    else st
  }

  /** _report_error */
  function ReportError(s: State, message: string): State {
    WithCurrentRecord(s, CurrentRecord(s).(errors := CurrentRecord(s).errors + [message]))
      .(errors := s.errors + [message])
  }

  /** The event _report_status builds. */
  function StatusEvent(s: State): WorkerEvent {
    WorkerEvent(s.engine,
                if s.current.Some? then
                  var r := CurrentRecord(s);
                  Some(TaskStatus(s.current.value, r.outcome, r.isComplete, r.errors != []))
                else None,
                s.errors)
  }

  function ReportStatus(s: State): State {
    s.(trace := s.trace.(log := s.trace.log + [StatusEvent(s)]))
  }

  function TakeTask(s: State, id: TaskId): State {
    s.(store := PutRecord(s.store, id, Record(s.store, id).(isPending := false)),
       current := Some(id), channel := None, at := Executing,
       trace := Trace(s.trace.executed + [id], s.trace.starts + [|s.trace.log|], s.trace.log))
  }

  function TakeCommand(s: State): State {
    match s.channel
    case Some(RunTask(id)) => TakeTask(s, id)
    case Some(KillSignal) => s.(channel := None, flags := s.flags.(stopping := true), at := Finishing)
    case None => s
  }

  /** str(KeyError(id)) */
  function KeyErrorText(id: TaskId): string { "'" + id.text + "'" }

  function PopCurrent(s: State): State {
    if s.current.None? then s
    else if s.current.value in s.store.pending
    then s.(store := s.store.(pending := s.store.pending - {s.current.value}), at := Storing)
    else ReportError(s, KeyErrorText(s.current.value)).(at := LoopTop)
  }

  function FinishPlan(s: State, outcome: TaskOutcome): State {
    var t := WithCurrentRecord(s, CurrentRecord(s).(outcome := Some(outcome)));
    (if outcome.TaskError? then ReportError(t, outcome.message) else t).(at := Finishing)
  }

  function MarkCurrent(s: State): State {
    if s.current.None? then s.(at := Reporting)
    else WithCurrentRecord(s, CurrentRecord(s).(isComplete := true)).(at := Popping)
  }

  function StoreCurrent(s: State): State {
    if s.current.None? then s
    else s.(store := s.store.(completed := s.store.completed + {s.current.value}), at := Reporting)
  }

  /** `raised` is what publish raised after delivering the event, if some subscriber raised. */
  function ReportAtEnd(s: State, raised: Option<string>): State {
    var t := ReportStatus(s);
    if raised.Some? then ReportError(t, raised.value).(at := LoopTop) else t.(at := Clearing)
  }

  function AddTask(s: State, id: TaskId): State {
    s.(store := s.store.(tasks := s.store.tasks[id := NEW_TASK], pending := s.store.pending + {id}))
  }

  // ---------- the machine ----------

  predicate ControlEnabled(s: State, c: ControlStep) {
    match c
    case CallStart => s.caller == NoCall
    case SpawnWorker => s.caller == StartAwaitsStopped && s.flags.stopped
    case StartReturns => s.caller == StartAwaitsStarted && s.flags.started
    case StartTimesOut => s.caller == StartAwaitsStarted && !s.flags.started
    case CallStop => s.caller == NoCall
    case PutKill => s.caller == StopPutsKill && s.channel.None?
    case StopReturns => s.caller == StopAwaitsStopped && s.flags.stopped
    case GiveUpWaitingForStop => (s.caller == StartAwaitsStopped || s.caller == StopAwaitsStopped) && !s.flags.stopped
  }

  predicate LoopEnabled(s: State, l: LoopStep) {
    match l
    case ClearStopped => s.at == Spawned
    case SetStarted => s.at == Entering
    case CheckStopping => s.at == LoopTop
    case ClearStarted => s.at == Leaving
    case ClearStopping => s.at == Unstarted
    case SetStopped => s.at == Unstopping
  }

  predicate CycleEnabled(s: State, c: CycleStep) {
    match c
    case Take => s.at == Awaiting && s.channel.Some?
    case PlanReturns(_) => s.at == Executing
    case PlanRaises(_, _) => s.at == Executing
    case MarkComplete => s.at == Finishing
    case PopPending => s.at == Popping
    case StoreCompleted => s.at == Storing
    case ReportCompletion(_) => s.at == Reporting
    case ClearErrors => s.at == Clearing
  }

  predicate Enabled(s: State, a: Action) {
    match a
    case Call(Submit(id)) => id !in s.store.tasks
    case Call(_) => true
    case Control(c) => ControlEnabled(s, c)
    case Loop(l) => LoopEnabled(s, l)
    case Cycle(c) => CycleEnabled(s, c)
    case EngineChanges(_) => true
  }

  function AfterCall(s: State, c: TaskCall): State {
    match c
    case Submit(id) => AddTask(s, id)
    case Clear(id) => s.(store := Cleared(s.store, id))
    case Begin(id, guarded) => if BeginResult(s, id, guarded) == HandedOver then s.(channel := Some(RunTask(id))) else s
  }

  function AfterControl(s: State, c: ControlStep): State {
    match c
    case CallStart => if s.flags.started then s else s.(caller := StartAwaitsStopped)
    case SpawnWorker => s.(live := s.live + 1, at := Spawned, caller := StartAwaitsStarted)
    case CallStop => s.(caller := if s.flags.started then StopPutsKill else StopAwaitsStopped)
    case PutKill => s.(channel := Some(KillSignal), caller := StopAwaitsStopped)
    case StartReturns | StartTimesOut | StopReturns | GiveUpWaitingForStop => s.(caller := NoCall)
  }

  function AfterLoop(s: State, l: LoopStep): State {
    match l
    case ClearStopped => s.(flags := s.flags.(stopped := false), at := Entering)
    case SetStarted => s.(flags := s.flags.(started := true), at := LoopTop)
    case CheckStopping => s.(at := if s.flags.stopping then Leaving else Awaiting)
    case ClearStarted => s.(flags := s.flags.(started := false), at := Unstarted)
    case ClearStopping => s.(flags := s.flags.(stopping := false), at := Unstopping)
    case SetStopped => s.(flags := s.flags.(stopped := true), at := Dead, live := if s.live == 0 then 0 else s.live - 1)
  }

  function AfterCycle(s: State, c: CycleStep): State {
    match c
    case Take => TakeCommand(s)
    case PlanReturns(v) => FinishPlan(s, TaskResult(v))
    case PlanRaises(k, m) => FinishPlan(s, TaskError(k, m))
    case MarkComplete => MarkCurrent(s)
    case PopPending => PopCurrent(s)
    case StoreCompleted => StoreCurrent(s)
    case ReportCompletion(raised) => ReportAtEnd(s, raised)
    case ClearErrors => s.(errors := [], at := LoopTop)
  }

  function Next(s: State, a: Action): State {
    match a
    case Call(c) => AfterCall(s, c)
    case Control(c) => AfterControl(s, c)
    case Loop(l) => AfterLoop(s, l)
    case Cycle(c) => AfterCycle(s, c)
    case EngineChanges(to) => ReportStatus(s.(engine := to))
  }

  // ---------- runs ----------

  /** The state in which a run ends, or None if some action was not enabled. */
  function Execute(run: seq<Action>): Option<State> {
    if |run| == 0 then Some(INITIAL) else
    match Execute(run[..|run| - 1])
    case None => None
    case Some(s) => if Enabled(s, run[|run| - 1]) then Some(Next(s, run[|run| - 1])) else None
  }

  predicate IsRun(run: seq<Action>) {
    Execute(run).Some?
  }

  function Final(run: seq<Action>): State
    requires IsRun(run)
  {
    Execute(run).value
  }

  /** No thread is spawned while the one spawned before it has not even cleared `_stopped`. */
  predicate InTurn(run: seq<Action>)
    requires IsRun(run)
  {
    |run| == 0 || (InTurn(run[..|run| - 1]) && IsInTurn(Final(run[..|run| - 1]), run[|run| - 1]))
  }

  predicate IsInTurn(s: State, a: Action) {
    a == Control(SpawnWorker) ==> s.at != Spawned
  }

  /** The begin hands over the task that the worker is still busy with. */
  predicate Repeats(s: State, a: Action) {
    && a.Call? && a.call.Begin? && BeginResult(s, a.call.id, a.call.guarded) == HandedOver
    && s.current == Some(a.call.id) && CurrentUnfinished(s)
  }

  predicate Unrepeated(run: seq<Action>)
    requires IsRun(run)
  {
    |run| == 0 || (Unrepeated(run[..|run| - 1]) && !Repeats(Final(run[..|run| - 1]), run[|run| - 1]))
  }

  /** Every begin passed the API's check of the active task in the same atomic step. */
  predicate Guarded(run: seq<Action>) {
    forall a :: a in run && a.Call? && a.call.Begin? ==> a.call.guarded
  }

  /** The engine reports no state while this task is the current one and already marked complete. */
  predicate Quiet(run: seq<Action>, id: TaskId)
    requires IsRun(run)
  {
    |run| == 0 || (Quiet(run[..|run| - 1], id) && !Disturbs(Final(run[..|run| - 1]), run[|run| - 1], id))
  }

  predicate Disturbs(s: State, a: Action, id: TaskId) {
    a.EngineChanges? && s.current == Some(id) && CurrentRecord(s).isComplete
  }
}
