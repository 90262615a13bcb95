/**
 What a state owes to the steps that led to it.  Everything here is read off the actions of a run one by one, and then
 shown to be what the worker's fields hold at its end.
 */
module TaskHistory {
  import opened Basics
  import opened WorkerEvents
  import opened TaskProtocol
  import opened TaskSafety
  import opened EventGrammar

  // ---------- what single actions say ----------

  /** The state the engine was last reported to be in. */
  ghost function EngineState(run: seq<Action>): WorkerState {
    if run == [] then IDLE
    else if run[|run| - 1].EngineChanges? then run[|run| - 1].to
    else EngineState(run[..|run| - 1])
  }

  /** What a plan came to, if the action is the end of one. */
  ghost function EndOf(a: Action): Option<TaskOutcome> {
    match a
    case Cycle(PlanReturns(v)) => Some(TaskResult(v))
    case Cycle(PlanRaises(k, m)) => Some(TaskError(k, m))
    case _ => None
  }

  /** The text of the exception that the action leads the worker to report. */
  ghost function ErrorOf(s: State, a: Action): Option<string> {
    match a
    case Cycle(PlanRaises(k, m)) => Some(m)
    case Cycle(ReportCompletion(raised)) => raised
    case Cycle(PopPending) =>
      if s.current.Some? && s.current.value !in s.store.pending then Some("'" + s.current.value.text + "'") else None
    case _ => None
  }

  ghost function AsTexts(text: Option<string>): seq<string> {
    if text.Some? then [text.value] else []
  }

  /** The begin that hands its task over: pending, not complete, the engine idle, and nothing in the channel. */
  ghost predicate HandsOver(s: State, a: Action) {
    && a.Call? && a.call.Begin?
    && a.call.id in s.store.pending && a.call.id in s.store.tasks && !s.store.tasks[a.call.id].isComplete
    && s.engine == IDLE && s.channel.None?
    && !(a.call.guarded && s.current.Some? && !CurrentRecord(s).isComplete)
  }

  // ---------- what whole runs say ----------

  /** What the plans executed for a task came to, in order. */
  ghost function PlanEnds(run: seq<Action>, id: TaskId): seq<TaskOutcome>
    requires IsRun(run)
  {
    if run == [] then []
    else
      var before, a := run[..|run| - 1], run[|run| - 1];
      PlanEnds(before, id) +
      if Final(before).current == Some(id) && EndOf(a).Some? then [EndOf(a).value] else []
  }

  ghost function PlanEnd(run: seq<Action>, id: TaskId): Option<TaskOutcome>
    requires IsRun(run)
  {
    var ends := PlanEnds(run, id);
    if ends == [] then None else Some(ends[|ends| - 1])
  }

  /** The errors reported while a task was current. */
  ghost function TaskErrors(run: seq<Action>, id: TaskId): seq<string>
    requires IsRun(run)
  {
    if run == [] then []
    else
      var before, a := run[..|run| - 1], run[|run| - 1];
      TaskErrors(before, id) + if Final(before).current == Some(id) then AsTexts(ErrorOf(Final(before), a)) else []
  }

  /** The errors reported since they were last cleared. */
  ghost function WorkerErrors(run: seq<Action>): seq<string>
    requires IsRun(run)
  {
    if run == [] then []
    else
      var before, a := run[..|run| - 1], run[|run| - 1];
      if a == Cycle(ClearErrors) then [] else WorkerErrors(before) + AsTexts(ErrorOf(Final(before), a))
  }

  /** The task was marked complete while it was current. */
  ghost predicate Marked(run: seq<Action>, id: TaskId)
    requires IsRun(run)
  {
    run != [] &&
    var before, a := run[..|run| - 1], run[|run| - 1];
    Marked(before, id) || (a == Cycle(MarkComplete) && Final(before).current == Some(id))
  }

  /** The tasks handed over by begins, in order. */
  ghost function HandedOver(run: seq<Action>): seq<TaskId>
    requires IsRun(run)
  {
    if run == [] then []
    else
      var before, a := run[..|run| - 1], run[|run| - 1];
      HandedOver(before) + if HandsOver(Final(before), a) then [a.call.id] else []
  }

  /** Submitted, and since then neither cleared nor popped at the end of its cycle. */
  ghost predicate InPending(run: seq<Action>, id: TaskId)
    requires IsRun(run)
  {
    run != [] &&
    var before, a := run[..|run| - 1], run[|run| - 1];
    || a == Call(Submit(id))
    || (InPending(before, id) && a != Call(Clear(id)) && !(a == Cycle(PopPending) && Final(before).current == Some(id)))
  }

  /** Stored at the end of its cycle, and not cleared since then. */
  ghost predicate InCompleted(run: seq<Action>, id: TaskId)
    requires IsRun(run)
  {
    run != [] &&
    var before, a := run[..|run| - 1], run[|run| - 1];
    || (a == Cycle(StoreCompleted) && Final(before).current == Some(id))
    || (InCompleted(before, id) && a != Call(Clear(id)))
  }

  /** What an event says of the current task. */
  ghost function CurrentStatus(run: seq<Action>): Option<TaskStatus>
    requires IsRun(run)
  {
    var current := Final(run).current;
    if current.None? then None
    else
      var id := current.value;
      Some(TaskStatus(id, PlanEnd(run, id), Marked(run, id), TaskErrors(run, id) != []))
  }

  /** The events: one for each state change, with the new state, and one for each report at the end of a cycle. */
  ghost function Events(run: seq<Action>): seq<WorkerEvent>
    requires IsRun(run)
  {
    if run == [] then []
    else
      var before, a := run[..|run| - 1], run[|run| - 1];
      match a
      case EngineChanges(to) => Events(before) + [WorkerEvent(to, CurrentStatus(before), WorkerErrors(before))]
      case Cycle(ReportCompletion(_)) =>
        Events(before) + [WorkerEvent(EngineState(before), CurrentStatus(before), WorkerErrors(before))]
      case _ => Events(before)
  }

  // ---------- single steps ----------

  lemma EngineStep(s: State, a: Action)
    requires Enabled(s, a)
    ensures Next(s, a).engine == if a.EngineChanges? then a.to else s.engine
  {
  }

  lemma ErrorsStep(s: State, a: Action)
    requires Enabled(s, a)
    ensures Next(s, a).errors == if a == Cycle(ClearErrors) then [] else s.errors + AsTexts(ErrorOf(s, a))
  {
    if a.Cycle? {
      ErrorsCycle(s, a.cycle);
    }
  }

  lemma ErrorsCycle(s: State, c: CycleStep)
    requires CycleEnabled(s, c)
    ensures AfterCycle(s, c).errors == if c == ClearErrors then [] else s.errors + AsTexts(ErrorOf(s, Cycle(c)))
  {
  }

  /** One task's record after a step. */
  ghost predicate RecordFollows(s: State, a: Action, id: TaskId) {
    var r, t := Record(s.store, id), Record(Next(s, a).store, id);
    var own := s.current == Some(id);
    && t.outcome == (if own && EndOf(a).Some? then EndOf(a) else r.outcome)
    && t.errors == r.errors + (if own then AsTexts(ErrorOf(s, a)) else [])
    && (t.isComplete <==> r.isComplete || (own && a == Cycle(MarkComplete)))
    && (t.isPending <==> r.isPending && !(TakesTask(s, a) && s.channel.value.id == id))
  }

  lemma RecordStep(s: State, a: Action, id: TaskId)
    requires KnownIds(s) && Enabled(s, a)
    ensures RecordFollows(s, a, id)
  {
    match a
    case Cycle(c) => RecordCycleStep(s, c, id);
    case _ => RecordOtherStep(s, a, id);
  }

  lemma RecordOtherStep(s: State, a: Action, id: TaskId)
    requires Enabled(s, a) && !a.Cycle?
    ensures RecordFollows(s, a, id)
  {
  }

  lemma RecordCycleStep(s: State, c: CycleStep, id: TaskId)
    requires KnownIds(s) && CycleEnabled(s, c)
    ensures RecordFollows(s, Cycle(c), id)
  {
    match c
    case PlanReturns(v) => RecordPlanEnd(s, c, TaskResult(v), id);
    case PlanRaises(k, m) => RecordPlanEnd(s, c, TaskError(k, m), id);
    case ReportCompletion(raised) => RecordReportEnd(s, raised, id);
    case _ =>
  }

  lemma RecordPlanEnd(s: State, c: CycleStep, outcome: TaskOutcome, id: TaskId)
    requires KnownIds(s) && CycleEnabled(s, c) && EndOf(Cycle(c)) == Some(outcome)
    ensures RecordFollows(s, Cycle(c), id)
  {
  }

  lemma RecordReportEnd(s: State, raised: Option<string>, id: TaskId)
    requires KnownIds(s) && s.at == Reporting
    ensures RecordFollows(s, Cycle(ReportCompletion(raised)), id)
  {
  }

  lemma LogStep(s: State, a: Action)
    requires Enabled(s, a)
    ensures Next(s, a).trace.log == s.trace.log +
            match a
            case EngineChanges(to) => [WorkerEvent(to, StatusEvent(s).taskStatus, s.errors)]
            case Cycle(ReportCompletion(_)) => [WorkerEvent(s.engine, StatusEvent(s).taskStatus, s.errors)]
            case _ => []
  {
    if a.Cycle? {
      LogCycle(s, a.cycle);
    }
  }

  lemma LogCycle(s: State, c: CycleStep)
    requires CycleEnabled(s, c)
    ensures AfterCycle(s, c).trace.log == s.trace.log +
            if c.ReportCompletion? then [WorkerEvent(s.engine, StatusEvent(s).taskStatus, s.errors)] else []
  {
  }

  ghost predicate PlacesFollow(s: State, a: Action, id: TaskId) {
    var own, t := s.current == Some(id), Next(s, a);
    && (id in t.store.pending <==>
          a == Call(Submit(id)) || (id in s.store.pending && a != Call(Clear(id)) && !(own && a == Cycle(PopPending))))
    && (id in t.store.completed <==>
          (own && a == Cycle(StoreCompleted)) || (id in s.store.completed && a != Call(Clear(id))))
  }

  lemma PlacesStep(s: State, a: Action, id: TaskId)
    requires ConservationInv(s) && Enabled(s, a)
    ensures PlacesFollow(s, a, id)
  {
    assert ConservedAt(s, id);
    match a
    case Call(c) => PlacesCall(s, c, id);
    case Cycle(c) => PlacesCycle(s, c, id);
    case _ =>
  }

  lemma PlacesCall(s: State, c: TaskCall, id: TaskId)
    requires ConservedAt(s, id) && Enabled(s, Call(c))
    ensures PlacesFollow(s, Call(c), id)
  {
  }

  lemma PlacesCycle(s: State, c: CycleStep, id: TaskId)
    requires KnownIds(s) && CycleEnabled(s, c)
    ensures PlacesFollow(s, Cycle(c), id)
  {
  }

  /** What waits in the channel. */
  ghost function Waiting(s: State): seq<TaskId> {
    if s.channel.Some? && s.channel.value.RunTask? then [s.channel.value.id] else []
  }

  lemma ChannelStep(s: State, a: Action)
    requires Enabled(s, a)
    ensures Next(s, a).trace.executed + Waiting(Next(s, a)) ==
            s.trace.executed + Waiting(s) + if HandsOver(s, a) then [a.call.id] else []
  {
    match a
    case Call(c) => ChannelCall(s, c);
    case Cycle(c) => ChannelCycle(s, c);
    case Control(c) => ChannelControl(s, c);
    case _ =>
  }

  lemma ChannelCall(s: State, c: TaskCall)
    ensures var t := AfterCall(s, c);
            && t.trace.executed == s.trace.executed
            && Waiting(t) == (if HandsOver(s, Call(c)) then [c.id] else Waiting(s))
            && (HandsOver(s, Call(c)) ==> Waiting(s) == [])
  {
  }

  lemma ChannelCycle(s: State, c: CycleStep)
    requires CycleEnabled(s, c)
    ensures AfterCycle(s, c).trace.executed + Waiting(AfterCycle(s, c)) == s.trace.executed + Waiting(s)
  {
  }

  lemma ChannelControl(s: State, c: ControlStep)
    requires ControlEnabled(s, c)
    ensures AfterControl(s, c).trace == s.trace && Waiting(AfterControl(s, c)) == Waiting(s)
  {
  }

  // ---------- whole runs ----------

  /** The engine's state is the one last reported. */
  lemma {:induction false} EngineHolds(run: seq<Action>)
    requires IsRun(run)
    ensures Final(run).engine == EngineState(run)
  {
    if run != [] {
      EngineHolds(run[..|run| - 1]);
      EngineStep(Final(run[..|run| - 1]), run[|run| - 1]);
    }
  }

  lemma {:induction false} ErrorsHold(run: seq<Action>)
    requires IsRun(run)
    ensures Final(run).errors == WorkerErrors(run)
  {
    if run != [] {
      ErrorsHold(run[..|run| - 1]);
      ErrorsStep(Final(run[..|run| - 1]), run[|run| - 1]);
    }
  }

  /** The task was handed to the engine. */
  ghost predicate Taken(run: seq<Action>, id: TaskId)
    requires IsRun(run)
  {
    run != [] &&
    var before, a := run[..|run| - 1], run[|run| - 1];
    Taken(before, id) || (TakesTask(Final(before), a) && Final(before).channel.value.id == id)
  }

  /** A task's record holds the outcome of its plan and the errors of its time, and whether it was taken and marked. */
  lemma {:induction false} RecordHolds(run: seq<Action>, id: TaskId)
    requires IsRun(run) && InTurn(run)
    ensures Record(Final(run).store, id) ==
            TaskRecord(!Taken(run, id), Marked(run, id), TaskErrors(run, id), PlanEnd(run, id))
  {
    if run != [] {
      var before, a := run[..|run| - 1], run[|run| - 1];
      RecordHolds(before, id);
      ConservationHolds(before);
      RecordStep(Final(before), a, id);
    }
  }

  /** Where a task is. */
  lemma {:induction false} PlacesHold(run: seq<Action>, id: TaskId)
    requires IsRun(run) && InTurn(run)
    ensures id in Final(run).store.pending <==> InPending(run, id)
    ensures id in Final(run).store.completed <==> InCompleted(run, id)
  {
    if run != [] {
      var before, a := run[..|run| - 1], run[|run| - 1];
      PlacesHold(before, id);
      ConservationHolds(before);
      PlacesStep(Final(before), a, id);
    }
  }

  /** The engine gets exactly the tasks handed over, in that order; the last may still be waiting. */
  lemma {:induction false} ChannelHolds(run: seq<Action>)
    requires IsRun(run)
    ensures HandedOver(run) == Final(run).trace.executed + Waiting(Final(run))
  {
    if run != [] {
      var before, a := run[..|run| - 1], run[|run| - 1];
      ChannelHolds(before);
      ChannelStep(Final(before), a);
    }
  }

  lemma StatusIs(s: State)
    ensures StatusEvent(s).taskStatus ==
            if s.current.None? then None
            else
              var r := Record(s.store, s.current.value);
              Some(TaskStatus(s.current.value, r.outcome, r.isComplete, r.errors != []))
  {
  }

  /** What is published is what the steps say: state, task status and errors of each event. */
  lemma {:induction false} LogHolds(run: seq<Action>)
    requires IsRun(run) && InTurn(run)
    ensures Final(run).trace.log == Events(run)
  {
    if run != [] {
      var before, a := run[..|run| - 1], run[|run| - 1];
      var s := Final(before);
      LogHolds(before);
      LogStep(s, a);
      EngineHolds(before);
      ErrorsHold(before);
      StatusIs(s);
      if s.current.Some? {
        RecordHolds(before, s.current.value);
      }
    }
  }

  // ---------- what follows ----------

  lemma CurrentStep(s: State, a: Action)
    requires Enabled(s, a)
    ensures Next(s, a).current == if TakesTask(s, a) then Some(s.channel.value.id) else s.current
  {
    if a.Cycle? {
      CurrentCycleStep(s, a.cycle);
    }
  }

  lemma CurrentCycleStep(s: State, c: CycleStep)
    requires CycleEnabled(s, c)
    ensures AfterCycle(s, c).current == if TakesTask(s, Cycle(c)) then Some(s.channel.value.id) else s.current
  {
  }

  /** The current task is the one taken last. */
  lemma {:induction false} CurrentHolds(run: seq<Action>)
    requires IsRun(run)
    ensures var done := Final(run).trace.executed;
            Final(run).current == if done == [] then None else Some(done[|done| - 1])
  {
    if run != [] {
      var before, a := run[..|run| - 1], run[|run| - 1];
      CurrentHolds(before);
      CurrentStep(Final(before), a);
      ExecutedGrows(Final(before), a);
    }
  }

  /** A task comes into the channel only by a begin made while the engine is idle. */
  lemma BegunWhenIdle(run: seq<Action>, a: Action)
    requires IsRun(run) && Enabled(Final(run), a)
    requires Waiting(Next(Final(run), a)) != [] && Waiting(Next(Final(run), a)) != Waiting(Final(run))
    ensures a.Call? && a.call.Begin? && EngineState(run) == IDLE && Waiting(Next(Final(run), a)) == [a.call.id]
    ensures a.call.id in Final(run).store.pending
  {
    EngineHolds(run);
    match a
    case Call(c) => ChannelCall(Final(run), c);
    case Cycle(c) => CycleEmptiesChannel(Final(run), c);
    case Control(c) => ChannelControl(Final(run), c);
    case _ =>
  }

  lemma CycleEmptiesChannel(s: State, c: CycleStep)
    requires CycleEnabled(s, c)
    ensures Waiting(AfterCycle(s, c)) == Waiting(s) || Waiting(AfterCycle(s, c)) == []
  {
  }

  /** What the last report at the end of a cycle raised. */
  ghost function LastReport(run: seq<Action>): Option<Option<string>> {
    if run == [] then None
    else if run[|run| - 1].Cycle? && run[|run| - 1].cycle.ReportCompletion? then Some(run[|run| - 1].cycle.raised)
    else LastReport(run[..|run| - 1])
  }

  lemma ClearingStep(s: State, a: Action)
    requires LifecycleInv(s) && Enabled(s, a) && Next(s, a).at == Clearing
    ensures s.at == Clearing || a == Cycle(ReportCompletion(None))
    ensures s.at == Clearing ==> !(a.Cycle? && a.cycle.ReportCompletion?)
  {
    if a.Cycle? {
      ClearingCycle(s, a.cycle);
    }
  }

  lemma ClearingCycle(s: State, c: CycleStep)
    requires CycleEnabled(s, c) && AfterCycle(s, c).at == Clearing
    ensures c == ReportCompletion(None)
  {
  }

  /** The errors are cleared only after a report whose subscribers raised nothing. */
  lemma {:induction false} ClearedAfterCleanReport(run: seq<Action>)
    requires IsRun(run) && InTurn(run) && Final(run).at == Clearing
    ensures LastReport(run) == Some(None)
  {
    var before, a := run[..|run| - 1], run[|run| - 1];
    LifecycleHolds(before);
    ClearingStep(Final(before), a);
    if Final(before).at == Clearing {
      ClearedAfterCleanReport(before);
    }
  }

  // ---------- each plan ends once ----------

  /** A task handed to the engine has an outcome unless it is being executed. */
  ghost predicate OutcomeInv(s: State, id: TaskId) {
    id in s.trace.executed ==> (Record(s.store, id).outcome == None <==> s.at == Executing && s.current == Some(id))
  }

  lemma OutcomeStep(s: State, a: Action, id: TaskId)
    requires Known(s) && RecordInv(s, id) && OutcomeInv(s, id) && Enabled(s, a) && !Repeats(s, a)
    ensures OutcomeInv(Next(s, a), id)
  {
    RecordStep(s, a, id);
    ExecutedGrows(s, a);
    CurrentStep(s, a);
    if a.Cycle? {
      ExecutingCycle(s, a.cycle);
    } else {
      ExecutingRest(s, a);
    }
    if TakesTask(s, a) {
      assert RecordInv(s, s.channel.value.id);
    }
  }

  lemma ExecutingCycle(s: State, c: CycleStep)
    requires CycleEnabled(s, c)
    ensures AfterCycle(s, c).at == Executing <==> TakesTask(s, Cycle(c))
    ensures s.at == Executing <==> EndOf(Cycle(c)).Some?
  {
  }

  lemma ExecutingRest(s: State, a: Action)
    requires LifecycleInv(s) && Enabled(s, a) && !a.Cycle?
    ensures Next(s, a).at == Executing <==> s.at == Executing
  {
    if !a.Call? {
      RestKeepsTasks(s, a);
    }
  }

  lemma {:induction false} OutcomeHolds(run: seq<Action>, id: TaskId)
    requires IsRun(run) && InTurn(run) && Unrepeated(run)
    ensures OutcomeInv(Final(run), id)
  {
    if run != [] {
      var before := run[..|run| - 1];
      OutcomeHolds(before, id);
      KnownHolds(before);
      assert RecordInv(Final(before), id);
      OutcomeStep(Final(before), run[|run| - 1], id);
    }
  }

  /** What an executed task's plan came to is one value: there is none before its end, and never a second one. */
  lemma {:induction false} PlanEndsOnce(run: seq<Action>, id: TaskId)
    requires IsRun(run) && InTurn(run) && Unrepeated(run)
    ensures |PlanEnds(run, id)| <= 1
    ensures PlanEnds(run, id) != [] <==>
            id in Final(run).trace.executed && !(Final(run).at == Executing && Final(run).current == Some(id))
  {
    RecordHolds(run, id);
    OutcomeHolds(run, id);
    ExecutionHolds(run);
    ConservationHolds(run);
    assert RecordInv(Final(run), id);
    if run != [] {
      var before, a := run[..|run| - 1], run[|run| - 1];
      PlanEndsOnce(before, id);
      if EndOf(a).Some? {
        ExecutingCycle(Final(before), a.cycle);
      }
    }
  }
}
