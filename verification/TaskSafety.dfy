/** What every interleaving of callers, worker thread and engine keeps. */
module TaskSafety {
  import opened Basics
  import opened WorkerEvents
  import opened TaskProtocol

  // ---------- one worker loop ----------

  ghost predicate InLoop(at: Location) {
    at.LoopTop? || at.Awaiting? || at.Executing? || at.Finishing?
    || at.Popping? || at.Storing? || at.Reporting? || at.Clearing?
  }

  ghost predicate MayBeStopping(at: Location) {
    InLoop(at) && !at.Awaiting? && !at.Executing?
  }

  /** The three Event flags are a function of where the worker thread is, and there is at most one such thread. */
  ghost predicate LifecycleInv(s: State) {
    && s.live == (if s.at == Dead then 0 else 1)
    && (s.flags.stopped <==> s.at == Dead || s.at == Spawned)
    && (s.flags.started <==> InLoop(s.at) || s.at == Leaving)
    && (s.flags.stopping ==> MayBeStopping(s.at) || s.at == Leaving || s.at == Unstarted)
    && (s.at == Leaving || s.at == Unstarted ==> s.flags.stopping)
  }

  lemma LifecycleStep(s: State, a: Action)
    requires LifecycleInv(s) && Enabled(s, a) && IsInTurn(s, a)
    ensures LifecycleInv(Next(s, a))
  {
  }

  lemma {:induction false} LifecycleHolds(run: seq<Action>)
    requires IsRun(run) && InTurn(run)
    ensures LifecycleInv(Final(run))
  {
    if |run| > 0 {
      LifecycleHolds(run[..|run| - 1]);
      LifecycleStep(Final(run[..|run| - 1]), run[|run| - 1]);
    }
  }

  // ---------- where tasks are ----------

  ghost function Count(b: bool): nat { if b then 1 else 0 }

  /** In how many of the places a task can be this id is; the last is the hand-over between the two dicts. */
  ghost function Places(s: State, id: TaskId): nat {
    Count(id in s.store.pending) + Count(id in s.store.completed)
    + Count(id in s.store.withdrawn) + Count(id in s.store.discarded)
    + Count(s.at == Storing && s.current == Some(id))
  }

  ghost predicate ConservedAt(s: State, id: TaskId) {
    Places(s, id) == Count(id in s.store.tasks)
  }

  ghost predicate KnownIds(s: State) {
    && (s.current.Some? ==> s.current.value in s.store.tasks)
    && (s.at == Executing || s.at == Popping || s.at == Storing ==> s.current.Some?)
    && (s.channel.Some? && s.channel.value.RunTask? ==> s.channel.value.id in s.store.tasks)
  }

  ghost predicate ConservationInv(s: State) {
    KnownIds(s) && forall id :: ConservedAt(s, id)
  }

  lemma ConservedCall(s: State, c: TaskCall, id: TaskId)
    requires ConservedAt(s, id) && Enabled(s, Call(c))
    ensures ConservedAt(AfterCall(s, c), id)
  {
  }

  lemma ConservedCycle(s: State, c: CycleStep, id: TaskId)
    requires ConservedAt(s, id) && KnownIds(s) && CycleEnabled(s, c)
    ensures ConservedAt(AfterCycle(s, c), id)
  {
  }

  lemma ConservedRest(s: State, a: Action, id: TaskId)
    requires ConservedAt(s, id) && LifecycleInv(s) && Enabled(s, a)
    requires a.Control? || a.Loop? || a.EngineChanges?
    ensures ConservedAt(Next(s, a), id)
  {
  }

  lemma KnownIdsCycle(s: State, c: CycleStep)
    requires KnownIds(s) && CycleEnabled(s, c)
    ensures KnownIds(AfterCycle(s, c))
  {
  }

  lemma KnownIdsCall(s: State, c: TaskCall)
    requires KnownIds(s) && Enabled(s, Call(c))
    ensures KnownIds(AfterCall(s, c))
  {
  }

  lemma KnownIdsControl(s: State, c: ControlStep)
    requires LifecycleInv(s) && KnownIds(s) && ControlEnabled(s, c)
    ensures KnownIds(AfterControl(s, c))
  {
  }

  lemma KnownIdsLoop(s: State, l: LoopStep)
    requires KnownIds(s) && LoopEnabled(s, l)
    ensures KnownIds(AfterLoop(s, l))
  {
  }

  lemma KnownIdsStep(s: State, a: Action)
    requires LifecycleInv(s) && KnownIds(s) && Enabled(s, a)
    ensures KnownIds(Next(s, a))
  {
    match a
    case Call(c) => KnownIdsCall(s, c);
    case Control(c) => KnownIdsControl(s, c);
    case Loop(l) => KnownIdsLoop(s, l);
    case Cycle(c) => KnownIdsCycle(s, c);
    case EngineChanges(_) =>
  }

  lemma ConservationStep(s: State, a: Action)
    requires LifecycleInv(s) && ConservationInv(s) && Enabled(s, a)
    ensures ConservationInv(Next(s, a))
  {
    KnownIdsStep(s, a);
    forall id ensures ConservedAt(Next(s, a), id) {
      match a
      case Call(c) => ConservedCall(s, c, id);
      case Cycle(c) => ConservedCycle(s, c, id);
      case _ => ConservedRest(s, a, id);
    }
  }

  lemma {:induction false} ConservationHolds(run: seq<Action>)
    requires IsRun(run) && InTurn(run)
    ensures ConservationInv(Final(run))
  {
    if |run| > 0 {
      var before := run[..|run| - 1];
      LifecycleHolds(before);
      ConservationHolds(before);
      ConservationStep(Final(before), run[|run| - 1]);
    }
  }

  // ---------- handed to the engine at most once ----------

  /**
   * A task the engine has not seen is as it was submitted; one it has finished with is complete;
   * only such are stored.
   */
  ghost predicate RecordInv(s: State, id: TaskId) {
    && (id in s.trace.executed ==> id in s.store.tasks)
    && (id in s.trace.executed && s.current != Some(id) ==> s.store.tasks[id].isComplete)
    && (id in s.store.tasks && id !in s.trace.executed ==> s.store.tasks[id] == NEW_TASK)
    && (id in s.store.completed || id in s.store.discarded ==> id in s.trace.executed)
  }

  ghost predicate CurrentInv(s: State) {
    && (s.current.None? <==> s.trace.executed == [])
    && (s.current.Some? ==> s.trace.executed[|s.trace.executed| - 1] == s.current.value)
    && (CurrentUnfinished(s) ==> (s.at == Executing || s.at == Finishing) && s.current.value !in s.store.completed)
    && (s.at == Executing ==> CurrentUnfinished(s))
    && (s.channel.Some? && s.channel.value.RunTask? ==>
          s.channel.value.id !in s.trace.executed)
  }

  ghost predicate ExecutionInv(s: State) {
    Distinct(s.trace.executed) && CurrentInv(s) && forall id :: RecordInv(s, id)
  }

  /** start, stop, the loop around _cycle and the state hook never touch a task. */
  lemma RestKeepsTasks(s: State, a: Action)
    requires LifecycleInv(s) && Enabled(s, a) && (a.Control? || a.Loop? || a.EngineChanges?)
    ensures Next(s, a).store == s.store && Next(s, a).current == s.current
    ensures Next(s, a).trace.executed == s.trace.executed && Next(s, a).trace.starts == s.trace.starts
    ensures Next(s, a).channel == s.channel || Next(s, a).channel == Some(KillSignal)
    ensures a.Control? || a.Loop? ==> Next(s, a).trace == s.trace
    ensures Next(s, a).at == Executing <==> s.at == Executing
    ensures Next(s, a).at == Finishing <==> s.at == Finishing
  {
  }

  lemma RecordCall(s: State, c: TaskCall, id: TaskId)
    requires RecordInv(s, id) && Enabled(s, Call(c))
    ensures RecordInv(AfterCall(s, c), id)
  {
  }

  lemma RecordTake(s: State, id: TaskId)
    requires CurrentInv(s) && RecordInv(s, id) && s.at == Awaiting && s.channel.Some?
    requires KnownIds(s)
    ensures RecordInv(TakeCommand(s), id)
  {
  }

  lemma RecordCycle(s: State, c: CycleStep, id: TaskId)
    requires CurrentInv(s) && RecordInv(s, id) && CycleEnabled(s, c) && c != Take
    ensures RecordInv(AfterCycle(s, c), id)
  {
    match c
    case PlanReturns(v) => RecordFinish(s, TaskResult(v), id);
    case PlanRaises(k, m) => RecordFinish(s, TaskError(k, m), id);
    case PopPending => RecordPop(s, id);
    case ReportCompletion(raised) => RecordReport(s, raised, id);
    case _ =>
  }

  lemma RecordFinish(s: State, outcome: TaskOutcome, id: TaskId)
    requires CurrentInv(s) && RecordInv(s, id) && s.at == Executing
    ensures RecordInv(FinishPlan(s, outcome), id)
  {
  }

  lemma RecordPop(s: State, id: TaskId)
    requires CurrentInv(s) && RecordInv(s, id)
    ensures RecordInv(PopCurrent(s), id)
  {
  }

  lemma RecordReport(s: State, raised: Option<string>, id: TaskId)
    requires CurrentInv(s) && RecordInv(s, id)
    ensures RecordInv(ReportAtEnd(s, raised), id)
  {
  }

  lemma CurrentCall(s: State, c: TaskCall)
    requires KnownIds(s) && ExecutionInv(s) && Enabled(s, Call(c)) && !Repeats(s, Call(c))
    ensures CurrentInv(AfterCall(s, c))
  {
    if c.Begin? {
      assert RecordInv(s, c.id);
    }
  }

  lemma CurrentTake(s: State)
    requires KnownIds(s) && ExecutionInv(s) && s.at == Awaiting && s.channel.Some?
    ensures CurrentInv(TakeCommand(s)) && Distinct(TakeCommand(s).trace.executed)
  {
    if s.channel.value.RunTask? {
      assert RecordInv(s, s.channel.value.id);
    }
  }

  lemma CurrentCycle(s: State, c: CycleStep)
    requires KnownIds(s) && CurrentInv(s) && CycleEnabled(s, c) && c != Take
    ensures CurrentInv(AfterCycle(s, c)) && AfterCycle(s, c).trace.executed == s.trace.executed
  {
  }

  lemma ExecutionRest(s: State, a: Action)
    requires LifecycleInv(s) && ExecutionInv(s) && Enabled(s, a) && (a.Control? || a.Loop? || a.EngineChanges?)
    ensures ExecutionInv(Next(s, a))
  {
    RestKeepsTasks(s, a);
    var t := Next(s, a);
    assert CurrentRecord(t) == CurrentRecord(s);
    forall id ensures RecordInv(t, id) {
      assert RecordInv(s, id);
    }
  }

  lemma ExecutionCycle(s: State, c: CycleStep)
    requires ConservationInv(s) && ExecutionInv(s) && CycleEnabled(s, c)
    ensures ExecutionInv(AfterCycle(s, c))
  {
    forall id ensures RecordInv(AfterCycle(s, c), id) {
      assert RecordInv(s, id);
      if c == Take {
        RecordTake(s, id);
      } else {
        RecordCycle(s, c, id);
      }
    }
    if c == Take {
      CurrentTake(s);
    } else {
      CurrentCycle(s, c);
    }
  }

  lemma ExecutionStep(s: State, a: Action)
    requires LifecycleInv(s) && ConservationInv(s) && ExecutionInv(s) && Enabled(s, a) && !Repeats(s, a)
    ensures ExecutionInv(Next(s, a))
  {
    match a
    case Call(c) =>
      CurrentCall(s, c);
      forall id ensures RecordInv(AfterCall(s, c), id) {
        RecordCall(s, c, id);
      }
    case Cycle(c) => ExecutionCycle(s, c);
    case _ => ExecutionRest(s, a);
  }

  lemma {:induction false} ExecutionHolds(run: seq<Action>)
    requires IsRun(run) && InTurn(run) && Unrepeated(run)
    ensures ExecutionInv(Final(run))
  {
    if |run| > 0 {
      var before := run[..|run| - 1];
      LifecycleHolds(before);
      ConservationHolds(before);
      ExecutionHolds(before);
      ExecutionStep(Final(before), run[|run| - 1]);
    }
  }
}
