/**
 The grammar of the worker's event stream: a prelude without task, then one contiguous block per task handed to the
 engine, its events all about that task.  A block ends as it should exactly if the engine reported no state while its
 task was current and already marked complete.
 */
module EventGrammar {
  import opened Basics
  import opened WorkerEvents
  import opened TaskProtocol
  import opened TaskSafety

  // ---------- the shape of a log ----------

  /** Where block k begins in the log; the block after the last one begins at the end. */
  ghost function BlockStart(tr: Trace, k: nat): nat {
    if k < |tr.starts| then tr.starts[k] else |tr.log|
  }

  ghost predicate Ordered(tr: Trace) {
    && |tr.starts| == |tr.executed|
    && (forall k :: 0 <= k < |tr.starts| ==> BlockStart(tr, k) <= BlockStart(tr, k + 1))
    && (forall k :: 0 <= k < |tr.starts| ==> tr.starts[k] <= |tr.log|)
  }

  ghost predicate Prelude(tr: Trace) {
    forall i :: 0 <= i < BlockStart(tr, 0) && i < |tr.log| ==> tr.log[i].taskStatus.None?
  }

  ghost predicate InBlock(tr: Trace, k: nat, i: nat) {
    BlockStart(tr, k) <= i < BlockStart(tr, k + 1) && i < |tr.log|
  }

  /** Every event of block k concerns its task. */
  ghost predicate Belongs(tr: Trace, k: nat)
    requires k < |tr.executed|
  {
    forall i: nat :: InBlock(tr, k, i) ==> tr.log[i].Concerns(tr.executed[k])
  }

  ghost predicate Shape(tr: Trace) {
    Ordered(tr) && Prelude(tr) && forall k :: 0 <= k < |tr.executed| ==> Belongs(tr, k)
  }

  /** Only the last event of block k may report completion. */
  ghost predicate CompletesLast(tr: Trace, k: nat) {
    forall i: nat :: InBlock(tr, k, i) && tr.log[i].IsComplete() ==> i == BlockStart(tr, k + 1) - 1
  }

  ghost predicate EndsComplete(tr: Trace, k: nat)
    requires BlockStart(tr, k + 1) <= |tr.log|
  {
    BlockStart(tr, k) < BlockStart(tr, k + 1) && tr.log[BlockStart(tr, k + 1) - 1].IsComplete()
  }

  /** What the completion event of a task says once the plan's outcome is known. */
  ghost function FinalStatus(id: TaskId, outcome: Option<TaskOutcome>): TaskStatus {
    TaskStatus(id, outcome, true, outcome.Some? && outcome.value.TaskError?)
  }

  // ---------- the invariant ----------

  /** The cycle of the current task has not yet decided whether there will be a completion event. */
  ghost predicate Open(s: State) {
    s.current.Some? && (
      || s.at == Executing
      || (s.at == Finishing && CurrentUnfinished(s))
      || (s.at == Popping && s.current.value in s.store.pending)
      || s.at == Storing
      || s.at == Reporting)
  }

  ghost predicate OpenBlock(s: State, k: nat) {
    Open(s) && k == |s.trace.executed| - 1
  }

  ghost predicate OutcomeKnown(r: TaskRecord) {
    r.outcome.Some? && (r.errors != [] <==> r.outcome.value.TaskError?)
  }

  ghost predicate OpenInv(s: State) {
    && (s.at == Executing ==> CurrentRecord(s) == NEW_TASK.(isPending := false))
    && (Open(s) && s.at != Executing ==> OutcomeKnown(CurrentRecord(s)))
    && (s.at == Executing || (s.at == Finishing && Open(s)) ==>
          s.current.value in s.store.pending || s.current.value in s.store.withdrawn)
    && (s.at == Reporting && s.current.Some? ==>
          s.current.value !in s.store.withdrawn && s.current.value !in s.store.pending)
  }

  ghost predicate PendingInv(s: State, id: TaskId) {
    id in s.trace.executed && id in s.store.pending ==> s.current == Some(id) && Open(s)
  }

  /** Everything known about a state of any run. */
  ghost predicate Known(s: State) {
    && LifecycleInv(s) && ConservationInv(s) && ExecutionInv(s)
    && OpenInv(s) && (forall id :: PendingInv(s, id)) && Shape(s.trace)
  }

  /**
   * Block k is as it should be: one completion event, at its end and with the plan's outcome, exactly if its cycle has
   * decided and the task was not cleared while it was pending.
   */
  ghost predicate FollowsGrammar(s: State, k: nat)
    requires k < |s.trace.executed| && BlockStart(s.trace, k + 1) <= |s.trace.log|
  {
    var id := s.trace.executed[k];
    && CompletesLast(s.trace, k)
    && (EndsComplete(s.trace, k) <==> !OpenBlock(s, k) && id !in s.store.withdrawn)
    && (EndsComplete(s.trace, k) ==>
          id in s.store.tasks && s.store.tasks[id].outcome.Some? &&
          s.trace.log[BlockStart(s.trace, k + 1) - 1].taskStatus == Some(FinalStatus(id, s.store.tasks[id].outcome)))
  }

  /** Block k has a completion event too many: another one, or one whose task is still open or was cleared. */
  ghost predicate Broken(s: State, k: nat)
    requires k < |s.trace.executed|
  {
    exists i: nat :: InBlock(s.trace, k, i) && s.trace.log[i].IsComplete() &&
      (OpenBlock(s, k) || s.trace.executed[k] in s.store.withdrawn
       || exists j: nat :: j != i && InBlock(s.trace, k, j) && s.trace.log[j].IsComplete())
  }

  lemma BrokenIsNotKept(s: State, k: nat)
    requires k < |s.trace.executed| && BlockStart(s.trace, k + 1) <= |s.trace.log| && Broken(s, k)
    ensures !FollowsGrammar(s, k)
  {
  }

  lemma CurrentIsExecuted(s: State)
    requires CurrentInv(s) && s.current.Some?
    ensures s.current.value in s.trace.executed
  {
    assert s.trace.executed[|s.trace.executed| - 1] == s.current.value;
  }

  // ---------- steps that publish nothing ----------

  ghost predicate SameBlock(tr: Trace, tr': Trace, k: nat)
    requires k < |tr.executed|
  {
    && k < |tr'.executed| && tr'.executed[k] == tr.executed[k] && tr.log <= tr'.log
    && BlockStart(tr', k) == BlockStart(tr, k) && BlockStart(tr', k + 1) == BlockStart(tr, k + 1) <= |tr.log|
  }

  /** As far as block k goes, a step leaves the log alone and undoes nothing that was decided. */
  ghost predicate LeavesBlock(s: State, t: State, k: nat)
    requires k < |s.trace.executed|
  {
    var id := s.trace.executed[k];
    && SameBlock(s.trace, t.trace, k)
    && (OpenBlock(t, k) ==> OpenBlock(s, k))
    && (OpenBlock(s, k) ==> OpenBlock(t, k) || id in t.store.withdrawn)
    && (id in s.store.withdrawn ==> id in t.store.withdrawn)
    && (!OpenBlock(s, k) ==>
          && (id in t.store.withdrawn ==> id in s.store.withdrawn)
          && (id in s.store.tasks ==> id in t.store.tasks && t.store.tasks[id].outcome == s.store.tasks[id].outcome))
  }

  lemma SameEvents(tr: Trace, tr': Trace, k: nat)
    requires k < |tr.executed| && SameBlock(tr, tr', k)
    ensures forall i: nat :: InBlock(tr', k, i) <==> InBlock(tr, k, i)
    ensures forall i: nat :: InBlock(tr, k, i) ==> tr'.log[i] == tr.log[i]
  {
  }

  lemma BlockLeft(s: State, t: State, k: nat)
    requires k < |s.trace.executed| && LeavesBlock(s, t, k)
    ensures FollowsGrammar(s, k) ==> FollowsGrammar(t, k)
    ensures Broken(s, k) ==> Broken(t, k)
  {
    SameEvents(s.trace, t.trace, k);
    if Broken(s, k) {
      BrokenLeft(s, t, k);
    }
  }

  lemma BrokenLeft(s: State, t: State, k: nat)
    requires k < |s.trace.executed| && LeavesBlock(s, t, k) && Broken(s, k)
    ensures Broken(t, k)
  {
    SameEvents(s.trace, t.trace, k);
    var i: nat :| InBlock(s.trace, k, i) && s.trace.log[i].IsComplete() &&
      (OpenBlock(s, k) || s.trace.executed[k] in s.store.withdrawn
       || exists j: nat :: j != i && InBlock(s.trace, k, j) && s.trace.log[j].IsComplete());
    assert InBlock(t.trace, k, i) && t.trace.log[i].IsComplete();
    if j: nat :| j != i && InBlock(s.trace, k, j) && s.trace.log[j].IsComplete() {
      assert InBlock(t.trace, k, j) && t.trace.log[j].IsComplete();
    }
  }

  /** What such a step does to everything else. */
  ghost predicate Silent(s: State, t: State) {
    && t.trace == s.trace && OpenInv(t) && (forall id :: PendingInv(t, id))
    && forall k :: 0 <= k < |s.trace.executed| ==> LeavesBlock(s, t, k)
  }

  /** The part of a state that the blocks depend on, except for what is open. */
  ghost predicate SameBlocks(s: State, t: State) {
    && t.trace == s.trace && t.current == s.current
    && t.store.withdrawn == s.store.withdrawn
    && t.store.tasks.Keys == s.store.tasks.Keys
    && (forall id :: id in s.store.tasks ==> t.store.tasks[id].outcome == s.store.tasks[id].outcome)
  }

  lemma SilentFrame(s: State, t: State)
    requires Known(s) && SameBlocks(s, t) && OpenInv(t)
    requires Open(t) ==> Open(s)
    requires Open(s) && !Open(t) ==> s.current.value in s.store.withdrawn
    requires t.store.pending <= s.store.pending
    ensures Silent(s, t)
  {
    forall id ensures PendingInv(t, id) {
      assert PendingInv(s, id) && ConservedAt(s, id);
    }
  }

  ghost function AfterClear(s: State, id: TaskId): State {
    s.(store := Cleared(s.store, id))
  }

  lemma ClearKeepsOpen(s: State, id: TaskId)
    requires OpenInv(s) && ConservationInv(s)
    ensures OpenInv(AfterClear(s, id))
    ensures Open(AfterClear(s, id)) <==> Open(s) && !(s.at == Popping && s.current == Some(id))
  {
    if s.current.Some? {
      assert ConservedAt(s, s.current.value);
    }
  }

  lemma ClearLeavesBlock(s: State, id: TaskId, k: nat)
    requires Known(s) && k < |s.trace.executed|
    ensures LeavesBlock(s, AfterClear(s, id), k)
  {
    ClearKeepsOpen(s, id);
    assert ConservedAt(s, s.trace.executed[k]) && PendingInv(s, s.trace.executed[k]);
    if k < |s.trace.executed| - 1 {
      assert s.current != Some(s.trace.executed[k]);
    }
  }

  lemma ClearIsSilent(s: State, id: TaskId)
    requires Known(s)
    ensures Silent(s, AfterClear(s, id))
  {
    ClearKeepsOpen(s, id);
    forall other ensures PendingInv(AfterClear(s, id), other) {
      assert PendingInv(s, other);
    }
    forall k | 0 <= k < |s.trace.executed| ensures LeavesBlock(s, AfterClear(s, id), k) {
      ClearLeavesBlock(s, id, k);
    }
  }

  lemma SubmitIsSilent(s: State, id: TaskId)
    requires Known(s) && id !in s.store.tasks
    ensures Silent(s, AddTask(s, id))
  {
    var t := AddTask(s, id);
    assert CurrentRecord(t) == CurrentRecord(s);
    assert Open(t) <==> Open(s) by {
      assert ConservedAt(s, id);
    }
    forall other ensures PendingInv(t, other) {
      assert PendingInv(s, other) && RecordInv(s, other);
    }
    forall k | 0 <= k < |s.trace.executed| ensures LeavesBlock(s, t, k) {
      assert RecordInv(s, s.trace.executed[k]);
    }
  }

  lemma BeginIsSilent(s: State, id: TaskId, guarded: bool)
    requires Known(s)
    ensures Silent(s, AfterCall(s, Begin(id, guarded)))
  {
    var t := s.(channel := Some(RunTask(id)));
    assert CurrentRecord(t) == CurrentRecord(s);
    assert Open(t) <==> Open(s);
    SilentFrame(s, t);
    SilentFrame(s, s);
  }

  lemma RestIsSilent(s: State, a: Action)
    requires Known(s) && Enabled(s, a) && (a.Control? || a.Loop?)
    ensures Silent(s, Next(s, a))
  {
    RestKeepsTasks(s, a);
    var t := Next(s, a);
    assert (!Open(s) && !Open(t)) || (t.at == s.at && CurrentRecord(t) == CurrentRecord(s));
    SilentFrame(s, t);
  }

  lemma FinishPlanOpens(s: State, outcome: TaskOutcome)
    requires OpenInv(s) && KnownIds(s) && s.at == Executing
    requires CurrentUnfinished(s)
    ensures var t := FinishPlan(s, outcome);
            OpenInv(t) && Open(t) && t.trace == s.trace && t.current == s.current && t.store.pending == s.store.pending
  {
  }

  /** The outcome only matters to a block that ends in a completion event, and this one is still open. */
  lemma FinishPlanIsSilent(s: State, outcome: TaskOutcome)
    requires Known(s) && s.at == Executing
    ensures Silent(s, FinishPlan(s, outcome))
  {
    var t := FinishPlan(s, outcome);
    FinishPlanOpens(s, outcome);
    forall id ensures PendingInv(t, id) {
      assert PendingInv(s, id);
    }
    forall k | 0 <= k < |s.trace.executed| ensures LeavesBlock(s, t, k) {
      assert k < |s.trace.executed| - 1 ==> s.current != Some(s.trace.executed[k]);
    }
  }

  lemma MarkCompleteIsSilent(s: State)
    requires Known(s) && s.at == Finishing
    ensures Silent(s, MarkCurrent(s))
  {
    if s.current.Some? {
      CurrentIsExecuted(s);
      assert PendingInv(s, s.current.value) && ConservedAt(s, s.current.value);
    }
    SilentFrame(s, MarkCurrent(s));
  }

  lemma PopIsSilent(s: State)
    requires Known(s) && s.at == Popping
    ensures Silent(s, PopCurrent(s))
  {
    assert ConservedAt(s, s.current.value);
    SilentFrame(s, PopCurrent(s));
  }

  lemma StoreIsSilent(s: State)
    requires Known(s) && s.at == Storing
    ensures Silent(s, StoreCurrent(s))
  {
    assert ConservedAt(s, s.current.value);
    SilentFrame(s, StoreCurrent(s));
  }

  ghost predicate Publishes(s: State, a: Action) {
    a.EngineChanges? || (a.Cycle? && a.cycle.ReportCompletion?)
  }

  ghost predicate TakesTask(s: State, a: Action) {
    a == Cycle(Take) && s.channel.Some? && s.channel.value.RunTask?
  }

  lemma CycleIsSilent(s: State, c: CycleStep)
    requires Known(s) && CycleEnabled(s, c) && !c.ReportCompletion? && !TakesTask(s, Cycle(c))
    ensures Silent(s, AfterCycle(s, c))
  {
    match c
    case Take => SilentFrame(s, TakeCommand(s));
    case PlanReturns(v) => FinishPlanIsSilent(s, TaskResult(v));
    case PlanRaises(k, m) => FinishPlanIsSilent(s, TaskError(k, m));
    case MarkComplete => MarkCompleteIsSilent(s);
    case PopPending => PopIsSilent(s);
    case StoreCompleted => StoreIsSilent(s);
    case ClearErrors => SilentFrame(s, AfterCycle(s, c));
  }

  lemma OthersAreSilent(s: State, a: Action)
    requires Known(s) && Enabled(s, a) && !Publishes(s, a) && !TakesTask(s, a)
    ensures Silent(s, Next(s, a))
  {
    match a
    case Call(Clear(id)) => ClearIsSilent(s, id);
    case Call(Submit(id)) => SubmitIsSilent(s, id);
    case Call(Begin(id, guarded)) => BeginIsSilent(s, id, guarded);
    case Control(_) => RestIsSilent(s, a);
    case Loop(_) => RestIsSilent(s, a);
    case Cycle(c) => CycleIsSilent(s, c);
  }

  // ---------- taking a task opens a block ----------

  lemma TakeKeepsOrder(tr: Trace, id: TaskId)
    requires Ordered(tr) && Prelude(tr)
    ensures var tr' := Trace(tr.executed + [id], tr.starts + [|tr.log|], tr.log); Ordered(tr') && Prelude(tr')
  {
    var tr' := Trace(tr.executed + [id], tr.starts + [|tr.log|], tr.log);
    forall k | 0 <= k < |tr'.starts| ensures BlockStart(tr', k) <= BlockStart(tr', k + 1) {
      assert k < |tr.starts| ==> BlockStart(tr, k) <= BlockStart(tr, k + 1);
    }
  }

  lemma TakeKeepsSame(tr: Trace, id: TaskId, k: nat)
    requires Ordered(tr) && k < |tr.executed|
    ensures SameBlock(tr, Trace(tr.executed + [id], tr.starts + [|tr.log|], tr.log), k)
  {
  }

  lemma TakeKeepsShape(tr: Trace, id: TaskId)
    requires Shape(tr)
    ensures Shape(Trace(tr.executed + [id], tr.starts + [|tr.log|], tr.log))
  {
    var tr' := Trace(tr.executed + [id], tr.starts + [|tr.log|], tr.log);
    TakeKeepsOrder(tr, id);
    forall k | 0 <= k < |tr'.executed| ensures Belongs(tr', k) {
      if k < |tr.executed| {
        TakeKeepsSame(tr, id, k);
        SameEvents(tr, tr', k);
        assert Belongs(tr, k);
      }
    }
  }

  lemma TakeKeepsOpen(s: State, id: TaskId)
    requires ConservedAt(s, id) && id in s.store.tasks && s.store.tasks[id] == NEW_TASK
    requires s.at == Awaiting && id in s.store.pending + s.store.withdrawn
    ensures OpenInv(TakeTask(s, id)) && Open(TakeTask(s, id))
  {
  }

  lemma TakeKeepsKnown(s: State, id: TaskId)
    requires Known(s) && s.at == Awaiting && s.channel == Some(RunTask(id))
    ensures var t := TakeTask(s, id);
            OpenInv(t) && Open(t) && (forall other :: PendingInv(t, other)) && Shape(t.trace)
  {
    var t := TakeTask(s, id);
    assert RecordInv(s, id) && ConservedAt(s, id);
    TakeKeepsShape(s.trace, id);
    TakeKeepsOpen(s, id);
    forall other ensures PendingInv(t, other) {
      assert PendingInv(s, other);
    }
  }

  lemma TakeKeepsBlock(s: State, id: TaskId, k: nat)
    requires Known(s) && s.at == Awaiting && s.channel == Some(RunTask(id)) && k < |s.trace.executed|
    ensures LeavesBlock(s, TakeTask(s, id), k)
  {
    assert RecordInv(s, id) && s.trace.executed[k] != id;
    TakeKeepsSame(s.trace, id, k);
  }

  /** A block just opened is empty. */
  lemma TakeOpensBlock(s: State, id: TaskId)
    requires Known(s) && s.at == Awaiting && s.channel == Some(RunTask(id))
    ensures FollowsGrammar(TakeTask(s, id), |s.trace.executed|)
  {
    TakeKeepsKnown(s, id);
  }

  // ---------- steps that publish ----------

  lemma PublishKeepsShape(tr: Trace, e: WorkerEvent)
    requires Shape(tr)
    requires if tr.executed == [] then e.taskStatus.None? else e.Concerns(tr.executed[|tr.executed| - 1])
    ensures Shape(tr.(log := tr.log + [e]))
  {
    var tr' := tr.(log := tr.log + [e]);
    forall k | 0 <= k < |tr.starts| ensures BlockStart(tr', k) <= BlockStart(tr', k + 1) {
      assert BlockStart(tr, k) <= BlockStart(tr, k + 1);
    }
    forall k | 0 <= k < |tr.executed| ensures Belongs(tr', k) {
      assert Belongs(tr, k) && BlockStart(tr, k + 1) <= |tr.log|;
      assert forall i: nat :: InBlock(tr', k, i) ==> InBlock(tr, k, i) || (i == |tr.log| && k == |tr.executed| - 1);
    }
  }

  /** Where an event goes: at the end of the last block. */
  lemma PublishInBlock(tr: Trace, e: WorkerEvent, k: nat, i: nat)
    requires Ordered(tr) && k < |tr.executed|
    ensures InBlock(tr.(log := tr.log + [e]), k, i) <==>
            InBlock(tr, k, i) || (i == |tr.log| && k == |tr.executed| - 1)
    ensures BlockStart(tr.(log := tr.log + [e]), k) == BlockStart(tr, k) <= BlockStart(tr, k + 1) <= |tr.log|
    ensures BlockStart(tr.(log := tr.log + [e]), k + 1) ==
            if k == |tr.executed| - 1 then |tr.log| + 1 else BlockStart(tr, k + 1)
  {
    assert BlockStart(tr, k) <= BlockStart(tr, k + 1);
  }

  /** _report_status: an event about the current task, records and dicts unchanged but for errors. */
  ghost predicate Reports(s: State, t: State, e: WorkerEvent) {
    && t.trace == s.trace.(log := s.trace.log + [e])
    && e.taskStatus == StatusEvent(s).taskStatus
    && SameBlocks(s, t.(trace := s.trace))
    && t.store.pending == s.store.pending
  }

  lemma PublishingReports(s: State, a: Action) returns (e: WorkerEvent)
    requires Enabled(s, a) && Publishes(s, a)
    ensures Reports(s, Next(s, a), e)
  {
    e := if a.EngineChanges? then StatusEvent(s.(engine := a.to)) else StatusEvent(s);
  }

  lemma PublishingKeepsKnown(s: State, a: Action)
    requires Known(s) && Enabled(s, a) && Publishes(s, a)
    ensures var t := Next(s, a); OpenInv(t) && (forall id :: PendingInv(t, id)) && Shape(t.trace)
    ensures Open(Next(s, a)) <==> Open(s) && a.EngineChanges?
  {
    var t := Next(s, a);
    var e := PublishingReports(s, a);
    if s.current.Some? {
      CurrentIsExecuted(s);
    }
    PublishKeepsShape(s.trace, e);
    PublishingKeepsOpen(s, a);
    forall id ensures PendingInv(t, id) {
      assert PendingInv(s, id);
    }
  }

  lemma PublishingKeepsOpen(s: State, a: Action)
    requires OpenInv(s) && Enabled(s, a) && Publishes(s, a)
    ensures OpenInv(Next(s, a))
    ensures Open(Next(s, a)) <==> Open(s) && a.EngineChanges?
  {
    if a.EngineChanges? {
      assert CurrentRecord(Next(s, a)) == CurrentRecord(s);
    }
  }

  /** An earlier block is out of reach of what is published. */
  lemma PublishKeepsEarlierBlock(s: State, t: State, e: WorkerEvent, k: nat)
    requires Ordered(s.trace) && k < |s.trace.executed| - 1 && Reports(s, t, e)
    ensures LeavesBlock(s, t, k)
  {
    PublishInBlock(s.trace, e, k, 0);
  }

  /** A last block without completion event gets its first one, or none. */
  lemma PublishKeepsLastBlock(s: State, t: State, e: WorkerEvent)
    requires Ordered(s.trace) && s.trace.executed != [] && Reports(s, t, e)
    requires s.current == Some(s.trace.executed[|s.trace.executed| - 1]) && s.current.value in s.store.tasks
    requires BlockStart(s.trace, |s.trace.executed|) <= |s.trace.log|
    requires FollowsGrammar(s, |s.trace.executed| - 1) && Open(s)
    requires Open(t) <==> !e.IsComplete()
    requires e.IsComplete() ==> s.current.value !in s.store.withdrawn && OutcomeKnown(CurrentRecord(s))
    ensures FollowsGrammar(t, |s.trace.executed| - 1)
  {
    var k := |s.trace.executed| - 1;
    PublishInBlock(s.trace, e, k, 0);
    forall i: nat | InBlock(t.trace, k, i) && t.trace.log[i].IsComplete() ensures i == |s.trace.log| {
      PublishInBlock(s.trace, e, k, i);
    }
  }

  /** An event published in time keeps every block as it should be. */
  lemma PublishingKeepsBlock(s: State, a: Action, k: nat)
    requires Known(s) && Enabled(s, a) && Publishes(s, a) && k < |s.trace.executed|
    requires BlockStart(s.trace, k + 1) <= |s.trace.log| && FollowsGrammar(s, k) && !Disturbs(s, a, s.trace.executed[k])
    ensures BlockStart(Next(s, a).trace, k + 1) <= |Next(s, a).trace.log| && FollowsGrammar(Next(s, a), k)
  {
    var e := PublishingReports(s, a);
    PublishingKeepsKnown(s, a);
    PublishInBlock(s.trace, e, k, 0);
    if k < |s.trace.executed| - 1 {
      PublishKeepsEarlierBlock(s, Next(s, a), e, k);
      BlockLeft(s, Next(s, a), k);
    } else {
      PublishKeepsLastBlock(s, Next(s, a), e);
    }
  }

  /** A completion event in the last block stays one too many when another event follows. */
  lemma PublishingKeepsBroken(s: State, a: Action, k: nat)
    requires Known(s) && Enabled(s, a) && Publishes(s, a) && k < |s.trace.executed| && Broken(s, k)
    ensures Broken(Next(s, a), k)
  {
    var t := Next(s, a);
    var e := PublishingReports(s, a);
    PublishingKeepsKnown(s, a);
    PublishInBlock(s.trace, e, k, |s.trace.log|);
    if k < |s.trace.executed| - 1 {
      PublishKeepsEarlierBlock(s, t, e, k);
      BlockLeft(s, t, k);
    } else {
      var i: nat :| InBlock(s.trace, k, i) && s.trace.log[i].IsComplete() &&
        (OpenBlock(s, k) || s.trace.executed[k] in s.store.withdrawn
         || exists j: nat :: j != i && InBlock(s.trace, k, j) && s.trace.log[j].IsComplete());
      PublishInBlock(s.trace, e, k, i);
      if j: nat :| j != i && InBlock(s.trace, k, j) && s.trace.log[j].IsComplete() {
        PublishInBlock(s.trace, e, k, j);
      } else if !Open(t) && s.trace.executed[k] !in s.store.withdrawn {
        assert InBlock(t.trace, k, |s.trace.log|) && t.trace.log[|s.trace.log|].IsComplete();
      }
    }
  }

  /** The one step that breaks a block. */
  lemma DisturbanceBreaks(s: State, a: Action, k: nat)
    requires Known(s) && Enabled(s, a) && k < |s.trace.executed| && Disturbs(s, a, s.trace.executed[k])
    requires BlockStart(s.trace, k + 1) <= |s.trace.log| && FollowsGrammar(s, k)
    ensures Broken(Next(s, a), k)
  {
    var t := Next(s, a);
    var e := PublishingReports(s, a);
    PublishingKeepsKnown(s, a);
    assert k == |s.trace.executed| - 1;
    PublishInBlock(s.trace, e, k, |s.trace.log|);
    assert InBlock(t.trace, k, |s.trace.log|) && t.trace.log[|s.trace.log|].IsComplete();
    if EndsComplete(s.trace, k) {
      var j: nat := |s.trace.log| - 1;
      PublishInBlock(s.trace, e, k, j);
      assert InBlock(t.trace, k, j) && t.trace.log[j].IsComplete();
    }
  }

  // ---------- every step ----------

  lemma KnownStep(s: State, a: Action)
    requires Known(s) && Enabled(s, a)
    ensures var t := Next(s, a); OpenInv(t) && (forall id :: PendingInv(t, id)) && Shape(t.trace)
  {
    if Publishes(s, a) {
      PublishingKeepsKnown(s, a);
    } else if TakesTask(s, a) {
      TakeKeepsKnown(s, s.channel.value.id);
    } else {
      OthersAreSilent(s, a);
    }
  }

  /** Block k after a step that does not open it. */
  ghost predicate Judged(s: State, k: nat, quiet: bool)
    requires k < |s.trace.executed|
  {
    && BlockStart(s.trace, k + 1) <= |s.trace.log|
    && (quiet ==> FollowsGrammar(s, k)) && (!quiet ==> Broken(s, k))
  }

  lemma BlockStep(s: State, a: Action, k: nat, quiet: bool)
    requires Known(s) && Enabled(s, a) && k < |s.trace.executed| && Judged(s, k, quiet)
    ensures k < |Next(s, a).trace.executed| && Next(s, a).trace.executed[k] == s.trace.executed[k]
    ensures Judged(Next(s, a), k, quiet && !Disturbs(s, a, s.trace.executed[k]))
  {
    if Publishes(s, a) {
      var e := PublishingReports(s, a);
      PublishInBlock(s.trace, e, k, 0);
      if !quiet {
        PublishingKeepsBroken(s, a, k);
      } else if Disturbs(s, a, s.trace.executed[k]) {
        DisturbanceBreaks(s, a, k);
      } else {
        PublishingKeepsBlock(s, a, k);
      }
    } else if TakesTask(s, a) {
      TakeKeepsBlock(s, s.channel.value.id, k);
      BlockLeft(s, Next(s, a), k);
    } else {
      OthersAreSilent(s, a);
      BlockLeft(s, Next(s, a), k);
    }
  }

  // ---------- whole runs ----------

  lemma {:induction false} KnownHolds(run: seq<Action>)
    requires IsRun(run) && InTurn(run) && Unrepeated(run)
    ensures Known(Final(run))
  {
    LifecycleHolds(run);
    ConservationHolds(run);
    ExecutionHolds(run);
    if |run| > 0 {
      var before := run[..|run| - 1];
      KnownHolds(before);
      KnownStep(Final(before), run[|run| - 1]);
    }
  }

  /** Nothing can disturb a task before the engine has it. */
  lemma {:induction false} QuietBefore(run: seq<Action>, id: TaskId)
    requires IsRun(run) && InTurn(run) && Unrepeated(run) && id !in Final(run).trace.executed
    ensures Quiet(run, id)
  {
    if |run| > 0 {
      var before := run[..|run| - 1];
      ExecutedGrows(Final(before), run[|run| - 1]);
      QuietBefore(before, id);
      ExecutionHolds(before);
      if Final(before).current.Some? {
        CurrentIsExecuted(Final(before));
      }
    }
  }

  lemma ExecutedGrows(s: State, a: Action)
    requires Enabled(s, a)
    ensures Next(s, a).trace.executed ==
            if TakesTask(s, a) then s.trace.executed + [s.channel.value.id] else s.trace.executed
  {
  }

  /** A block is as it should be if its task was never disturbed, and broken for good as soon as it was. */
  lemma {:induction false} GrammarHolds(run: seq<Action>, k: nat)
    requires IsRun(run) && InTurn(run) && Unrepeated(run) && k < |Final(run).trace.executed|
    ensures Judged(Final(run), k, Quiet(run, Final(run).trace.executed[k]))
  {
    var before, a := run[..|run| - 1], run[|run| - 1];
    var s := Final(before);
    KnownHolds(before);
    ExecutedGrows(s, a);
    if k < |s.trace.executed| {
      GrammarHolds(before, k);
      BlockStep(s, a, k, Quiet(before, s.trace.executed[k]));
    } else {
      var id := s.channel.value.id;
      assert RecordInv(s, id);
      QuietBefore(before, id);
      TakeKeepsKnown(s, id);
      TakeOpensBlock(s, id);
    }
  }
}
