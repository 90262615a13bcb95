/** The main results about the task protocol: each quantifies over every run of the state machine. */
module TaskTheorems {
  import opened Basics
  import opened WorkerEvents
  import opened TaskProtocol
  import opened TaskSafety
  import opened EventGrammar
  import opened TaskHistory

  /** Appends one enabled action to a run. */
  lemma Extend(run: seq<Action>, a: Action) returns (longer: seq<Action>)
    requires IsRun(run) && Enabled(Final(run), a)
    ensures longer == run + [a] && IsRun(longer) && Final(longer) == Next(Final(run), a)
    ensures InTurn(run) && IsInTurn(Final(run), a) ==> InTurn(longer)
    ensures Unrepeated(run) && !Repeats(Final(run), a) ==> Unrepeated(longer)
    ensures Guarded(run) && (a.Call? && a.call.Begin? ==> a.call.guarded) ==> Guarded(longer)
  {
    longer := run + [a];
    assert longer[..|longer| - 1] == run;
  }

  // ---------- start and stop ----------

  lemma SingleLoop(run: seq<Action>)
    requires IsRun(run) && InTurn(run)
    ensures Final(run).live <= 1
    ensures Final(run).flags.started ==> Final(run).live == 1 && !Final(run).flags.stopped
  {
    LifecycleHolds(run);
  }

  /** At no moment of the run is more than one thread inside the loop. */
  ghost predicate OneThread(run: seq<Action>) {
    forall n | 0 <= n <= |run| :: IsRun(run[..n]) && Final(run[..n]).live <= 1
  }

  lemma OneThreadBefore(run: seq<Action>)
    requires IsRun(run) && run != []
    ensures OneThread(run) <==> OneThread(run[..|run| - 1]) && Final(run).live <= 1
  {
    var before := run[..|run| - 1];
    assert run[..|run|] == run;
    assert forall n | 0 <= n < |run| :: run[..n] == before[..n];
  }

  /** There is never a second loop exactly if no thread is spawned while the last one has not begun. */
  lemma {:induction false} SingleLoopExactly(run: seq<Action>)
    requires IsRun(run)
    ensures OneThread(run) <==> InTurn(run)
  {
    if run == [] {
      assert forall n | 0 <= n <= 0 :: run[..n] == [];
    } else {
      var before, a := run[..|run| - 1], run[|run| - 1];
      OneThreadBefore(run);
      SingleLoopExactly(before);
      if InTurn(before) {
        LifecycleHolds(before);
        if IsInTurn(Final(before), a) {
          SingleLoop(run);
        }
      }
    }
  }

  /** No call of start gave up while its thread had not even cleared `_stopped`. */
  ghost predicate Prompt(run: seq<Action>)
    requires IsRun(run)
  {
    |run| == 0 || (Prompt(run[..|run| - 1]) && IsPrompt(Final(run[..|run| - 1]), run[|run| - 1]))
  }

  ghost predicate IsPrompt(s: State, a: Action) {
    a == Control(StartTimesOut) ==> s.at != Spawned
  }

  lemma PromptStep(s: State, a: Action)
    requires LifecycleInv(s) && Enabled(s, a) && IsPrompt(s, a) && (s.at == Spawned ==> s.caller == StartAwaitsStarted)
    ensures IsInTurn(s, a) && (Next(s, a).at == Spawned ==> Next(s, a).caller == StartAwaitsStarted)
  {
  }

  /** In particular there is never a second loop if no start gave up that early. */
  lemma {:induction false} PromptIsInTurn(run: seq<Action>)
    requires IsRun(run) && Prompt(run)
    ensures InTurn(run) && (Final(run).at == Spawned ==> Final(run).caller == StartAwaitsStarted)
  {
    if run != [] {
      var before, a := run[..|run| - 1], run[|run| - 1];
      PromptIsInTurn(before);
      LifecycleHolds(before);
      PromptStep(Final(before), a);
    }
  }

  /** After a start that timed out, a second start makes a second loop. */
  lemma TimedOutStartAllowsSecondLoop() returns (run: seq<Action>)
    ensures IsRun(run) && !InTurn(run) && Final(run).live == 2
  {
    run := SpawnedWorker();
    run := Extend(run, Control(StartTimesOut));
    run := Extend(run, Control(CallStart));
    var before := run;
    run := Extend(run, Control(SpawnWorker));
    assert run[..|run| - 1] == before;
  }

  /** What a returned stop leaves: no thread, unless one was spawned by a start that gave up and has not begun. */
  lemma StopLeavesFlagsClear(run: seq<Action>)
    requires IsRun(run) && InTurn(run) && IsRun(run + [Control(StopReturns)])
    ensures var s := Final(run + [Control(StopReturns)]);
            && s.flags == Flags(false, false, true) && s.caller == NoCall
            && (s.at == Dead || s.at == Spawned) && s.live == (if s.at == Dead then 0 else 1)
    ensures Prompt(run) ==> Final(run + [Control(StopReturns)]).live == 0
  {
    var whole := run + [Control(StopReturns)];
    assert whole[..|whole| - 1] == run;
    LifecycleHolds(run);
    if Prompt(run) {
      PromptIsInTurn(run);
    }
  }

  /** A stop that returns before the thread of a start that gave up has begun: the thread is still to come. */
  lemma StopMissesSpawnedThread() returns (run: seq<Action>)
    ensures IsRun(run) && InTurn(run) && IsRun(run + [Control(StopReturns)])
    ensures Final(run + [Control(StopReturns)]).live == 1
  {
    run := SpawnedWorker();
    run := Extend(run, Control(StartTimesOut));
    run := Extend(run, Control(CallStop));
    var _ := Extend(run, Control(StopReturns));
  }

  /** After a returned stop a worker comes back to its channel, with every task where it was. */
  lemma RestartPossible(run: seq<Action>) returns (longer: seq<Action>)
    requires IsRun(run) && InTurn(run) && IsRun(run + [Control(StopReturns)])
    ensures run + [Control(StopReturns)] <= longer && IsRun(longer) && InTurn(longer)
    ensures var s, t := Final(run + [Control(StopReturns)]), Final(longer);
            t == s.(flags := Flags(true, false, false), at := Awaiting, live := 1)
  {
    StopLeavesFlagsClear(run);
    longer := run + [Control(StopReturns)];
    assert longer[..|longer| - 1] == run;
    if Final(longer).at == Dead {
      longer := Extend(longer, Control(CallStart));
      longer := Extend(longer, Control(SpawnWorker));
      longer := BegunLoop(longer);
      longer := Extend(longer, Control(StartReturns));
    } else {
      longer := BegunLoop(longer);
    }
  }

  /** A spawned thread comes to its channel, by itself. */
  lemma BegunLoop(run: seq<Action>) returns (longer: seq<Action>)
    requires IsRun(run) && InTurn(run) && Final(run).at == Spawned && Final(run).flags == Flags(false, false, true)
    ensures run <= longer && IsRun(longer) && InTurn(longer)
    ensures Final(longer) == Final(run).(flags := Flags(true, false, false), at := Awaiting)
  {
    longer := Extend(run, Loop(ClearStopped));
    longer := Extend(longer, Loop(SetStarted));
    longer := Extend(longer, Loop(CheckStopping));
  }

  // ---------- conservation ----------

  /** The task between the two dicts, if the worker is between pop and insertion. */
  ghost function Moving(s: State): set<TaskId> {
    if s.at == Storing && s.current.Some? then {s.current.value} else {}
  }

  lemma TasksConserved(run: seq<Action>)
    requires IsRun(run) && InTurn(run)
    ensures var s := Final(run); var st := s.store;
            && st.tasks.Keys == st.pending + st.completed + (st.withdrawn + st.discarded) + Moving(s)
            && st.pending !! st.completed !! (st.withdrawn + st.discarded) !! Moving(s)
  {
    ConservationHolds(run);
    var s := Final(run);
    forall id
      ensures id in s.store.tasks <==>
              id in s.store.pending + s.store.completed + (s.store.withdrawn + s.store.discarded) + Moving(s)
      ensures Count(id in s.store.pending) + Count(id in s.store.completed)
              + Count(id in s.store.withdrawn + s.store.discarded) + Count(id in Moving(s)) <= 1
    {
      assert ConservedAt(s, id);
    }
  }

  lemma ClearingIsForever(s: State, a: Action)
    requires Enabled(s, a)
    ensures s.store.withdrawn <= Next(s, a).store.withdrawn && s.store.discarded <= Next(s, a).store.discarded
  {
    if a.Cycle? {
      CycleClearsNothing(s, a.cycle);
    }
  }

  lemma CycleClearsNothing(s: State, c: CycleStep)
    ensures AfterCycle(s, c).store.withdrawn == s.store.withdrawn
    ensures AfterCycle(s, c).store.discarded == s.store.discarded
  {
  }

  lemma {:induction false} ClearedOnlyGrows(run: seq<Action>, n: nat)
    requires IsRun(run) && n <= |run|
    ensures IsRun(run[..n])
    ensures Final(run[..n]).store.withdrawn <= Final(run).store.withdrawn
    ensures Final(run[..n]).store.discarded <= Final(run).store.discarded
  {
    if n == |run| {
      assert run[..n] == run;
    } else {
      var before := run[..|run| - 1];
      ClearedOnlyGrows(before, n);
      assert before[..n] == run[..n];
      ClearingIsForever(Final(before), run[|run| - 1]);
    }
  }

  /** An id once cleared is in neither dict at any later point, even if it was cleared while it was running. */
  lemma ClearedNeverReappears(run: seq<Action>, n: nat, id: TaskId)
    requires IsRun(run) && InTurn(run) && n <= |run| && IsRun(run[..n])
    requires id in Final(run[..n]).store.withdrawn + Final(run[..n]).store.discarded
    ensures id !in Final(run).store.pending && id !in Final(run).store.completed
  {
    ClearedOnlyGrows(run, n);
    ConservationHolds(run);
    assert ConservedAt(Final(run), id);
  }

  /** Wherever else a task is, clearing another one leaves it there. */
  lemma ClearTouchesOne(s: State, id: TaskId, other: TaskId)
    requires other != id
    ensures other in AfterCall(s, Clear(id)).store.pending <==> other in s.store.pending
    ensures other in AfterCall(s, Clear(id)).store.completed <==> other in s.store.completed
  {
  }

  lemma ClearTakesAway(s: State, id: TaskId)
    requires id in s.store.pending || id in s.store.completed
    ensures var t := AfterCall(s, Clear(id)); id in t.store.withdrawn + t.store.discarded
  {
  }

  /**
   * Clearing a task that is in one of the dicts takes it out of both, for good, even while it is running; every other
   * task stays where it was.
   */
  lemma ClearIsForGood(run: seq<Action>, n: nat, id: TaskId)
    requires IsRun(run) && InTurn(run) && n < |run| && IsRun(run[..n]) && run[n] == Call(Clear(id))
    requires id in Final(run[..n]).store.pending || id in Final(run[..n]).store.completed
    ensures IsRun(run[..n + 1])
    ensures forall other :: other != id ==>
              && (other in Final(run[..n + 1]).store.pending <==> other in Final(run[..n]).store.pending)
              && (other in Final(run[..n + 1]).store.completed <==> other in Final(run[..n]).store.completed)
    ensures forall m | n < m <= |run| :: IsRun(run[..m])
                                         && id !in Final(run[..m]).store.pending
                                         && id !in Final(run[..m]).store.completed
  {
    ClearedOnlyGrows(run, n + 1);
    var at, after := Final(run[..n]), Final(run[..n + 1]);
    assert run[..n + 1][..n] == run[..n];
    ClearTakesAway(at, id);
    forall other | other != id
      ensures other in after.store.pending <==> other in at.store.pending
      ensures other in after.store.completed <==> other in at.store.completed
    {
      ClearTouchesOne(at, id, other);
    }
    forall m | n < m <= |run|
      ensures IsRun(run[..m]) && id !in Final(run[..m]).store.pending && id !in Final(run[..m]).store.completed
    {
      StaysAway(run, n + 1, m, id);
    }
  }

  lemma StaysAway(run: seq<Action>, n: nat, m: nat, id: TaskId)
    requires IsRun(run) && InTurn(run) && n <= m <= |run| && IsRun(run[..n])
    requires id in Final(run[..n]).store.withdrawn + Final(run[..n]).store.discarded
    ensures IsRun(run[..m]) && id !in Final(run[..m]).store.pending && id !in Final(run[..m]).store.completed
  {
    ClearedOnlyGrows(run, m);
    InTurnBefore(run, m);
    assert run[..m][..n] == run[..n];
    ClearedNeverReappears(run[..m], n, id);
  }

  lemma {:induction false} InTurnBefore(run: seq<Action>, n: nat)
    requires IsRun(run) && InTurn(run) && n <= |run|
    ensures IsRun(run[..n]) && InTurn(run[..n])
  {
    if n == |run| {
      assert run[..n] == run;
    } else {
      InTurnBefore(run[..|run| - 1], n);
      assert run[..|run| - 1][..n] == run[..n];
    }
  }

  // ---------- at most once ----------

  /** When a begin hands its task over, and which refusal it gets otherwise: the first of these that applies. */
  lemma BeginAnswers(s: State, id: TaskId, guarded: bool)
    requires forall other :: other in s.store.pending ==> other in s.store.tasks
    ensures var r, busy := BeginResult(s, id, guarded), s.current.Some? && !CurrentRecord(s).isComplete;
            && (r == HandedOver <==> HandsOver(s, Call(Begin(id, guarded))))
            && (r == AlreadyActive <==> guarded && busy)
            && (r == NoPendingTask <==> !(guarded && busy) && id !in s.store.pending)
            && (r == EngineBusy <==> !(guarded && busy) && id in s.store.pending && s.engine != IDLE)
            && (r == AlreadyRun <==>
                  !(guarded && busy) && id in s.store.pending && s.engine == IDLE && s.store.tasks[id].isComplete)
            && (r == ChannelFull <==>
                  && !(guarded && busy) && id in s.store.pending && s.engine == IDLE && !s.store.tasks[id].isComplete
                  && s.channel.Some?)
  {
  }

  /** A task has been handed to the engine twice, or is in the channel for a second time. */
  ghost predicate Again(s: State) {
    || !Distinct(s.trace.executed)
    || (s.channel.Some? && s.channel.value.RunTask? && s.channel.value.id in s.trace.executed)
  }

  lemma AgainStep(s: State, a: Action)
    requires Again(s) && Enabled(s, a)
    ensures Again(Next(s, a))
  {
    ExecutedGrows(s, a);
    if TakesTask(s, a) {
      TwiceOnceMore(s.trace.executed, s.channel.value.id);
    }
  }

  lemma TwiceOnceMore(ids: seq<TaskId>, id: TaskId)
    requires !Distinct(ids) || id in ids
    ensures !Distinct(ids + [id])
  {
    var longer := ids + [id];
    assert longer[|ids|] == id;
    if !Distinct(ids) {
      var i, j :| 0 <= i < j < |ids| && ids[i] == ids[j];
      assert longer[i] == longer[j];
    } else {
      var i :| 0 <= i < |ids| && ids[i] == id;
      assert longer[i] == longer[|ids|];
    }
  }

  lemma RepeatHandsOverAgain(s: State, a: Action)
    requires CurrentInv(s) && Enabled(s, a) && Repeats(s, a)
    ensures Again(Next(s, a))
  {
    CurrentIsExecuted(s);
  }

  /** Some task is handed over twice exactly if some begin handed over the task that the worker was busy with. */
  lemma {:induction false} ExecutedAgainExactly(run: seq<Action>)
    requires IsRun(run) && InTurn(run)
    ensures Again(Final(run)) <==> !Unrepeated(run)
  {
    if Unrepeated(run) {
      ExecutionHolds(run);
    } else {
      var before, a := run[..|run| - 1], run[|run| - 1];
      ExecutedAgainExactly(before);
      if Unrepeated(before) {
        ExecutionHolds(before);
        RepeatHandsOverAgain(Final(before), a);
      } else {
        AgainStep(Final(before), a);
      }
    }
  }

  /** The guard lets no such begin through. */
  lemma {:induction false} GuardedIsUnrepeated(run: seq<Action>)
    requires IsRun(run) && Guarded(run)
    ensures Unrepeated(run)
  {
    if run != [] {
      var before, a := run[..|run| - 1], run[|run| - 1];
      assert a in run && forall b :: b in before ==> b in run;
      GuardedIsUnrepeated(before);
    }
  }

  lemma ExecutedAtMostOnce(run: seq<Action>)
    requires IsRun(run) && InTurn(run) && Guarded(run)
    ensures Unrepeated(run) && Distinct(Final(run).trace.executed)
  {
    GuardedIsUnrepeated(run);
    ExecutedAgainExactly(run);
  }

  /**
   * Among the begins the worker would accept, the guard refuses those that come while the current task is unfinished.
   * A task already handed to the engine is among them only as that current task, so no repeat is let through.
   */
  lemma GuardCoversRepeats(run: seq<Action>, id: TaskId)
    requires IsRun(run) && InTurn(run) && Unrepeated(run)
    requires BeginResult(Final(run), id, false) == HandedOver
    ensures var s := Final(run);
            && (id in s.trace.executed <==> Repeats(s, Call(Begin(id, false))))
            && (BeginResult(s, id, true) == AlreadyActive <==> CurrentUnfinished(s))
            && (id in s.trace.executed ==> BeginResult(s, id, true) == AlreadyActive)
            && (BeginResult(s, id, true) != AlreadyActive ==> BeginResult(s, id, true) == HandedOver)
  {
    ExecutionHolds(run);
    var s := Final(run);
    assert RecordInv(s, id);
    if s.current.Some? {
      CurrentIsExecuted(s);
    }
  }

  /** It refuses more than the repeats: a fresh task, begun after the plan returned and before its task is complete. */
  lemma GuardRefusesFreshTask(a: TaskId, b: TaskId) returns (run: seq<Action>)
    requires a != b
    ensures IsRun(run) && InTurn(run) && Guarded(run) && b !in Final(run).trace.executed
    ensures BeginResult(Final(run), b, false) == HandedOver && BeginResult(Final(run), b, true) == AlreadyActive
  {
    run := ExecutingWorker(a);
    run := Extend(run, Call(Submit(b)));
    assert CurrentUnfinished(Final(run)) && Final(run).store.tasks[b] == NEW_TASK && b in Final(run).store.pending;
    run := Extend(run, Cycle(PlanReturns("")));
  }

  /** A task submitted to a fresh worker, and executing. */
  lemma ExecutingWorker(id: TaskId) returns (run: seq<Action>)
    ensures IsRun(run) && InTurn(run) && Guarded(run) && Unrepeated(run)
    ensures Final(run) == INITIAL.(store := Store(map[id := NEW_TASK.(isPending := false)], {id}, {}, {}, {}),
                                   current := Some(id),
                                   flags := Flags(true, false, false), at := Executing, live := 1,
                                   caller := StartAwaitsStarted,
                                   trace := Trace([id], [0], []))
  {
    run := StartedWorker();
    run := Extend(run, Call(Submit(id)));
    assert Final(run).store == Store(map[id := NEW_TASK], {id}, {}, {}, {});
    run := Extend(run, Call(Begin(id, true)));
    assert Final(run).store == Store(map[id := NEW_TASK], {id}, {}, {}, {}) && Final(run).channel == Some(RunTask(id));
    run := Extend(run, Cycle(Take));
    assert Final(run).store == Store(map[id := NEW_TASK.(isPending := false)], {id}, {}, {}, {});
  }

  /** A begin without the guard, arriving after the plan returned and before the task is marked complete ... */
  lemma UnguardedBeginHandsOver(id: TaskId) returns (run: seq<Action>)
    ensures IsRun(run) && InTurn(run)
    ensures Final(run).at == Finishing && Final(run).current == Some(id) && Final(run).channel == Some(RunTask(id))
    ensures Final(run).trace.executed == [id] && id in Final(run).store.pending && !Final(run).flags.stopping
  {
    run := ExecutingWorker(id);
    run := Extend(run, Cycle(PlanReturns("")));
    assert Final(run).store.tasks == map[id := TaskRecord(false, false, [], Some(TaskResult("")))];
    run := Extend(run, Call(Begin(id, false)));
  }

  /** The worker moves a finished task from one dict to the other. */
  lemma MoveToCompleted(run: seq<Action>, id: TaskId) returns (longer: seq<Action>)
    requires IsRun(run) && InTurn(run) && Final(run).at == Finishing
    requires Final(run).current == Some(id) && id in Final(run).store.pending
    ensures IsRun(longer) && InTurn(longer) && Final(longer).at == Reporting
    ensures (Unrepeated(run) ==> Unrepeated(longer)) && (Guarded(run) ==> Guarded(longer))
    ensures Final(longer).channel == Final(run).channel && Final(longer).trace == Final(run).trace
    ensures Final(longer).flags == Final(run).flags && Final(longer).current == Some(id)
    ensures Final(longer).caller == Final(run).caller
  {
    longer := Extend(run, Cycle(MarkComplete));
    assert id in Final(longer).store.pending;
    longer := Extend(longer, Cycle(PopPending));
    longer := Extend(longer, Cycle(StoreCompleted));
  }

  /** The worker reports and goes back to its channel. */
  lemma ReportAndAwait(run: seq<Action>) returns (longer: seq<Action>)
    requires IsRun(run) && InTurn(run) && Final(run).at == Reporting && !Final(run).flags.stopping
    ensures IsRun(longer) && InTurn(longer) && Final(longer).at == Awaiting
    ensures (Unrepeated(run) ==> Unrepeated(longer)) && (Guarded(run) ==> Guarded(longer))
    ensures Final(longer).channel == Final(run).channel && Final(longer).trace.executed == Final(run).trace.executed
    ensures Final(longer).current == Final(run).current && Final(longer).caller == Final(run).caller
    ensures Final(longer).flags == Final(run).flags
  {
    longer := Extend(run, Cycle(ReportCompletion(None)));
    longer := Extend(longer, Cycle(ClearErrors));
    longer := Extend(longer, Loop(CheckStopping));
  }

  /** ... makes the engine execute the task a second time. */
  lemma UnguardedBeginExecutesTwice(id: TaskId) returns (run: seq<Action>)
    ensures IsRun(run) && InTurn(run) && Final(run).trace.executed == [id, id]
  {
    run := UnguardedBeginHandsOver(id);
    run := MoveToCompleted(run, id);
    run := ReportAndAwait(run);
    run := Extend(run, Cycle(Take));
  }

  /** Starting a fresh worker. */
  lemma StartedWorker() returns (run: seq<Action>)
    ensures IsRun(run) && InTurn(run) && Guarded(run) && Unrepeated(run)
    ensures Final(run) == INITIAL.(flags := Flags(true, false, false), at := Awaiting, live := 1,
                                   caller := StartAwaitsStarted)
  {
    run := SpawnedWorker();
    run := Extend(run, Loop(ClearStopped));
    assert Final(run) == INITIAL.(flags := Flags(false, false, false), at := Entering, live := 1,
                                  caller := StartAwaitsStarted);
    run := Extend(run, Loop(SetStarted));
    assert Final(run) == INITIAL.(flags := Flags(true, false, false), at := LoopTop, live := 1,
                                  caller := StartAwaitsStarted);
    run := Extend(run, Loop(CheckStopping));
  }

  lemma SpawnedWorker() returns (run: seq<Action>)
    ensures IsRun(run) && InTurn(run) && Guarded(run) && Unrepeated(run)
    ensures Final(run) == INITIAL.(at := Spawned, live := 1, caller := StartAwaitsStarted)
  {
    run := Extend([], Control(CallStart));
    assert Final(run) == INITIAL.(caller := StartAwaitsStopped);
    run := Extend(run, Control(SpawnWorker));
  }

  /** What get_tasks(RUNNING) selects: pending entries neither pending nor complete. */
  ghost predicate IsRunning(st: Store, id: TaskId) {
    id in st.pending && id in st.tasks && !st.tasks[id].isPending && !st.tasks[id].isComplete
  }

  lemma OnlyTheActiveTaskRuns(run: seq<Action>, id: TaskId)
    requires IsRun(run) && InTurn(run) && Unrepeated(run)
    ensures IsRunning(Final(run).store, id) ==> Final(run).current == Some(id) && id in Final(run).trace.executed
    ensures id in Final(run).store.completed ==>
              id in Final(run).store.tasks && Final(run).store.tasks[id].isComplete
  {
    ExecutionHolds(run);
    ConservationHolds(run);
    var s := Final(run);
    assert RecordInv(s, id) && ConservedAt(s, id);
  }

  // ---------- the kill signal ----------

  /** In the cycle of a kill signal, and outside every cycle, the current task is no longer pending. */
  ghost predicate CurrentLeft(s: State) {
    s.current.Some? && (s.flags.stopping || (s.at != Executing && s.at != Finishing && s.at != Popping)) ==>
      s.current.value !in s.store.pending
  }

  lemma CurrentLeftStep(s: State, a: Action)
    requires CurrentLeft(s) && KnownIds(s) && LifecycleInv(s) && Enabled(s, a)
    ensures CurrentLeft(Next(s, a))
  {
    if a.Cycle? {
      CurrentLeftCycle(s, a.cycle);
    }
  }

  lemma CurrentLeftCycle(s: State, c: CycleStep)
    requires CurrentLeft(s) && KnownIds(s) && LifecycleInv(s) && CycleEnabled(s, c)
    ensures CurrentLeft(AfterCycle(s, c))
  {
  }

  lemma {:induction false} CurrentLeftHolds(run: seq<Action>)
    requires IsRun(run) && InTurn(run)
    ensures CurrentLeft(Final(run))
  {
    if |run| > 0 {
      var before := run[..|run| - 1];
      CurrentLeftHolds(before);
      LifecycleHolds(before);
      ConservationHolds(before);
      CurrentLeftStep(Final(before), run[|run| - 1]);
    }
  }

  /** In the cycle of a task, it is still pending unless it was cleared. */
  ghost predicate CurrentThere(s: State) {
    s.current.Some? && !s.flags.stopping && (s.at == Executing || s.at == Finishing || s.at == Popping) ==>
      s.current.value in s.store.pending + s.store.withdrawn
  }

  lemma CurrentThereStep(s: State, a: Action)
    requires CurrentThere(s) && LifecycleInv(s) && ConservationInv(s) && ExecutionInv(s) && Enabled(s, a)
    ensures CurrentThere(Next(s, a))
  {
    if TakesTask(s, a) {
      assert RecordInv(s, s.channel.value.id) && ConservedAt(s, s.channel.value.id);
    } else if a.Cycle? {
      CurrentThereCycle(s, a.cycle);
    }
  }

  lemma CurrentThereCycle(s: State, c: CycleStep)
    requires CurrentThere(s) && CycleEnabled(s, c) && !TakesTask(s, Cycle(c))
    ensures CurrentThere(AfterCycle(s, c))
  {
  }

  lemma {:induction false} CurrentThereHolds(run: seq<Action>)
    requires IsRun(run) && InTurn(run) && Unrepeated(run)
    ensures CurrentThere(Final(run))
  {
    if |run| > 0 {
      var before := run[..|run| - 1];
      CurrentThereHolds(before);
      LifecycleHolds(before);
      ConservationHolds(before);
      ExecutionHolds(before);
      CurrentThereStep(Final(before), run[|run| - 1]);
    }
  }

  lemma PopAt(s: State, id: TaskId)
    requires s.at == Popping && s.current == Some(id) && id in s.store.tasks
    ensures var t := PopCurrent(s);
            && (t.at == LoopTop <==> id !in s.store.pending)
            && (t.at == Storing <==> id in s.store.pending)
            && (t.at == LoopTop ==> t.trace == s.trace && t.errors == s.errors + [KeyErrorText(id)]
                                    && Record(t.store, id).errors == Record(s.store, id).errors + [KeyErrorText(id)])
  {
  }

  /**
   * Whatever other threads do meanwhile, the pop raises exactly if the task was cleared, or a kill
   * signal was taken.
   */
  lemma PopRaisesExactly(run: seq<Action>, id: TaskId)
    requires IsRun(run) && InTurn(run) && Unrepeated(run) && Final(run).at == Popping && Final(run).current == Some(id)
    ensures var s := Final(run); var t := PopCurrent(s);
            && (t.at == LoopTop <==> s.flags.stopping || id in s.store.withdrawn)
            && (t.at != LoopTop <==> t.at == Storing)
            && (t.at == LoopTop ==> t.trace == s.trace && t.errors == s.errors + [KeyErrorText(id)]
                                    && Record(t.store, id).errors == Record(s.store, id).errors + [KeyErrorText(id)])
  {
    CurrentLeftHolds(run);
    CurrentThereHolds(run);
    ConservationHolds(run);
    assert ConservedAt(Final(run), id);
    PopAt(Final(run), id);
  }

  /** Three steps of the worker thread, nothing coming in between. */
  lemma KillStates(s: State, id: TaskId)
    requires s.at == Awaiting && s.channel == Some(KillSignal) && s.current == Some(id)
    requires id in s.store.tasks && id !in s.store.pending
    ensures var t := PopCurrent(MarkCurrent(TakeCommand(s)));
            && MarkCurrent(TakeCommand(s)).at == Popping
            && t.at == LoopTop && t.flags.stopping && t.trace == s.trace
            && t.errors == s.errors + [KeyErrorText(id)]
            && Record(t.store, id).errors == Record(s.store, id).errors + [KeyErrorText(id)]
            && (forall other :: other != id ==> Record(t.store, other) == Record(s.store, other))
            && t.store.(tasks := s.store.tasks) == s.store
  {
    PopAt(MarkCurrent(TakeCommand(s)), id);
  }

  /**
   * A kill signal taken after any task: the cycle ends in the pop's KeyError.  The task, though it is long done, gets
   * an error, the worker's errors are not cleared, and nothing is published.
   */
  lemma KillAfterTask(run: seq<Action>, id: TaskId) returns (longer: seq<Action>)
    requires IsRun(run) && InTurn(run)
    requires Final(run).at == Awaiting && Final(run).channel == Some(KillSignal) && Final(run).current == Some(id)
    ensures longer == run + [Cycle(Take), Cycle(MarkComplete), Cycle(PopPending)] && IsRun(longer)
    ensures var s, t := Final(run), Final(longer);
            && t.at == LoopTop && t.flags.stopping && t.trace == s.trace
            && t.errors == s.errors + [KeyErrorText(id)]
            && Record(t.store, id).errors == Record(s.store, id).errors + [KeyErrorText(id)]
            && (forall other :: other != id ==> Record(t.store, other) == Record(s.store, other))
            && t.store.(tasks := s.store.tasks) == s.store
  {
    CurrentLeftHolds(run);
    LifecycleHolds(run);
    ConservationHolds(run);
    KillStates(Final(run), id);
    longer := Extend(run, Cycle(Take));
    longer := Extend(longer, Cycle(MarkComplete));
    longer := Extend(longer, Cycle(PopPending));
  }

  lemma KillStatesBeforeTask(s: State)
    requires s.at == Awaiting && s.channel == Some(KillSignal) && s.current == None
    ensures var m := MarkCurrent(TakeCommand(s)); var t := ReportAtEnd(m, None);
            && m.at == Reporting && t.at == Clearing && t.flags.stopping && t.store == s.store
            && t.trace == s.trace.(log := s.trace.log + [WorkerEvent(s.engine, None, s.errors)])
  {
  }

  /** A kill signal taken before any task: one event without a task is published, and the errors are cleared. */
  lemma KillBeforeTask(run: seq<Action>) returns (longer: seq<Action>)
    requires IsRun(run)
    requires Final(run).at == Awaiting && Final(run).channel == Some(KillSignal) && Final(run).current == None
    ensures longer == run + [Cycle(Take), Cycle(MarkComplete), Cycle(ReportCompletion(None)), Cycle(ClearErrors)]
    ensures IsRun(longer)
    ensures var s, t := Final(run), Final(longer);
            && t.at == LoopTop && t.flags.stopping && t.store == s.store && t.errors == []
            && t.trace == s.trace.(log := s.trace.log + [WorkerEvent(s.engine, None, s.errors)])
  {
    KillStatesBeforeTask(Final(run));
    longer := Extend(run, Cycle(Take));
    longer := Extend(longer, Cycle(MarkComplete));
    longer := Extend(longer, Cycle(ReportCompletion(None)));
    longer := Extend(longer, Cycle(ClearErrors));
  }

  /** The run in which the worker takes a kill signal and marks whatever is current, then makes one more step. */
  function KillCycle(run: seq<Action>, last: CycleStep): (longer: seq<Action>) {
    run + [Cycle(Take), Cycle(MarkComplete), Cycle(last)]
  }

  lemma KillCycleAt(run: seq<Action>, last: CycleStep)
    requires IsRun(run) && Final(run).at == Awaiting && Final(run).channel == Some(KillSignal)
    ensures var t := MarkCurrent(TakeCommand(Final(run)));
            && (IsRun(KillCycle(run, last)) <==> CycleEnabled(t, last))
            && (IsRun(KillCycle(run, last)) ==> Final(KillCycle(run, last)) == AfterCycle(t, last))
  {
    var taken := Extend(run, Cycle(Take));
    var marked := Extend(taken, Cycle(MarkComplete));
    var longer := KillCycle(run, last);
    assert longer == marked + [Cycle(last)] && longer[..|longer| - 1] == marked;
  }

  /** The cycle of a kill signal raises exactly if there has been a task, and reports exactly if there has been none. */
  lemma KillCycleRaises(run: seq<Action>)
    requires IsRun(run) && InTurn(run) && Final(run).at == Awaiting && Final(run).channel == Some(KillSignal)
    ensures var s, pop := Final(run), KillCycle(run, PopPending);
            && (IsRun(pop) <==> s.current.Some?)
            && (IsRun(pop) ==> Final(pop).at == LoopTop
                               && Final(pop).errors == s.errors + [KeyErrorText(s.current.value)])
    ensures var s, report := Final(run), KillCycle(run, ReportCompletion(None));
            && (IsRun(report) <==> s.current.None?)
            && (IsRun(report) ==> Final(report).at == Clearing
                                  && Final(report).trace.log == s.trace.log + [WorkerEvent(s.engine, None, s.errors)])
  {
    KillCycleAt(run, PopPending);
    KillCycleAt(run, ReportCompletion(None));
    var s := Final(run);
    if s.current.Some? {
      CurrentLeftHolds(run);
      LifecycleHolds(run);
      ConservationHolds(run);
      KillStates(s, s.current.value);
    }
  }

  /** A worker that has done its one task, and gets a kill signal. */
  lemma KilledAfterTask(id: TaskId) returns (run: seq<Action>)
    ensures IsRun(run) && InTurn(run) && Guarded(run) && Unrepeated(run)
    ensures Final(run).at == Awaiting && Final(run).channel == Some(KillSignal) && Final(run).current == Some(id)
  {
    run := ExecutingWorker(id);
    run := Extend(run, Cycle(PlanReturns("")));
    assert id in Final(run).store.pending && CurrentUnfinished(Final(run));
    run := MoveToCompleted(run, id);
    run := ReportAndAwait(run);
    run := Extend(run, Control(StartReturns));
    run := Extend(run, Control(CallStop));
    run := Extend(run, Control(PutKill));
  }

  /** A worker that has done nothing, and gets a kill signal. */
  lemma KilledBeforeTask() returns (run: seq<Action>)
    ensures IsRun(run) && InTurn(run) && Guarded(run) && Unrepeated(run)
    ensures Final(run).at == Awaiting && Final(run).channel == Some(KillSignal) && Final(run).current == None
  {
    run := StartedWorker();
    run := Extend(run, Control(StartReturns));
    run := Extend(run, Control(CallStop));
    run := Extend(run, Control(PutKill));
  }

  // ---------- the event stream ----------

  /** A block is as it should be exactly if the engine reported no state while its task was current and complete. */
  lemma BlockExactly(run: seq<Action>, k: nat)
    requires IsRun(run) && InTurn(run) && Unrepeated(run) && k < |Final(run).trace.executed|
    ensures var s := Final(run);
            BlockStart(s.trace, k + 1) <= |s.trace.log| && (FollowsGrammar(s, k) <==> Quiet(run, s.trace.executed[k]))
  {
    GrammarHolds(run, k);
    if Broken(Final(run), k) {
      BrokenIsNotKept(Final(run), k);
    }
  }

  /** If the block ends in a completion event, that event carries what the plan came to, as the run's steps say. */
  ghost predicate EndsAsPlanned(run: seq<Action>, k: nat)
    requires IsRun(run) && k < |Final(run).trace.executed|
  {
    var s, id := Final(run), Final(run).trace.executed[k];
    && BlockStart(s.trace, k + 1) <= |s.trace.log|
    && (EndsComplete(s.trace, k) ==>
          && PlanEnd(run, id).Some?
          && s.trace.log[BlockStart(s.trace, k + 1) - 1].taskStatus == Some(FinalStatus(id, PlanEnd(run, id))))
  }

  lemma EndsWith(s: State, k: nat, planned: Option<TaskOutcome>)
    requires k < |s.trace.executed| && BlockStart(s.trace, k + 1) <= |s.trace.log|
    requires FollowsGrammar(s, k) && EndsComplete(s.trace, k)
    requires Record(s.store, s.trace.executed[k]).outcome == planned
    ensures planned.Some?
    ensures s.trace.log[BlockStart(s.trace, k + 1) - 1].taskStatus == Some(FinalStatus(s.trace.executed[k], planned))
  {
  }

  /** A block that follows the grammar ends in what the plan came to. */
  lemma EndsWithOutcome(run: seq<Action>, k: nat)
    requires IsRun(run) && InTurn(run) && k < |Final(run).trace.executed|
    requires BlockStart(Final(run).trace, k + 1) <= |Final(run).trace.log| && FollowsGrammar(Final(run), k)
    ensures EndsAsPlanned(run, k)
  {
    var s := Final(run);
    RecordHolds(run, s.trace.executed[k]);
    if EndsComplete(s.trace, k) {
      EndsWith(s, k, PlanEnd(run, s.trace.executed[k]));
    }
  }

  /** A state change is published with the new state, and the errors and the task status of that moment. */
  lemma StateChangeIsPublished(run: seq<Action>, to: WorkerState)
    requires IsRun(run) && InTurn(run)
    ensures IsRun(run + [EngineChanges(to)])
    ensures var s, t := Final(run), Final(run + [EngineChanges(to)]);
            && t.engine == to && t.trace.log == s.trace.log + [WorkerEvent(to, CurrentStatus(run), WorkerErrors(run))]
  {
    var longer := run + [EngineChanges(to)];
    assert longer[..|longer| - 1] == run;
    InTurnExtends(run, EngineChanges(to));
    LogHolds(run);
    LogHolds(longer);
    EngineHolds(longer);
  }

  lemma InTurnExtends(run: seq<Action>, a: Action)
    requires IsRun(run) && InTurn(run) && Enabled(Final(run), a) && IsInTurn(Final(run), a)
    ensures IsRun(run + [a]) && InTurn(run + [a])
  {
    var longer := Extend(run, a);
  }

  /** Over every run the log is a prelude and one block per executed task, in order and each about its own task. */
  lemma EventsFollowGrammar(run: seq<Action>)
    requires IsRun(run) && InTurn(run) && Unrepeated(run)
    ensures Shape(Final(run).trace)
    ensures forall k :: 0 <= k < |Final(run).trace.executed| ==>
              (FollowsGrammar(Final(run), k) <==> Quiet(run, Final(run).trace.executed[k]))
    ensures forall k :: 0 <= k < |Final(run).trace.executed| && Quiet(run, Final(run).trace.executed[k]) ==>
              EndsAsPlanned(run, k)
  {
    KnownHolds(run);
    forall k | 0 <= k < |Final(run).trace.executed| && Quiet(run, Final(run).trace.executed[k])
      ensures EndsAsPlanned(run, k)
    {
      BlockExactly(run, k);
      EndsWithOutcome(run, k);
    }
    forall k | 0 <= k < |Final(run).trace.executed|
      ensures FollowsGrammar(Final(run), k) <==> Quiet(run, Final(run).trace.executed[k])
    {
      BlockExactly(run, k);
    }
  }

  /** Such a state change does happen: a resume after the task is done publishes its completion again. */
  lemma LateStateChange(id: TaskId) returns (run: seq<Action>)
    ensures IsRun(run) && InTurn(run) && Guarded(run) && Unrepeated(run) && !Quiet(run, id)
    ensures Final(run).trace.executed == [id] && |Final(run).trace.log| == 2
    ensures Final(run).trace.log[0].IsComplete() && Final(run).trace.log[1].IsComplete()
  {
    run := ExecutingWorker(id);
    run := Extend(run, Cycle(PlanReturns("")));
    assert id in Final(run).store.pending && CurrentUnfinished(Final(run));
    run := MoveToCompleted(run, id);
    KnownHolds(run);
    run := ReportOnce(run, id);
    run := Extend(run, EngineChanges(RUNNING));
  }

  lemma ReportOnce(run: seq<Action>, id: TaskId) returns (longer: seq<Action>)
    requires IsRun(run) && InTurn(run) && Guarded(run) && Unrepeated(run)
    requires Final(run).at == Reporting && Final(run).current == Some(id)
    requires Final(run).trace == Trace([id], [0], [])
    ensures IsRun(longer) && InTurn(longer) && Guarded(longer) && Unrepeated(longer)
    ensures Final(longer).current == Some(id)
    ensures CurrentRecord(Final(longer)).isComplete && Final(longer).trace.executed == [id]
    ensures |Final(longer).trace.log| == 1 && Final(longer).trace.log[0].IsComplete()
  {
    ExecutionHolds(run);
    ConservationHolds(run);
    longer := Extend(run, Cycle(ReportCompletion(None)));
    longer := Extend(longer, Cycle(ClearErrors));
  }
}
