/** What a worker that was stopped and started again finds in its channel (src/blueapi/worker/task_worker.py). */
module Restart {
  import opened Basics
  import opened WorkerEvents
  import opened TaskProtocol
  import opened TaskSafety
  import opened TaskTheorems

  /** The loop will take nothing more before it ends. */
  ghost predicate PastTaking(s: State) {
    s.flags.stopping || !InLoop(s.at)
  }

  // ---------- when a signal stays behind ----------

  /** A stop put its kill signal into the channel of a worker already past taking one, and nothing was taken since. */
  ghost predicate StaleSignal(run: seq<Action>)
    requires IsRun(run)
  {
    |run| > 0 &&
    var before, a := run[..|run| - 1], run[|run| - 1];
    (a == Control(PutKill) && PastTaking(Final(before))) || (StaleSignal(before) && a != Cycle(Take))
  }

  ghost predicate SignalInv(s: State, stale: bool) {
    && (stale ==> s.channel == Some(KillSignal))
    && (s.channel == Some(KillSignal) && !stale ==> !PastTaking(s))
  }

  lemma SignalStep(s: State, a: Action, stale: bool)
    requires LifecycleInv(s) && SignalInv(s, stale) && Enabled(s, a)
    ensures SignalInv(Next(s, a), (a == Control(PutKill) && PastTaking(s)) || (stale && a != Cycle(Take)))
  {
    if a.Cycle? {
      SignalCycle(s, a.cycle, stale);
    }
  }

  lemma SignalCycle(s: State, c: CycleStep, stale: bool)
    requires LifecycleInv(s) && SignalInv(s, stale) && CycleEnabled(s, c)
    ensures SignalInv(AfterCycle(s, c), stale && c != Take)
  {
  }

  lemma {:induction false} SignalHolds(run: seq<Action>)
    requires IsRun(run) && InTurn(run)
    ensures SignalInv(Final(run), StaleSignal(run))
  {
    if |run| > 0 {
      var before := run[..|run| - 1];
      LifecycleHolds(before);
      SignalHolds(before);
      SignalStep(Final(before), run[|run| - 1], StaleSignal(before));
    }
  }

  /** A stop that returns leaves a kill signal behind exactly if one was put when the worker was past taking it. */
  lemma SignalLeftExactly(run: seq<Action>)
    requires IsRun(run) && InTurn(run) && IsRun(run + [Control(StopReturns)])
    ensures Final(run + [Control(StopReturns)]).channel == Some(KillSignal) <==> StaleSignal(run)
  {
    var whole := run + [Control(StopReturns)];
    assert whole[..|whole| - 1] == run;
    LifecycleHolds(run);
    SignalHolds(run);
  }

  // ---------- callers that wait ----------

  /** No call of start or stop gave up waiting. */
  predicate Patient(run: seq<Action>) {
    forall a :: a in run ==> a != Control(StartTimesOut) && a != Control(GiveUpWaitingForStop)
  }

  /** What the one caller is doing says where the worker is. */
  ghost predicate CallerInv(s: State) {
    && (s.flags.stopping || s.at == Leaving || s.at == Unstarted || s.at == Unstopping ==>
          s.caller == StopAwaitsStopped)
    && (s.channel == Some(KillSignal) ==> s.caller == StopAwaitsStopped && !PastTaking(s))
    && match s.caller
       case NoCall => s.at == Dead || !PastTaking(s)
       case StartAwaitsStopped => s.at == Dead
       case StartAwaitsStarted => s.at == Spawned || s.at == Entering || !PastTaking(s)
       case StopPutsKill => !PastTaking(s)
       case StopAwaitsStopped => s.at != Spawned && s.at != Entering
  }

  lemma CallerStep(s: State, a: Action)
    requires LifecycleInv(s) && CallerInv(s) && Enabled(s, a)
    requires a != Control(StartTimesOut) && a != Control(GiveUpWaitingForStop)
    ensures CallerInv(Next(s, a))
  {
    match a
    case Control(c) => CallerControl(s, c);
    case Loop(l) => CallerLoop(s, l);
    case Cycle(c) => CallerCycle(s, c);
    case _ =>
  }

  lemma CallerControl(s: State, c: ControlStep)
    requires LifecycleInv(s) && CallerInv(s) && ControlEnabled(s, c) && !c.StartTimesOut? && !c.GiveUpWaitingForStop?
    ensures CallerInv(AfterControl(s, c))
  {
  }

  lemma CallerLoop(s: State, l: LoopStep)
    requires LifecycleInv(s) && CallerInv(s) && LoopEnabled(s, l)
    ensures CallerInv(AfterLoop(s, l))
  {
  }

  lemma CallerCycle(s: State, c: CycleStep)
    requires LifecycleInv(s) && CallerInv(s) && CycleEnabled(s, c)
    ensures CallerInv(AfterCycle(s, c))
  {
  }

  lemma {:induction false} PatientHolds(run: seq<Action>)
    requires IsRun(run) && Patient(run)
    ensures InTurn(run) && CallerInv(Final(run)) && !StaleSignal(run)
  {
    if |run| > 0 {
      var before, a := run[..|run| - 1], run[|run| - 1];
      assert a in run && forall b :: b in before ==> b in run;
      PatientHolds(before);
      LifecycleHolds(before);
      CallerStep(Final(before), a);
    }
  }

  /** If every call waits as long as it takes, no stop leaves a kill signal behind. */
  lemma PatientStopLeavesNoSignal(run: seq<Action>)
    requires IsRun(run) && Patient(run) && IsRun(run + [Control(StopReturns)])
    ensures Final(run + [Control(StopReturns)]).channel != Some(KillSignal)
  {
    PatientHolds(run);
    SignalLeftExactly(run);
  }

  // ---------- the restarted worker ----------

  /**
   * The restarted worker executes what is begun next: the task left in the channel if there is one, and otherwise the
   * first that a begin hands over.
   */
  lemma RestartExecutes(run: seq<Action>, id: TaskId) returns (longer: seq<Action>)
    requires IsRun(run) && InTurn(run) && IsRun(run + [Control(StopReturns)]) && !StaleSignal(run)
    requires var s := Final(run + [Control(StopReturns)]);
             if s.channel.Some? then s.channel == Some(RunTask(id)) else BeginResult(s, id, true) == HandedOver
    ensures run + [Control(StopReturns)] <= longer && IsRun(longer)
    ensures var s, t := Final(run + [Control(StopReturns)]), Final(longer);
            t.at == Executing && t.current == Some(id) && t.trace.executed == s.trace.executed + [id]
  {
    longer := RestartPossible(run);
    longer := ExecutesNext(longer, id);
  }

  lemma ExecutesNext(run: seq<Action>, id: TaskId) returns (longer: seq<Action>)
    requires IsRun(run) && Final(run).at == Awaiting
    requires var s := Final(run);
             if s.channel.Some? then s.channel == Some(RunTask(id)) else BeginResult(s, id, true) == HandedOver
    ensures run <= longer && IsRun(longer)
    ensures var s, t := Final(run), Final(longer);
            t.at == Executing && t.current == Some(id) && t.trace.executed == s.trace.executed + [id]
  {
    longer := run;
    if Final(run).channel.None? {
      longer := Extend(longer, Call(Begin(id, true)));
    }
    longer := Extend(longer, Cycle(Take));
  }

  /** With a signal left behind it takes that, and stops. */
  lemma RestartStopsAtOnce(run: seq<Action>) returns (longer: seq<Action>)
    requires IsRun(run) && InTurn(run) && IsRun(run + [Control(StopReturns)]) && StaleSignal(run)
    ensures run + [Control(StopReturns)] <= longer && IsRun(longer)
    ensures var s, t := Final(run + [Control(StopReturns)]), Final(longer);
            t.flags.stopping && t.at == Finishing && t.trace.executed == s.trace.executed
  {
    SignalLeftExactly(run);
    longer := RestartPossible(run);
    longer := Extend(longer, Cycle(Take));
  }

  /** A stop that gave up, and a second one while the first one's signal is being taken. */
  lemma SecondStopLeavesSignal() returns (run: seq<Action>)
    ensures IsRun(run) && InTurn(run) && IsRun(run + [Control(StopReturns)]) && StaleSignal(run)
  {
    run := StartedWorker();
    run := Extend(run, Control(StartReturns));
    run := Extend(run, Control(CallStop));
    run := Extend(run, Control(PutKill));
    run := Extend(run, Control(GiveUpWaitingForStop));
    run := Extend(run, Control(CallStop));
    run := StaleKill(run);
    run := StoppedLoop(run);
    var _ := Extend(run, Control(StopReturns));
  }

  lemma StaleKill(run: seq<Action>) returns (longer: seq<Action>)
    requires IsRun(run) && InTurn(run) && Final(run).at == Awaiting && Final(run).current == None
    requires Final(run).channel == Some(KillSignal) && Final(run).caller == StopPutsKill
    ensures IsRun(longer) && InTurn(longer) && StaleSignal(longer)
    ensures var s := Final(longer);
            s.at == Finishing && s.flags.stopping && s.current == None && s.caller == StopAwaitsStopped
  {
    longer := Extend(run, Cycle(Take));
    var taken := longer;
    longer := Extend(longer, Control(PutKill));
    assert longer[..|longer| - 1] == taken;
  }

  lemma ExtendStale(run: seq<Action>, a: Action) returns (longer: seq<Action>)
    requires IsRun(run) && InTurn(run) && StaleSignal(run) && Enabled(Final(run), a)
    requires IsInTurn(Final(run), a) && a != Cycle(Take)
    ensures IsRun(longer) && InTurn(longer) && StaleSignal(longer) && Final(longer) == Next(Final(run), a)
  {
    longer := Extend(run, a);
    assert longer[..|longer| - 1] == run;
  }

  lemma StoppedLoop(run: seq<Action>) returns (longer: seq<Action>)
    requires IsRun(run) && InTurn(run) && StaleSignal(run)
    requires var s := Final(run);
             s.at == Finishing && s.flags.stopping && s.current == None && s.caller == StopAwaitsStopped
    ensures IsRun(longer) && InTurn(longer) && StaleSignal(longer)
    ensures Final(longer).flags.stopped && Final(longer).caller == StopAwaitsStopped
  {
    longer := ExtendStale(run, Cycle(MarkComplete));
    longer := ExtendStale(longer, Cycle(ReportCompletion(None)));
    longer := ExtendStale(longer, Cycle(ClearErrors));
    longer := ExtendStale(longer, Loop(CheckStopping));
    longer := ExtendStale(longer, Loop(ClearStarted));
    longer := ExtendStale(longer, Loop(ClearStopping));
    longer := ExtendStale(longer, Loop(SetStopped));
  }
}
