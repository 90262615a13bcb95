/**
 How long the subscriptions of a begin live (src/blueapi/service/interface.py), when the events published meanwhile are
 those of a run of the worker (src/blueapi/worker/task_worker.py).
 */
module SubscriptionLifetimes {
  import opened Basics
  import opened WorkerEvents
  import opened TaskProtocol
  import opened TaskSafety
  import opened EventGrammar
  import opened TaskTheorems
  import opened Completion
  import opened EventPublisher
  import opened TaskSubscriptions

  // ---------- a request sees its task's completion exactly if it is published ----------

  /** The events published in the course of some steps. */
  function PublishedIn(steps: seq<RequestStep>): (events: seq<WorkerEvent>)
    decreases |steps|
  {
    if steps == [] then []
    else (if steps[0].WorkerPublishes? then [steps[0].event] else []) + PublishedIn(steps[1..])
  }

  predicate CompletesTaskIn(events: seq<WorkerEvent>, id: TaskId) {
    exists i :: 0 <= i < |events| && events[i].IsComplete() && events[i].Concerns(id)
  }

  lemma CompletesInTail(e: WorkerEvent, events: seq<WorkerEvent>, id: TaskId)
    ensures CompletesTaskIn([e] + events, id) <==> (e.IsComplete() && e.Concerns(id)) || CompletesTaskIn(events, id)
  {
    var all := [e] + events;
    if i :| 0 <= i < |events| && events[i].IsComplete() && events[i].Concerns(id) {
      assert all[i + 1] == events[i];
    }
    if e.IsComplete() && e.Concerns(id) {
      assert all[0] == e;
    }
  }

  /** No step leads back from a request that is over, or to before it was watching. */
  lemma {:induction false} StaysWatching(r: Request, steps: seq<RequestStep>)
    requires CanDo(r, steps) && DoAll(r, steps).phase == Returned
    requires WatchingNow(r) || r.phase == Raised
    ensures WatchingNow(r)
    decreases |steps|
  {
    if steps != [] {
      StaysWatching(Do(r, steps[0]), steps[1..]);
    }
  }

  lemma {:induction false} CompletedIfPublished(r: Request, steps: seq<RequestStep>, id: TaskId)
    requires r.id == Some(id) && WatchingNow(r) && CanDo(r, steps) && DoAll(r, steps).phase == Returned
    ensures DoAll(r, steps).completed <==> r.completed || CompletesTaskIn(PublishedIn(steps), id)
    decreases |steps|
  {
    if steps != [] {
      var t := Do(r, steps[0]);
      StaysWatching(t, steps[1..]);
      CompletedIfPublished(t, steps[1..], id);
      if steps[0].WorkerPublishes? {
        CompletesInTail(steps[0].event, PublishedIn(steps[1..]), id);
      } else {
        assert [] + PublishedIn(steps[1..]) == PublishedIn(steps[1..]);
      }
    }
  }

  // ---------- the worker publishes it exactly if the task was done, and not cleared ----------

  lemma {:induction false} CompletionsIfAny(log: seq<WorkerEvent>, id: TaskId)
    ensures LogCompletions(log, id) != [] <==> CompletesTaskIn(log, id)
  {
    if log != [] {
      var front := log[..|log| - 1];
      CompletionsIfAny(front, id);
      if CompletesTaskIn(front, id) {
        var i :| 0 <= i < |front| && front[i].IsComplete() && front[i].Concerns(id);
        assert log[i] == front[i];
      }
      if i :| 0 <= i < |log| && log[i].IsComplete() && log[i].Concerns(id) {
        assert i < |front| ==> front[i] == log[i];
      }
    }
  }

  lemma OnlyExecutedAreMentioned(run: seq<Action>, i: nat, id: TaskId)
    requires IsRun(run) && InTurn(run) && Unrepeated(run) && i < |Final(run).trace.log|
    requires Final(run).trace.log[i].Concerns(id)
    ensures id in Final(run).trace.executed
  {
    KnownHolds(run);
    var tr := Final(run).trace;
    assert tr.log[i].taskStatus.Some?;
    var k := BlockOf(tr, i, |tr.executed|);
    assert Belongs(tr, k) && InBlock(tr, k, i);
  }

  /**
   * The task has been reported complete: its cycle has decided and it was not cleared while it was pending, or the
   * engine reported a state when it was already complete.
   */
  ghost predicate Reported(run: seq<Action>, id: TaskId)
    requires IsRun(run)
  {
    exists k: nat :: k < |Final(run).trace.executed| && Final(run).trace.executed[k] == id
                     && ((!OpenBlock(Final(run), k) && id !in Final(run).store.withdrawn) || !Quiet(run, id))
  }

  lemma ReportedIfPublished(run: seq<Action>, n: nat, id: TaskId)
    requires IsRun(run) && InTurn(run) && Unrepeated(run) && n <= |run| && IsRun(run[..n])
    requires id !in Final(run[..n]).trace.executed
    ensures |Final(run[..n]).trace.log| <= |Final(run).trace.log|
    ensures CompletesTaskIn(Final(run).trace.log[|Final(run[..n]).trace.log|..], id) <==> Reported(run, id)
  {
    TraceGrows(run, n);
    var s := Final(run);
    var base := |Final(run[..n]).trace.log|;
    var seen := s.trace.log[base..];
    CompletionsIfAny(seen, id);
    ExecutionHolds(run);
    if id in s.trace.executed {
      var k: nat :| k < |s.trace.executed| && s.trace.executed[k] == id;
      assert RecordInv(s, id);
      LogSince(run, n, k);
      assert forall j: nat :: j < |s.trace.executed| && s.trace.executed[j] == id ==> j == k;
    } else if i :| 0 <= i < |seen| && seen[i].IsComplete() && seen[i].Concerns(id) {
      OnlyExecutedAreMentioned(run, base + i, id);
    }
  }

  // ---------- both together ----------

  /**
   * A request whose removal callback was subscribed when the worker had done the first n steps of a run, and that has
   * seen what the worker published since: `before` leads up to that moment, `after` is what came then.
   */
  ghost predicate Accompanies(run: seq<Action>, n: nat, r: Request,
                              before: seq<RequestStep>, after: seq<RequestStep>, id: TaskId)
    requires IsRun(run) && n <= |run| && IsRun(run[..n])
  {
    && Arrives(r) && r.id == Some(id) && CanDo(r, before) && CanDo(DoAll(r, before), after)
    && DoAll(r, before).phase == Watching && !DoAll(r, before).completed
    && id !in Final(run[..n]).trace.executed
    && |Final(run[..n]).trace.log| <= |Final(run).trace.log|
    && PublishedIn(after) == Final(run).trace.log[|Final(run[..n]).trace.log|..]
  }

  lemma {:induction false} StepsInTwo(r: Request, before: seq<RequestStep>, after: seq<RequestStep>)
    requires CanDo(r, before) && CanDo(DoAll(r, before), after)
    ensures CanDo(r, before + after) && DoAll(r, before + after) == DoAll(DoAll(r, before), after)
    decreases |before|
  {
    if before == [] {
      assert before + after == after;
    } else {
      var rest := before[1..] + after;
      assert before + after == [before[0]] + rest;
      StepsInTwo(Do(r, before[0]), before[1..], after);
      FirstStep(r, before[0], rest);
    }
  }

  lemma {:induction false} IdStays(r: Request, steps: seq<RequestStep>)
    requires CanDo(r, steps)
    ensures DoAll(r, steps).id == r.id
    decreases |steps|
  {
    if steps != [] {
      IdStays(Do(r, steps[0]), steps[1..]);
    }
  }

  /**
   * Over every run of the worker, and whatever other requests and pipes do: a begin that failed leaves both streams as
   * if it had never been made.  One that returned does so exactly once its task is reported complete; until then, and
   * for ever if the task is cleared while it runs, exactly its two subscriptions remain.
   */
  lemma LivesUntilReported(run: seq<Action>, n: nat, r: Request,
                           before: seq<RequestStep>, after: seq<RequestStep>, id: TaskId)
    requires IsRun(run) && InTurn(run) && Unrepeated(run) && n <= |run| && IsRun(run[..n])
    requires Accompanies(run, n, r, before, after, id)
    ensures CanDo(r, before + after)
    ensures var t := DoAll(r, before + after);
            && (t.phase == Raised ==> Restored(t))
            && (t.phase == Returned ==>
                  (Restored(t) <==> Reported(run, id)) && (LeftBehind(t) <==> !Reported(run, id)))
  {
    StepsInTwo(r, before, after);
    IdStays(r, before);
    SubscriptionsConserved(r, before + after);
    ReportedIfPublished(run, n, id);
    if DoAll(r, before + after).phase == Returned {
      CompletedIfPublished(DoAll(r, before), after, id);
    }
  }

  /** For a task the engine left in peace, that is: once it is done, unless it was cleared while it was pending. */
  lemma ReportedInPeace(run: seq<Action>, k: nat)
    requires IsRun(run) && InTurn(run) && Unrepeated(run) && k < |Final(run).trace.executed|
    requires Quiet(run, Final(run).trace.executed[k])
    ensures Reported(run, Final(run).trace.executed[k]) <==>
            !OpenBlock(Final(run), k) && Final(run).trace.executed[k] !in Final(run).store.withdrawn
  {
    ExecutionHolds(run);
  }

  // ---------- a task cleared while it runs ----------

  /** It never gets a completion event, and the begin that started it leaves its two subscriptions behind. */
  lemma ClearedWhileRunning(id: TaskId)
    returns (run: seq<Action>, r: Request, before: seq<RequestStep>, after: seq<RequestStep>)
    ensures IsRun(run) && InTurn(run) && Guarded(run) && Unrepeated(run) && IsRun(run[..0])
    ensures Accompanies(run, 0, r, before, after, id)
    ensures Final(run).at == Awaiting && id in Final(run).store.withdrawn && Final(run).trace.executed == [id]
    ensures DoAll(r, before + after).phase == Returned && LeftBehind(DoAll(r, before + after))
  {
    run := ClearedRun(id);
    assert run[..0] == [];
    var event := Final(run).trace.log[0];
    r, before, after := RequestOfCleared(event, id);
    assert Final(run).trace.log[0..] == [event];
    StepsInTwo(r, before, after);
    LivesUntilReported(run, 0, r, before, after, id);
    GrammarHolds(run, 0);
  }

  lemma ClearedRun(id: TaskId) returns (run: seq<Action>)
    ensures IsRun(run) && InTurn(run) && Guarded(run) && Unrepeated(run)
    ensures var s := Final(run);
            && s.at == Awaiting && id in s.store.withdrawn && s.trace.executed == [id]
            && |s.trace.log| == 1 && !s.trace.log[0].IsComplete()
  {
    run := ExecutingWorker(id);
    run := Extend(run, EngineChanges(RUNNING));
    var event := StatusEvent(Final(run));
    assert Final(run).trace == Trace([id], [0], [event]) && !event.IsComplete();
    run := Extend(run, Call(Clear(id)));
    assert Final(run).store == Store(map[id := NEW_TASK.(isPending := false)], {}, {}, {id}, {});
    run := PoppedCleared(run, id);
  }

  lemma PoppedCleared(run: seq<Action>, id: TaskId) returns (longer: seq<Action>)
    requires IsRun(run) && InTurn(run) && Guarded(run) && Unrepeated(run)
    requires var s := Final(run);
             && s.at == Executing && s.current == Some(id) && !s.flags.stopping
             && id in s.store.tasks && id in s.store.withdrawn && id !in s.store.pending
    ensures IsRun(longer) && InTurn(longer) && Guarded(longer) && Unrepeated(longer)
    ensures Final(longer).at == Awaiting && Final(longer).trace == Final(run).trace
    ensures id in Final(longer).store.withdrawn
  {
    longer := Extend(run, Cycle(PlanReturns("")));
    longer := Extend(longer, Cycle(MarkComplete));
    PopAt(Final(longer), id);
    longer := Extend(longer, Cycle(PopPending));
    longer := Extend(longer, Loop(CheckStopping));
  }

  lemma FirstStep(r: Request, step: RequestStep, rest: seq<RequestStep>)
    requires Possible(r, step)
    ensures CanDo(r, [step] + rest) <==> CanDo(Do(r, step), rest)
    ensures DoAll(r, [step] + rest) == DoAll(Do(r, step), rest)
    ensures PublishedIn([step] + rest) == (if step.WorkerPublishes? then [step.event] else []) + PublishedIn(rest)
  {
    assert ([step] + rest)[1..] == rest;
  }

  lemma RequestOfCleared(event: WorkerEvent, id: TaskId)
    returns (r: Request, before: seq<RequestStep>, after: seq<RequestStep>)
    requires !event.IsComplete()
    ensures Arrives(r) && r.id == Some(id) && CanDo(r, before) && CanDo(DoAll(r, before), after)
    ensures DoAll(r, before).phase == Watching && !DoAll(r, before).completed
    ensures DoAll(DoAll(r, before), after).phase == Returned && PublishedIn(after) == [event]
  {
    r := Request(Some(id), Arrived, Subs([], 0), {}, 0, 0, 0, 0, false, Subs([], 0), {});
    before := [SubscribeWriter] + ([SubscribeRemoval] + []);
    FirstStep(r, SubscribeWriter, [SubscribeRemoval] + []);
    FirstStep(Do(r, SubscribeWriter), SubscribeRemoval, []);
    IdStays(r, before);
    after := StepsOfCleared(DoAll(r, before), event);
  }

  lemma StepsOfCleared(r: Request, event: WorkerEvent) returns (after: seq<RequestStep>)
    requires r.phase == Watching && r.id.Some?
    ensures CanDo(r, after) && DoAll(r, after).phase == Returned && PublishedIn(after) == [event]
  {
    after := [SubscribeMark] + ([WorkerPublishes(event)] + ([WaitEnds(true)] + []));
    FirstStep(r, SubscribeMark, [WorkerPublishes(event)] + ([WaitEnds(true)] + []));
    var marked := Do(r, SubscribeMark);
    FirstStep(marked, WorkerPublishes(event), [WaitEnds(true)] + []);
    FirstStep(Do(marked, WorkerPublishes(event)), WaitEnds(true), []);
  }

  // ---------- a task whose begin gave up ----------

  /**
   * A begin that times out takes its subscriptions back but leaves its task in the channel: the task is executed later,
   * with nothing of the request's subscribed, and is done like any other.
   */
  lemma RaisedYetExecuted(id: TaskId)
    returns (run: seq<Action>, n: nat, r: Request, before: seq<RequestStep>, after: seq<RequestStep>)
    ensures IsRun(run) && InTurn(run) && Guarded(run) && Unrepeated(run) && n <= |run| && IsRun(run[..n])
    ensures Accompanies(run, n, r, before, after, id)
    ensures Final(run[..n]).channel == Some(RunTask(id))
    ensures Final(run).at == Executing && Final(run).current == Some(id) && Final(run).trace.executed == [id]
    ensures DoAll(r, before + after).phase == Raised && Restored(DoAll(r, before + after))
  {
    var waiting := WaitingTask(id);
    n := |waiting|;
    run := Extend(waiting, Cycle(Take));
    assert run[..n] == waiting;
    assert Final(run).trace.log[|Final(waiting).trace.log|..] == [];
    r, before, after := RequestThatGaveUp(id);
    StepsInTwo(r, before, after);
    LivesUntilReported(run, n, r, before, after, id);
  }

  lemma WaitingTask(id: TaskId) returns (run: seq<Action>)
    ensures IsRun(run) && InTurn(run) && Guarded(run) && Unrepeated(run)
    ensures Final(run).at == Awaiting && Final(run).channel == Some(RunTask(id))
    ensures Final(run).trace == Trace([], [], [])
  {
    run := StartedWorker();
    run := Extend(run, Call(Submit(id)));
    assert Final(run).store == Store(map[id := NEW_TASK], {id}, {}, {}, {});
    run := Extend(run, Call(Begin(id, true)));
  }

  lemma RequestThatGaveUp(id: TaskId) returns (r: Request, before: seq<RequestStep>, after: seq<RequestStep>)
    ensures Arrives(r) && r.id == Some(id) && CanDo(r, before) && CanDo(DoAll(r, before), after)
    ensures DoAll(r, before).phase == Watching && !DoAll(r, before).completed
    ensures DoAll(DoAll(r, before), after).phase == Raised && PublishedIn(after) == []
  {
    r := Request(Some(id), Arrived, Subs([], 0), {}, 0, 0, 0, 0, false, Subs([], 0), {});
    before := [SubscribeWriter] + ([SubscribeRemoval] + []);
    FirstStep(r, SubscribeWriter, [SubscribeRemoval] + []);
    FirstStep(Do(r, SubscribeWriter), SubscribeRemoval, []);
    IdStays(r, before);
    after := StepsThatGaveUp(DoAll(r, before));
  }

  lemma StepsThatGaveUp(r: Request) returns (after: seq<RequestStep>)
    requires r.phase == Watching && r.id.Some?
    ensures CanDo(r, after) && DoAll(r, after).phase == Raised && PublishedIn(after) == []
  {
    var cleaning: seq<RequestStep> := [CleanEngine] + ([CleanWorker] + []);
    after := [SubscribeMark] + ([WaitEnds(false)] + cleaning);
    FirstStep(r, SubscribeMark, [WaitEnds(false)] + cleaning);
    var failing := Do(Do(r, SubscribeMark), WaitEnds(false));
    FirstStep(Do(r, SubscribeMark), WaitEnds(false), cleaning);
    FirstStep(failing, CleanEngine, [CleanWorker] + []);
    FirstStep(Do(failing, CleanEngine), CleanWorker, []);
  }
}
