/**
 How a client learns that its task is complete: run_task listens to every event on the message bus
 (src/blueapi/client/client.py), while run_blocking reads what the server's run_plan loop chooses to forward
 (src/blueapi/service/main.py).  Both are shown to return the completion status the worker published.
 */
module Completion {
  import opened Basics
  import opened WorkerEvents
  import opened TaskProtocol
  import opened TaskSafety
  import opened EventGrammar
  import opened TaskHistory
  import opened TaskTheorems

  /** An event as delivered, with the correlation id of its message. */
  datatype AnyEvent =
    | WorkerMessage(event: WorkerEvent, correlation: Option<TaskId>)
    | ProgressMessage(taskId: TaskId)
    | DataMessage(taskId: TaskId, document: string)

  // ---------- the two clients and the server's filter ----------

  /** `evt.task_id` */
  function EventTask(e: AnyEvent): Option<TaskId> {
    match e
    case WorkerMessage(w, _) => if w.taskStatus.Some? then Some(w.taskStatus.value.taskId) else None
    case ProgressMessage(id) => Some(id)
    case DataMessage(id, _) => Some(id)
  }

  predicate IsCompletion(e: AnyEvent) {
    e.WorkerMessage? && e.event.IsComplete()
  }

  predicate CompletesTask(e: AnyEvent, id: TaskId) {
    IsCompletion(e) && EventTask(e) == Some(id)
  }

  /** The completion statuses of one task in a stream. */
  function Completions(events: seq<AnyEvent>, id: TaskId): seq<TaskStatus> {
    if events == [] then []
    else Completions(events[..|events| - 1], id) +
         if CompletesTask(events[|events| - 1], id) then [events[|events| - 1].event.taskStatus.value] else []
  }

  /** Every worker event travels with its task's id as correlation id. */
  ghost predicate Correlated(events: seq<AnyEvent>) {
    forall e :: e in events && e.WorkerMessage? ==> e.correlation == EventTask(e)
  }

  /** The completions that run_task acts on: they must also carry the task's id as correlation id. */
  function BusCompletions(events: seq<AnyEvent>, id: TaskId): seq<TaskStatus> {
    if events == [] then []
    else
      var last := events[|events| - 1];
      BusCompletions(events[..|events| - 1], id) +
      if CompletesTask(last, id) && last.correlation == Some(id) then [last.event.taskStatus.value] else []
  }

  lemma {:induction false} CorrelatedOnBus(events: seq<AnyEvent>, id: TaskId)
    requires Correlated(events)
    ensures BusCompletions(events, id) == Completions(events, id)
  {
    if events != [] {
      CorrelatedOnBus(events[..|events| - 1], id);
      assert events[|events| - 1] in events;
    }
  }

  /** inner_on_event for every delivered message; setting a Future twice is an error. */
  method RunTask(events: seq<AnyEvent>, id: TaskId) returns (future: Option<TaskStatus>, setTwice: bool)
    ensures var all := BusCompletions(events, id);
            (future == if all == [] then None else Some(all[0])) && (setTwice <==> |all| > 1)
  {
    future, setTwice := None, false;
    for i := 0 to |events|
      invariant var all := BusCompletions(events[..i], id);
                (future == if all == [] then None else Some(all[0])) && (setTwice <==> |all| > 1)
    {
      assert events[..i + 1][..i] == events[..i];
      var e := events[i];
      var relates := match e
        case WorkerMessage(w, _) => w.taskStatus.Some? && w.taskStatus.value.taskId == id
        case ProgressMessage(test) => test == id
        case DataMessage(_, _) => true;
      if relates && e.WorkerMessage? && e.event.IsComplete() && e.correlation == Some(id) {
        if future.Some? {
          setTwice := true;
        } else {
          future := e.event.taskStatus;
        }
      }
    }
    assert events[..|events|] == events;
  }

  function OwnEvents(events: seq<AnyEvent>, id: TaskId): seq<AnyEvent> {
    if events == [] then []
    else OwnEvents(events[..|events| - 1], id) +
         if EventTask(events[|events| - 1]) == Some(id) then [events[|events| - 1]] else []
  }

  /** The server's loop over the event pipe: own events, up to and including the first completion. */
  method RunPlan(events: seq<AnyEvent>, id: TaskId) returns (sent: seq<AnyEvent>)
    ensures sent <= OwnEvents(events, id)
    ensures forall i :: 0 <= i < |sent| - 1 ==> !IsCompletion(sent[i])
    ensures sent < OwnEvents(events, id) ==> sent != [] && IsCompletion(sent[|sent| - 1])
  {
    sent := [];
    var i := 0;
    while i < |events|
      invariant 0 <= i <= |events|
      invariant sent == OwnEvents(events[..i], id)
      invariant forall j :: 0 <= j < |sent| ==> !IsCompletion(sent[j])
    {
      assert events[..i + 1][..i] == events[..i];
      var e := events[i];
      i := i + 1;
      if EventTask(e) != Some(id) {
        continue;
      }
      sent := sent + [e];
      if IsCompletion(e) {
        OwnEventsGrow(events, i, id);
        return;
      }
    }
    assert events[..i] == events;
  }

  lemma {:induction false} OwnEventsGrow(events: seq<AnyEvent>, n: nat, id: TaskId)
    requires n <= |events|
    ensures OwnEvents(events[..n], id) <= OwnEvents(events, id)
  {
    if n == |events| {
      assert events[..n] == events;
    } else {
      OwnEventsGrow(events[..|events| - 1], n, id);
      assert events[..|events| - 1][..n] == events[..n];
    }
  }

  datatype ClientError = ConnectionClosed

  /** The client's loop over what the server sent. */
  method RunBlocking(events: seq<AnyEvent>) returns (r: Result<TaskStatus, ClientError>)
    ensures r.Ok? ==> exists i :: 0 <= i < |events| && IsCompletion(events[i])
                                  && r == Ok(events[i].event.taskStatus.value)
                                  && forall j :: 0 <= j < i ==> !IsCompletion(events[j])
    ensures r.Err? ==> r.error == ConnectionClosed && forall i :: 0 <= i < |events| ==> !IsCompletion(events[i])
  {
    for i := 0 to |events|
      invariant forall j :: 0 <= j < i ==> !IsCompletion(events[j])
    {
      if events[i].WorkerMessage? && events[i].event.IsComplete() {
        return Ok(events[i].event.taskStatus.value);
      }
    }
    r := Err(ConnectionClosed);
  }

  lemma {:induction false} CompletionsOfOwn(events: seq<AnyEvent>, id: TaskId)
    ensures Completions(OwnEvents(events, id), id) == Completions(events, id)
    ensures forall e :: e in OwnEvents(events, id) ==> EventTask(e) == Some(id)
  {
    if events != [] {
      CompletionsOfOwn(events[..|events| - 1], id);
      var own, last := OwnEvents(events[..|events| - 1], id), events[|events| - 1];
      assert (own + [last])[..|own|] == own && own + [] == own;
    }
  }

  /** What the server forwards is about the task: worker, progress and data events alike, and none of these is lost. */
  lemma {:induction false} OwnEventsExactly(events: seq<AnyEvent>, id: TaskId)
    ensures forall e :: e in OwnEvents(events, id) <==>
              e in events && match e
                             case WorkerMessage(w, _) => w.taskStatus.Some? && w.taskStatus.value.taskId == id
                             case ProgressMessage(task) => task == id
                             case DataMessage(task, _) => task == id
  {
    if events != [] {
      OwnEventsExactly(events[..|events| - 1], id);
      assert events == events[..|events| - 1] + [events[|events| - 1]];
    }
  }

  lemma {:induction false} CompletionsPrefix(events: seq<AnyEvent>, n: nat, id: TaskId)
    requires n <= |events|
    ensures Completions(events[..n], id) <= Completions(events, id)
  {
    if n == |events| {
      assert events[..n] == events;
    } else {
      CompletionsPrefix(events[..|events| - 1], n, id);
      assert events[..|events| - 1][..n] == events[..n];
    }
  }

  lemma {:induction false} NoCompletions(events: seq<AnyEvent>, id: TaskId)
    requires forall e :: e in events ==> !CompletesTask(e, id)
    ensures Completions(events, id) == []
  {
    if events != [] {
      NoCompletions(events[..|events| - 1], id);
      assert events[|events| - 1] in events;
    }
  }

  /** The server's filter followed by run_blocking returns the first completion of the task in the stream. */
  method RunOverWebsocket(events: seq<AnyEvent>, id: TaskId) returns (r: Result<TaskStatus, ClientError>)
    ensures var all := Completions(events, id); r == if all == [] then Err(ConnectionClosed) else Ok(all[0])
  {
    var sent := RunPlan(events, id);
    r := RunBlocking(sent);
    var own := OwnEvents(events, id);
    CompletionsOfOwn(events, id);
    forall e | e in sent ensures EventTask(e) == Some(id) {
      assert e in own;
    }
    assert own[..|sent|] == sent;
    CompletionsPrefix(own, |sent|, id);
    if r.Ok? {
      FirstIsOnlyInSent(sent, id);
      assert Completions(sent, id) == [r.value];
      assert Completions(events, id)[0] == Completions(sent, id)[0];
    } else {
      NoCompletions(sent, id);
      assert sent == own && Completions(events, id) == [];
    }
  }

  lemma FirstIsOnlyInSent(sent: seq<AnyEvent>, id: TaskId)
    requires sent != [] && (forall i :: 0 <= i < |sent| - 1 ==> !IsCompletion(sent[i]))
    requires IsCompletion(sent[|sent| - 1]) && EventTask(sent[|sent| - 1]) == Some(id)
    ensures Completions(sent, id) == [sent[|sent| - 1].event.taskStatus.value]
  {
    NoCompletions(sent[..|sent| - 1], id);
  }

  // ---------- composed with the worker ----------

  /** The worker events of a stream. */
  function WorkerPart(events: seq<AnyEvent>): seq<WorkerEvent> {
    if events == [] then []
    else WorkerPart(events[..|events| - 1]) +
         if events[|events| - 1].WorkerMessage? then [events[|events| - 1].event] else []
  }

  /** The completion statuses of one task among worker events alone. */
  function LogCompletions(log: seq<WorkerEvent>, id: TaskId): seq<TaskStatus> {
    if log == [] then []
    else LogCompletions(log[..|log| - 1], id) +
         if log[|log| - 1].IsComplete() && log[|log| - 1].Concerns(id) then [log[|log| - 1].taskStatus.value] else []
  }

  lemma {:induction false} OnlyWorkerEventsComplete(events: seq<AnyEvent>, id: TaskId)
    ensures Completions(events, id) == LogCompletions(WorkerPart(events), id)
  {
    if events != [] {
      var before, last := events[..|events| - 1], events[|events| - 1];
      OnlyWorkerEventsComplete(before, id);
      if last.WorkerMessage? {
        assert (WorkerPart(before) + [last.event])[..|WorkerPart(before)|] == WorkerPart(before);
      } else {
        assert WorkerPart(before) + [] == WorkerPart(before);
      }
    }
  }

  /** A log in which at most position `at` completes the task. */
  lemma {:induction false} SoleCompletion(log: seq<WorkerEvent>, id: TaskId, at: int)
    requires forall i :: 0 <= i < |log| && log[i].IsComplete() && log[i].Concerns(id) ==> i == at
    ensures LogCompletions(log, id) ==
            if 0 <= at < |log| && log[at].IsComplete() && log[at].Concerns(id) then [log[at].taskStatus.value] else []
  {
    if log != [] {
      SoleCompletion(log[..|log| - 1], id, at);
    }
  }

  /** Every position of the log is in the prelude or in exactly one block. */
  lemma {:induction false} BlockOf(tr: Trace, i: nat, n: nat) returns (k: nat)
    requires Ordered(tr) && n <= |tr.executed| && BlockStart(tr, 0) <= i < BlockStart(tr, n)
    ensures k < n && BlockStart(tr, k) <= i < BlockStart(tr, k + 1)
  {
    if i >= BlockStart(tr, n - 1) {
      k := n - 1;
    } else {
      k := BlockOf(tr, i, n - 1);
    }
  }

  /** Whatever the engine reports, a completion event of a task is in that task's block. */
  lemma CompletesInOwnBlock(run: seq<Action>, k: nat, i: nat)
    requires IsRun(run) && InTurn(run) && Unrepeated(run)
    requires k < |Final(run).trace.executed| && i < |Final(run).trace.log|
    requires Final(run).trace.log[i].Concerns(Final(run).trace.executed[k])
    ensures InBlock(Final(run).trace, k, i)
  {
    KnownHolds(run);
    ExecutionHolds(run);
    var tr := Final(run).trace;
    var j := BlockOf(tr, i, |tr.executed|);
    assert Belongs(tr, j) && InBlock(tr, j, i);
    assert tr.executed[j] == tr.executed[k];
  }

  // ---------- what was published before a given moment ----------

  lemma TraceStep(s: State, a: Action)
    requires Enabled(s, a)
    ensures var t := Next(s, a).trace;
            && s.trace.executed <= t.executed && s.trace.starts <= t.starts && s.trace.log <= t.log
            && |t.starts| - |s.trace.starts| == |t.executed| - |s.trace.executed| <= 1
            && (|t.starts| > |s.trace.starts| ==> t.starts[|s.trace.starts|] == |s.trace.log|)
  {
  }

  /** What is executed after a moment is published after that moment. */
  lemma {:induction false} TraceGrows(run: seq<Action>, n: nat)
    requires IsRun(run) && n <= |run|
    ensures IsRun(run[..n])
    ensures var s, t := Final(run[..n]).trace, Final(run).trace;
            && s.executed <= t.executed && s.log <= t.log
            && |s.starts| == |s.executed| && |t.starts| == |t.executed|
            && forall k :: |s.executed| <= k < |t.executed| ==> t.starts[k] >= |s.log|
  {
    if |run| == 0 {
      assert run[..n] == run;
    } else {
      var before := run[..|run| - 1];
      TraceGrows(before, if n == |run| then |run| - 1 else n);
      TraceStep(Final(before), run[|run| - 1]);
      if n == |run| {
        assert run[..n] == run;
      } else {
        assert before[..n] == run[..n];
      }
    }
  }

  /**
   The stream a client sees that subscribed after the first n steps of a run, before its task was begun: any
   interleaving of the worker events published since with progress and data events.
   */
  ghost predicate SeenSince(run: seq<Action>, n: nat, events: seq<AnyEvent>)
    requires IsRun(run) && n <= |run| && IsRun(run[..n])
  {
    && Correlated(events)
    && |Final(run[..n]).trace.log| <= |Final(run).trace.log|
    && WorkerPart(events) == Final(run).trace.log[|Final(run[..n]).trace.log|..]
  }

  /** What the worker owes a client that follows it: one completion, or none if the task is not done or was cleared. */
  ghost function Expected(s: State, k: nat): seq<TaskStatus>
    requires k < |s.trace.executed|
  {
    var id := s.trace.executed[k];
    if !OpenBlock(s, k) && id !in s.store.withdrawn && id in s.store.tasks
    then [FinalStatus(id, s.store.tasks[id].outcome)] else []
  }

  /** The same as the run's steps say: it carries what the plan returned or raised. */
  ghost function Owed(run: seq<Action>, k: nat): seq<TaskStatus>
    requires IsRun(run) && k < |Final(run).trace.executed|
  {
    var s, id := Final(run), Final(run).trace.executed[k];
    if !OpenBlock(s, k) && id !in s.store.withdrawn then [FinalStatus(id, PlanEnd(run, id))] else []
  }

  lemma OwedIsExpected(run: seq<Action>, k: nat)
    requires IsRun(run) && InTurn(run) && Unrepeated(run) && k < |Final(run).trace.executed|
    ensures Owed(run, k) == Expected(Final(run), k)
    ensures Owed(run, k) != [] ==> PlanEnd(run, Final(run).trace.executed[k]).Some?
  {
    var id := Final(run).trace.executed[k];
    ExecutionHolds(run);
    assert RecordInv(Final(run), id);
    RecordHolds(run, id);
    PlanEndsOnce(run, id);
  }

  /** The events of one task are published after the moment before which it was not executed. */
  ghost predicate OwnSince(tr: Trace, k: nat, base: nat)
    requires k < |tr.executed|
  {
    && base <= BlockStart(tr, k) <= BlockStart(tr, k + 1) <= |tr.log|
    && forall i: nat :: i < |tr.log| && tr.log[i].Concerns(tr.executed[k]) ==> InBlock(tr, k, i)
  }

  lemma OwnSinceHolds(run: seq<Action>, n: nat, k: nat)
    requires IsRun(run) && InTurn(run) && Unrepeated(run) && n <= |run| && IsRun(run[..n])
    requires k < |Final(run).trace.executed| && Final(run).trace.executed[k] !in Final(run[..n]).trace.executed
    ensures OwnSince(Final(run).trace, k, |Final(run[..n]).trace.log|)
  {
    TraceGrows(run, n);
    KnownHolds(run);
    var tr := Final(run).trace;
    assert BlockStart(tr, k) <= BlockStart(tr, k + 1);
    forall i: nat | i < |tr.log| && tr.log[i].Concerns(tr.executed[k]) ensures InBlock(tr, k, i) {
      CompletesInOwnBlock(run, k, i);
    }
  }

  lemma ExpectedAtEnd(s: State, k: nat)
    requires k < |s.trace.executed| && BlockStart(s.trace, k + 1) <= |s.trace.log| && FollowsGrammar(s, k)
    ensures Expected(s, k) ==
            if EndsComplete(s.trace, k) then [s.trace.log[BlockStart(s.trace, k + 1) - 1].taskStatus.value] else []
  {
  }

  /** The completion at the end of the block, seen from `base` on, is the only one of its task. */
  lemma OnlyAtEnd(s: State, k: nat, base: nat, i: nat)
    requires k < |s.trace.executed| && OwnSince(s.trace, k, base) && FollowsGrammar(s, k)
    requires base + i < |s.trace.log|
    requires s.trace.log[base + i].IsComplete() && s.trace.log[base + i].Concerns(s.trace.executed[k])
    ensures base + i == BlockStart(s.trace, k + 1) - 1 && EndsComplete(s.trace, k)
  {
    assert InBlock(s.trace, k, base + i);
  }

  lemma EndIsComplete(tr: Trace, k: nat)
    requires k < |tr.executed| && BlockStart(tr, k + 1) <= |tr.log| && Belongs(tr, k) && EndsComplete(tr, k)
    ensures var e := tr.log[BlockStart(tr, k + 1) - 1]; e.IsComplete() && e.Concerns(tr.executed[k])
  {
    assert InBlock(tr, k, BlockStart(tr, k + 1) - 1);
  }

  /** The part of the log from `base` on. */
  ghost predicate IsSince(seen: seq<WorkerEvent>, log: seq<WorkerEvent>, base: nat) {
    |seen| == |log| - base && forall i :: 0 <= i < |seen| ==> seen[i] == log[base + i]
  }

  lemma OnlyThere(s: State, k: nat, base: nat, seen: seq<WorkerEvent>)
    requires k < |s.trace.executed| && OwnSince(s.trace, k, base) && FollowsGrammar(s, k)
    requires IsSince(seen, s.trace.log, base)
    ensures forall i :: 0 <= i < |seen| && seen[i].IsComplete() && seen[i].Concerns(s.trace.executed[k]) ==>
              i == BlockStart(s.trace, k + 1) - 1 - base
  {
    forall i | 0 <= i < |seen| && seen[i].IsComplete() && seen[i].Concerns(s.trace.executed[k])
      ensures i == BlockStart(s.trace, k + 1) - 1 - base
    {
      OnlyAtEnd(s, k, base, i);
    }
  }

  /** The end of the block completes the task where it is seen exactly if it does in the log. */
  lemma SeenAtEnd(s: State, k: nat, base: nat, seen: seq<WorkerEvent>)
    requires k < |s.trace.executed| && OwnSince(s.trace, k, base) && Belongs(s.trace, k) && FollowsGrammar(s, k)
    requires IsSince(seen, s.trace.log, base)
    ensures var at, id := BlockStart(s.trace, k + 1) - 1 - base, s.trace.executed[k];
            && (0 <= at < |seen| && seen[at].IsComplete() && seen[at].Concerns(id) <==> EndsComplete(s.trace, k))
            && (EndsComplete(s.trace, k) ==>
                  0 <= at < |seen| && seen[at] == s.trace.log[BlockStart(s.trace, k + 1) - 1])
  {
    if EndsComplete(s.trace, k) {
      EndIsComplete(s.trace, k);
    }
  }

  lemma OneOrNone(seen: seq<WorkerEvent>, id: TaskId, at: int, ends: bool, expected: seq<TaskStatus>)
    requires forall i :: 0 <= i < |seen| && seen[i].IsComplete() && seen[i].Concerns(id) ==> i == at
    requires 0 <= at < |seen| && seen[at].IsComplete() && seen[at].Concerns(id) <==> ends
    requires expected == if ends then [seen[at].taskStatus.value] else []
    ensures LogCompletions(seen, id) == expected
  {
    SoleCompletion(seen, id, at);
  }

  /** A block as it should be holds what is expected. */
  lemma CompletionsSince(s: State, k: nat, base: nat, seen: seq<WorkerEvent>)
    requires k < |s.trace.executed| && OwnSince(s.trace, k, base) && Belongs(s.trace, k) && FollowsGrammar(s, k)
    requires IsSince(seen, s.trace.log, base)
    ensures LogCompletions(seen, s.trace.executed[k]) == Expected(s, k)
  {
    OnlyThere(s, k, base, seen);
    SeenAtEnd(s, k, base, seen);
    ExpectedAtEnd(s, k);
    var at := BlockStart(s.trace, k + 1) - 1 - base;
    OneOrNone(seen, s.trace.executed[k], at, EndsComplete(s.trace, k), Expected(s, k));
  }

  lemma {:induction false} ManyCompletions(log: seq<WorkerEvent>, id: TaskId, i: nat)
    requires i < |log| && log[i].IsComplete() && log[i].Concerns(id)
    ensures |LogCompletions(log, id)| >= 1
    ensures (exists j: nat :: j < |log| && j != i && log[j].IsComplete() && log[j].Concerns(id)) ==>
              |LogCompletions(log, id)| >= 2
  {
    var front := log[..|log| - 1];
    if i < |front| {
      ManyCompletions(front, id, i);
      if j: nat :| j < |log| && j != i && log[j].IsComplete() && log[j].Concerns(id) {
        assert j < |front| ==> front[j] == log[j];
      }
    } else if j: nat :| j < |log| && j != i && log[j].IsComplete() && log[j].Concerns(id) {
      ManyCompletions(front, id, j);
    }
  }

  /** A broken block holds more than that. */
  lemma BrokenSince(s: State, k: nat, base: nat)
    requires k < |s.trace.executed| && OwnSince(s.trace, k, base) && Belongs(s.trace, k) && Broken(s, k)
    ensures LogCompletions(s.trace.log[base..], s.trace.executed[k]) != Expected(s, k)
    ensures LogCompletions(s.trace.log[base..], s.trace.executed[k]) != []
  {
    var tr, id := s.trace, s.trace.executed[k];
    var seen := tr.log[base..];
    var i: nat :| InBlock(tr, k, i) && tr.log[i].IsComplete() &&
      (OpenBlock(s, k) || id in s.store.withdrawn
       || exists j: nat :: j != i && InBlock(tr, k, j) && tr.log[j].IsComplete());
    assert seen[i - base] == tr.log[i];
    if j: nat :| j != i && InBlock(tr, k, j) && tr.log[j].IsComplete() {
      assert seen[j - base] == tr.log[j];
    }
    ManyCompletions(seen, id, i - base);
  }

  /** The completions a client sees are those expected exactly if the task was not disturbed when it was complete. */
  lemma LogSince(run: seq<Action>, n: nat, k: nat)
    requires IsRun(run) && InTurn(run) && Unrepeated(run) && n <= |run| && IsRun(run[..n])
    requires k < |Final(run).trace.executed| && Final(run).trace.executed[k] !in Final(run[..n]).trace.executed
    ensures |Final(run[..n]).trace.log| <= |Final(run).trace.log|
    ensures var seen := LogCompletions(Final(run).trace.log[|Final(run[..n]).trace.log|..],
                                    Final(run).trace.executed[k]);
            && (seen == Expected(Final(run), k) <==> Quiet(run, Final(run).trace.executed[k]))
            && (seen == [] ==> Quiet(run, Final(run).trace.executed[k]))
  {
    var s, base := Final(run), |Final(run[..n]).trace.log|;
    OwnSinceHolds(run, n, k);
    GrammarHolds(run, k);
    KnownHolds(run);
    assert Belongs(s.trace, k);
    if Quiet(run, s.trace.executed[k]) {
      CompletionsSince(s, k, base, s.trace.log[base..]);
    } else {
      BrokenSince(s, k, base);
    }
  }

  /**
   * A client that followed the events since before its task was begun sees exactly one completion, with what the plan
   * returned or raised, once the task's cycle has decided and unless the task was cleared; and none otherwise.  This is
   * so exactly if the engine reported no state while the task was current and complete.
   */
  lemma EndToEndCompletion(run: seq<Action>, n: nat, k: nat, events: seq<AnyEvent>)
    requires IsRun(run) && InTurn(run) && Unrepeated(run) && n <= |run| && IsRun(run[..n])
    requires k < |Final(run).trace.executed| && Final(run).trace.executed[k] !in Final(run[..n]).trace.executed
    requires SeenSince(run, n, events)
    ensures Completions(events, Final(run).trace.executed[k]) == Owed(run, k)
            <==> Quiet(run, Final(run).trace.executed[k])
    ensures Owed(run, k) != [] ==> PlanEnd(run, Final(run).trace.executed[k]).Some?
  {
    OwedIsExpected(run, k);
    LogSince(run, n, k);
    OnlyWorkerEventsComplete(events, Final(run).trace.executed[k]);
  }

  /** Both clients, on the same stream: what they get is what the worker owes them under the same condition. */
  method BothClients(ghost run: seq<Action>, ghost n: nat, ghost k: nat, events: seq<AnyEvent>, id: TaskId)
    returns (overBus: Option<TaskStatus>, setTwice: bool, overSocket: Result<TaskStatus, ClientError>)
    requires IsRun(run) && InTurn(run) && Unrepeated(run) && n <= |run| && IsRun(run[..n])
    requires k < |Final(run).trace.executed| && id == Final(run).trace.executed[k]
    requires id !in Final(run[..n]).trace.executed && SeenSince(run, n, events)
    ensures var owed := Owed(run, k);
            !setTwice && overBus == (if owed == [] then None else Some(owed[0])) <==> Quiet(run, id)
    ensures Owed(run, k) != [] ==> PlanEnd(run, id).Some? && Owed(run, k) == [FinalStatus(id, PlanEnd(run, id))]
    ensures overSocket == if overBus.Some? then Ok(overBus.value) else Err(ConnectionClosed)
  {
    EndToEndCompletion(run, n, k, events);
    CorrelatedOnBus(events, id);
    overBus, setTwice := RunTask(events, id);
    overSocket := RunOverWebsocket(events, id);
    ghost var all, owed := Completions(events, id), Owed(run, k);
    assert !setTwice && overBus == (if owed == [] then None else Some(owed[0])) ==> all == owed;
  }

  lemma TwoMessages(a: WorkerEvent, b: WorkerEvent, id: TaskId) returns (events: seq<AnyEvent>)
    requires a.Concerns(id) && b.Concerns(id) && a.IsComplete() && b.IsComplete()
    ensures Correlated(events) && WorkerPart(events) == [a, b] && |Completions(events, id)| >= 2
  {
    events := OneMessage(a, id);
    OneMoreMessage(events, b, id);
    events := events + [WorkerMessage(b, Some(id))];
    CompletesTwice(events, a, b, id);
  }

  lemma OneMessage(e: WorkerEvent, id: TaskId) returns (events: seq<AnyEvent>)
    requires e.Concerns(id)
    ensures Correlated(events) && WorkerPart(events) == [e]
  {
    events := [WorkerMessage(e, Some(id))];
    assert events[..0] == [] && WorkerPart([]) == [];
  }

  lemma CompletesTwice(events: seq<AnyEvent>, a: WorkerEvent, b: WorkerEvent, id: TaskId)
    requires a.Concerns(id) && b.Concerns(id) && a.IsComplete() && b.IsComplete() && WorkerPart(events) == [a, b]
    ensures |Completions(events, id)| >= 2
  {
    var log := WorkerPart(events);
    OnlyWorkerEventsComplete(events, id);
    ManyCompletions(log, id, 0);
    assert log[1] == b;
  }

  lemma OneMoreMessage(events: seq<AnyEvent>, e: WorkerEvent, id: TaskId)
    requires Correlated(events) && e.Concerns(id)
    ensures var longer := events + [WorkerMessage(e, Some(id))];
            Correlated(longer) && WorkerPart(longer) == WorkerPart(events) + [e]
  {
    var longer := events + [WorkerMessage(e, Some(id))];
    assert longer[..|longer| - 1] == events;
  }

  /** A client of a task that was disturbed when it was complete: its future is set a second time. */
  lemma FutureSetTwice(id: TaskId) returns (run: seq<Action>, events: seq<AnyEvent>)
    ensures IsRun(run) && InTurn(run) && Guarded(run) && Unrepeated(run) && IsRun(run[..0])
    ensures Final(run).trace.executed == [id] && Final(run[..0]).trace.executed == []
    ensures SeenSince(run, 0, events) && |Completions(events, id)| >= 2
  {
    run := LateStateChange(id);
    assert run[..0] == [];
    KnownHolds(run);
    var tr := Final(run).trace;
    assert tr.log[0].taskStatus.Some? && tr.log[1].taskStatus.Some?;
    assert Belongs(tr, 0) && InBlock(tr, 0, 0) && InBlock(tr, 0, 1);
    events := TwoMessages(tr.log[0], tr.log[1], id);
    assert tr.log[0..] == [tr.log[0], tr.log[1]];
  }
}
