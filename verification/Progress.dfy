/**
 * Progress of the statuses a plan waits for: the live snapshot, the completed set and the published
 * progress events (src/blueapi/worker/task_worker.py). Statuses report from threads of their own.
 */
module Progress {
  import opened Basics
  import opened WorkerEvents

  type StatusId = nat

  datatype View = View(done: bool, percentage: Option<real>)

  datatype ProgressEvent = ProgressEvent(task: TaskId, statuses: map<StatusId, View>)

  datatype State = State(
    current: Option<TaskId>,
    snapshot: map<StatusId, View>,
    completed: set<StatusId>,
    published: seq<ProgressEvent>)

  /** A finished status announces itself, leaves the snapshot and is recorded, in three separate steps. */
  datatype Step =
    | Begin(task: TaskId)
    | Watch(id: StatusId)
    | Notify(id: StatusId, done: bool, fraction: Option<real>)
    | Announce(id: StatusId)
    | Remove(id: StatusId)
    | Record(id: StatusId)
    | EndCycle

  const NEW_VIEW := View(false, None)

  function ViewOf(done: bool, fraction: Option<real>): (v: View) {
    View(done, if done then Some(1.0) else if fraction.Some? then Some(1.0 - fraction.value) else None)
  }

  /** A completed status is ignored. Without a task the view is stored, but nothing can be published. */
  function StatusEvent(s: State, id: StatusId, done: bool, fraction: Option<real>): (next: State) {
    if id in s.completed then s
    else
      var snapshot := s.snapshot[id := ViewOf(done, fraction)];
      s.(snapshot := snapshot,
         published := if s.current.Some? then s.published + [ProgressEvent(s.current.value, snapshot)] else s.published)
  }

  function Next(s: State, step: Step): (next: State) {
    match step
    case Begin(task) => s.(current := Some(task))
    case Watch(id) => s.(snapshot := s.snapshot[id := NEW_VIEW])
    case Notify(id, done, fraction) => StatusEvent(s, id, done, fraction)
    case Announce(id) => StatusEvent(s, id, true, None)
    case Remove(id) => s.(snapshot := s.snapshot - {id})
    case Record(id) => s.(completed := s.completed + {id})
    case EndCycle => s.(completed := {})
  }

  // ---------- the class ----------

  datatype Status = Status(id: StatusId, watchable: bool, done: bool)

  function Monitored(s: State, statuses: seq<Status>): (next: State) {
    if statuses == [] then s
    else
      var front, last := Monitored(s, statuses[..|statuses| - 1]), statuses[|statuses| - 1];
      if last.watchable && !last.done then Next(front, Watch(last.id)) else front
  }

  class StatusTracker {
    var current: Option<TaskId>
    var statusSnapshot: map<StatusId, View>
    var completedStatuses: set<StatusId>
    var published: seq<ProgressEvent>

    function Abstract(): (s: State)
      reads this
    {
      State(current, statusSnapshot, completedStatuses, published)
    }

    constructor ()
      ensures Abstract() == State(None, map[], {}, [])
    {
      current, statusSnapshot, completedStatuses, published := None, map[], {}, [];
    }

    method BeginTask(task: TaskId)
      modifies this
      ensures Abstract() == Next(old(Abstract()), Begin(task))
    {
      current := Some(task);
    }

    method WaitingHook(statuses: Option<seq<Status>>)
      modifies this
      ensures Abstract() == if statuses.Some? then Monitored(old(Abstract()), statuses.value) else old(Abstract())
    {
      if statuses.Some? {
        for i := 0 to |statuses.value|
          invariant Abstract() == Monitored(old(Abstract()), statuses.value[..i])
        {
          assert statuses.value[..i + 1][..i] == statuses.value[..i];
          MonitorStatus(statuses.value[i]);
        }
        assert statuses.value[..|statuses.value|] == statuses.value;
      }
    }

    method MonitorStatus(status: Status)
      modifies this
      ensures Abstract() ==
              if status.watchable && !status.done then Next(old(Abstract()), Watch(status.id)) else old(Abstract())
    {
      if status.watchable && !status.done {
        statusSnapshot := statusSnapshot[status.id := NEW_VIEW];
      }
    }

    /** Raises, with the view already stored, when there has been no task. */
    method OnStatusEvent(id: StatusId, done: bool, fraction: Option<real>) returns (raised: bool)
      modifies this
      ensures Abstract() == Next(old(Abstract()), Notify(id, done, fraction))
      ensures raised <==> old(current).None? && id !in old(completedStatuses)
      ensures id in old(completedStatuses) ==> statusSnapshot == old(statusSnapshot) && published == old(published)
      ensures id !in old(completedStatuses) ==> statusSnapshot == old(statusSnapshot)[id := statusSnapshot[id]]
      ensures id !in old(completedStatuses) ==> statusSnapshot[id].done == done
      ensures id !in old(completedStatuses) && done ==> statusSnapshot[id].percentage == Some(1.0)
      ensures id !in old(completedStatuses) && !done && fraction.Some? ==>
                statusSnapshot[id].percentage == Some(1.0 - fraction.value)
      ensures id !in old(completedStatuses) && !done && fraction.None? ==> statusSnapshot[id].percentage == None
      ensures id !in old(completedStatuses) && current.Some? ==>
                published == old(published) + [ProgressEvent(current.value, statusSnapshot)]
    {
      var percentage := None;
      if !done {
        if fraction.Some? {
          percentage := Some(1.0 - fraction.value);
        }
      } else {
        percentage := Some(1.0);
      }
      if id !in completedStatuses {
        statusSnapshot := statusSnapshot[id := View(done, percentage)];
        if current.None? {
          return true;
        }
        published := published + [ProgressEvent(current.value, statusSnapshot)];
      }
      return false;
    }

    /** The completion callback, undisturbed; called twice it raises, unless a late notification intervened. */
    method OnComplete(id: StatusId) returns (raised: bool)
      modifies this
      ensures raised <==> if id in old(completedStatuses) then id !in old(statusSnapshot) else old(current).None?
      ensures Abstract() ==
              var announced := Next(old(Abstract()), Announce(id));
              if raised then announced else Next(Next(announced, Remove(id)), Record(id))
    {
      raised := OnStatusEvent(id, true, None);
      if !raised && id !in statusSnapshot {
        return true;
      }
      if !raised {
        statusSnapshot := statusSnapshot - {id};
        completedStatuses := completedStatuses + {id};
      }
    }

    method ClearCompleted()
      modifies this
      ensures Abstract() == Next(old(Abstract()), EndCycle)
    {
      completedStatuses := {};
    }
  }

  /** Just the watchable statuses that are not done enter the snapshot, with nothing known of their progress. */
  lemma {:induction false} MonitoredExactly(s: State, statuses: seq<Status>, id: StatusId)
    ensures var t := Monitored(s, statuses);
            var news := exists i ::
                          0 <= i < |statuses| && statuses[i].id == id && statuses[i].watchable && !statuses[i].done;
            && (id in t.snapshot <==> id in s.snapshot || news)
            && (id in t.snapshot ==> t.snapshot[id] == if news then View(false, None) else s.snapshot[id])
            && t.completed == s.completed && t.published == s.published && t.current == s.current
  {
    if statuses != [] {
      var front, last := statuses[..|statuses| - 1], statuses[|statuses| - 1];
      MonitoredExactly(s, front, id);
      assert forall i | 0 <= i < |front| :: front[i] == statuses[i];
      if last.id == id && last.watchable && !last.done {
        assert statuses[|statuses| - 1].id == id;
      }
    }
  }

  // ---------- runs ----------

  type Run = seq<Step>

  /** The state after the first k steps, beginning with a task in hand and no status. */
  function At(task: TaskId, run: Run, k: nat): (s: State)
    requires k <= |run|
  {
    if k == 0 then State(Some(task), map[], {}, []) else Next(At(task, run, k - 1), run[k - 1])
  }

  predicate Before(run: Run, k: nat, step: Step)
    requires k <= |run|
  {
    exists i :: 0 <= i < k && run[i] == step
  }

  predicate Notifies(step: Step, id: StatusId) {
    step.Notify? && step.id == id
  }

  /**
   * What statuses do: each is watched once, under an id of its own, and from then on may notify at any
   * time; on completion it is announced, removed and recorded, once each and in this order.
   */
  predicate Legal(run: Run) {
    forall k | 0 <= k < |run| :: LegalStep(run, k)
  }

  predicate LegalStep(run: Run, k: nat)
    requires k < |run|
  {
    match run[k]
    case Watch(id) => !Before(run, k, Watch(id))
    case Notify(id, done, _) => Before(run, k, Watch(id)) && (Before(run, k, Announce(id)) ==> done)
    case Announce(id) => Before(run, k, Watch(id)) && !Before(run, k, Announce(id))
    case Remove(id) => Before(run, k, Announce(id)) && !Before(run, k, Remove(id))
    case Record(id) => Before(run, k, Remove(id)) && !Before(run, k, Record(id))
    case _ => true
  }

  predicate Watched(run: Run, k: nat, id: StatusId)
    requires k <= |run|
  {
    Before(run, k, Watch(id)) && !Before(run, k, Remove(id))
  }

  predicate NoEnd(run: Run, i: nat, k: nat)
    requires k <= |run|
  {
    forall j | i <= j < k :: run[j] != EndCycle
  }

  /** Recorded as complete in the cycle that is still going on. */
  predicate Recorded(run: Run, k: nat, id: StatusId)
    requires k <= |run|
  {
    exists i :: 0 <= i < k && run[i] == Record(id) && NoEnd(run, i + 1, k)
  }

  /** A notification came in after the status was removed, at a time when it was not on record. */
  predicate Late(run: Run, k: nat, id: StatusId)
    requires k <= |run|
  {
    exists j :: 0 <= j < k && Notifies(run[j], id) && Before(run, j, Remove(id)) && !Recorded(run, j, id)
  }

  lemma RecordedNext(run: Run, k: nat, id: StatusId)
    requires k < |run|
    ensures Recorded(run, k + 1, id) <==> run[k] == Record(id) || (Recorded(run, k, id) && run[k] != EndCycle)
  {
    if Recorded(run, k + 1, id) && run[k] != Record(id) {
      var i :| 0 <= i < k + 1 && run[i] == Record(id) && NoEnd(run, i + 1, k + 1);
      assert i < k && NoEnd(run, i + 1, k);
    }
    if Recorded(run, k, id) && run[k] != EndCycle {
      var i :| 0 <= i < k && run[i] == Record(id) && NoEnd(run, i + 1, k);
      assert NoEnd(run, i + 1, k + 1);
    }
    if run[k] == Record(id) {
      assert NoEnd(run, k + 1, k + 1);
    }
  }

  lemma BeforeNext(run: Run, k: nat, step: Step)
    requires k < |run|
    ensures Before(run, k + 1, step) <==> Before(run, k, step) || run[k] == step
  {
  }

  lemma LateNext(run: Run, k: nat, id: StatusId)
    requires k < |run|
    ensures Late(run, k + 1, id) <==>
            || Late(run, k, id)
            || (Notifies(run[k], id) && Before(run, k, Remove(id)) && !Recorded(run, k, id))
  {
  }

  lemma {:induction false} CompletedExactly(task: TaskId, run: Run, k: nat, id: StatusId)
    requires k <= |run|
    ensures id in At(task, run, k).completed <==> Recorded(run, k, id)
  {
    if k > 0 {
      CompletedExactly(task, run, k - 1, id);
      RecordedNext(run, k - 1, id);
    }
  }

  lemma WatchedFirst(run: Run, k: nat, id: StatusId)
    requires Legal(run) && k <= |run|
    ensures Before(run, k, Remove(id)) ==> Before(run, k, Announce(id))
    ensures Before(run, k, Announce(id)) ==> Before(run, k, Watch(id))
    ensures Before(run, k, Record(id)) ==> Before(run, k, Remove(id))
  {
    if i :| 0 <= i < k && run[i] == Record(id) {
      assert LegalStep(run, i);
    }
    if i :| 0 <= i < k && run[i] == Remove(id) {
      assert LegalStep(run, i);
    }
    if i :| 0 <= i < k && run[i] == Announce(id) {
      assert LegalStep(run, i);
    }
  }

  /** The snapshot holds the statuses watched and not yet removed, and those that notified late: no others. */
  lemma {:induction false} SnapshotExactly(task: TaskId, run: Run, k: nat, id: StatusId)
    requires Legal(run) && k <= |run|
    ensures id in At(task, run, k).snapshot <==> Watched(run, k, id) || Late(run, k, id)
  {
    if k > 0 {
      var n := k - 1;
      SnapshotExactly(task, run, n, id);
      CompletedExactly(task, run, n, id);
      LateNext(run, n, id);
      BeforeNext(run, n, Watch(id));
      BeforeNext(run, n, Remove(id));
      WatchedFirst(run, n, id);
      SnapshotStep(task, run, n, id);
    }
  }

  lemma LateIsRemoved(run: Run, k: nat, id: StatusId)
    requires k <= |run| && Late(run, k, id)
    ensures Before(run, k, Remove(id))
  {
    var j :| 0 <= j < k && Notifies(run[j], id) && Before(run, j, Remove(id)) && !Recorded(run, j, id);
    var i :| 0 <= i < j && run[i] == Remove(id);
    assert i < k;
  }

  lemma SnapshotStep(task: TaskId, run: Run, n: nat, id: StatusId)
    requires Legal(run) && n < |run|
    requires id in At(task, run, n).snapshot <==> Watched(run, n, id) || Late(run, n, id)
    requires id in At(task, run, n).completed <==> Recorded(run, n, id)
    requires Late(run, n + 1, id) <==>
             || Late(run, n, id)
             || (Notifies(run[n], id) && Before(run, n, Remove(id)) && !Recorded(run, n, id))
    requires Before(run, n + 1, Watch(id)) <==> Before(run, n, Watch(id)) || run[n] == Watch(id)
    requires Before(run, n + 1, Remove(id)) <==> Before(run, n, Remove(id)) || run[n] == Remove(id)
    requires Before(run, n, Remove(id)) ==> Before(run, n, Watch(id))
    ensures id in At(task, run, n + 1).snapshot <==> Watched(run, n + 1, id) || Late(run, n + 1, id)
  {
    assert LegalStep(run, n);
    if Recorded(run, n, id) {
      assert Before(run, n, Record(id));
      WatchedFirst(run, n, id);
    }
    WatchedFirst(run, n, id);
    if Late(run, n, id) {
      LateIsRemoved(run, n, id);
    }
  }

  /** A notification slipped in between the removal of a status and its record, in the cycle still going on. */
  ghost predicate SlippedIn(run: Run, k: nat, id: StatusId)
    requires k <= |run|
  {
    exists n, c ::
      && 0 <= n < c < k
      && Before(run, n, Remove(id)) && Notifies(run[n], id)
      && run[c] == Record(id) && NoEnd(run, c + 1, k)
  }

  /** That, and nothing else, leaves a completed status in the snapshot. */
  lemma OverlapExactly(task: TaskId, run: Run, k: nat, id: StatusId)
    requires Legal(run) && k <= |run|
    ensures var s := At(task, run, k); id in s.snapshot && id in s.completed <==> SlippedIn(run, k, id)
  {
    SnapshotExactly(task, run, k, id);
    CompletedExactly(task, run, k, id);
    WatchedFirst(run, k, id);
    if Recorded(run, k, id) {
      assert Before(run, k, Record(id));
    }
    if Recorded(run, k, id) && Late(run, k, id) {
      LateBeforeRecord(run, k, id);
    }
    if SlippedIn(run, k, id) {
      SlippedIsLate(run, k, id);
    }
  }

  /** The two can overlap: the callback's last two steps are not taken together. */
  lemma OverlapHappens(task: TaskId, id: StatusId)
    ensures var run := [Watch(id), Announce(id), Remove(id), Notify(id, true, None), Record(id)];
            Legal(run) && id in At(task, run, 5).snapshot && id in At(task, run, 5).completed
  {
    var run := [Watch(id), Announce(id), Remove(id), Notify(id, true, None), Record(id)];
    assert run[0] == Watch(id) && run[1] == Announce(id) && run[2] == Remove(id);
    forall k | 0 <= k < |run| ensures LegalStep(run, k) {
    }
    assert Before(run, 3, Remove(id)) && Notifies(run[3], id) && run[4] == Record(id);
    OverlapExactly(task, run, 5, id);
  }

  lemma LateBeforeRecord(run: Run, k: nat, id: StatusId)
    requires k <= |run| && Recorded(run, k, id) && Late(run, k, id)
    ensures SlippedIn(run, k, id)
  {
    var c :| 0 <= c < k && run[c] == Record(id) && NoEnd(run, c + 1, k);
    var n :| 0 <= n < k && Notifies(run[n], id) && Before(run, n, Remove(id)) && !Recorded(run, n, id);
  }

  lemma SlippedIsLate(run: Run, k: nat, id: StatusId)
    requires Legal(run) && k <= |run| && SlippedIn(run, k, id)
    ensures Recorded(run, k, id) && Late(run, k, id)
  {
    var n, c :|
      && 0 <= n < c < k
      && Before(run, n, Remove(id)) && Notifies(run[n], id)
      && run[c] == Record(id) && NoEnd(run, c + 1, k);
    RecordedOnce(run, c, id, n);
  }

  /** Nothing is on record before the one step that records it. */
  lemma RecordedOnce(run: Run, c: nat, id: StatusId, n: nat)
    requires Legal(run) && c < |run| && run[c] == Record(id) && n <= c
    ensures !Recorded(run, n, id)
  {
    assert LegalStep(run, c);
  }

  /** Snapshot and completed set are disjoint in a state exactly if nothing slipped in. */
  lemma DisjointExactly(task: TaskId, run: Run, k: nat)
    requires Legal(run) && k <= |run|
    ensures At(task, run, k).snapshot.Keys !! At(task, run, k).completed <==> forall id :: !SlippedIn(run, k, id)
  {
    forall id
      ensures id in At(task, run, k).snapshot && id in At(task, run, k).completed <==> SlippedIn(run, k, id)
    {
      OverlapExactly(task, run, k, id);
    }
    if At(task, run, k).snapshot.Keys !! At(task, run, k).completed {
      forall id ensures !SlippedIn(run, k, id) {
        assert !(id in At(task, run, k).snapshot && id in At(task, run, k).completed);
      }
    }
  }

  /** No status notifies between its own removal and its own record; what others do in between is free. */
  ghost predicate Undisturbed(run: Run) {
    forall n, c | 0 <= n < c < |run| && run[n].Notify? && run[c] == Record(run[n].id) ::
      !Before(run, n, Remove(run[n].id))
  }

  lemma NothingSlipsIn(run: Run, k: nat, id: StatusId)
    requires Undisturbed(run) && k <= |run|
    ensures !SlippedIn(run, k, id)
  {
  }

  /** The two are disjoint throughout a run exactly if every completion in it is undisturbed. */
  lemma AlwaysDisjointExactly(task: TaskId, run: Run)
    requires Legal(run)
    ensures (forall k | 0 <= k <= |run| :: At(task, run, k).snapshot.Keys !! At(task, run, k).completed)
            <==> Undisturbed(run)
  {
    if Undisturbed(run) {
      forall k | 0 <= k <= |run| ensures At(task, run, k).snapshot.Keys !! At(task, run, k).completed {
        DisjointExactly(task, run, k);
        forall id ensures !SlippedIn(run, k, id) {
          NothingSlipsIn(run, k, id);
        }
      }
    } else {
      var n, c :|
        0 <= n < c < |run| && run[n].Notify? && run[c] == Record(run[n].id) && Before(run, n, Remove(run[n].id));
      DisjointExactly(task, run, c + 1);
      assert Notifies(run[n], run[n].id) && NoEnd(run, c + 1, c + 1);
      assert SlippedIn(run, c + 1, run[n].id);
    }
  }

  /** The steps that publish an event. */
  predicate Publishes(run: Run, k: nat)
    requires k < |run|
  {
    (run[k].Notify? || run[k].Announce?) && !Recorded(run, k, run[k].id)
  }

  /**
   * An event is published by a notification or announcement of a status not on record, and by nothing
   * else; it shows that status, and otherwise just the statuses that are watched or came late.
   */
  lemma PublishedExactly(task: TaskId, run: Run, k: nat)
    requires Legal(run) && 0 < k <= |run|
    ensures var below, above := At(task, run, k - 1), At(task, run, k);
            if Publishes(run, k - 1) then
              above.current.Some? && above.published == below.published +
                [ProgressEvent(above.current.value, above.snapshot)]
            else above.published == below.published
    ensures Publishes(run, k - 1) ==> run[k - 1].id in At(task, run, k).snapshot
    ensures forall id :: id in At(task, run, k).snapshot <==> Watched(run, k, id) || Late(run, k, id)
  {
    if run[k - 1].Notify? || run[k - 1].Announce? {
      CompletedExactly(task, run, k - 1, run[k - 1].id);
    }
    TaskInHand(task, run, k - 1);
    forall id ensures id in At(task, run, k).snapshot <==> Watched(run, k, id) || Late(run, k, id) {
      SnapshotExactly(task, run, k, id);
    }
  }

  lemma {:induction false} TaskInHand(task: TaskId, run: Run, k: nat)
    requires k <= |run|
    ensures At(task, run, k).current.Some?
  {
    if k > 0 {
      TaskInHand(task, run, k - 1);
    }
  }

  /** While a cycle lasts, what slipped in before a record is all that ever did. */
  lemma SlippedInStays(run: Run, c: nat, k: nat, id: StatusId)
    requires Legal(run) && c < k <= |run| && run[c] == Record(id) && NoEnd(run, c + 1, k)
    ensures SlippedIn(run, k, id) <==> SlippedIn(run, c + 1, id)
  {
    assert LegalStep(run, c);
    if SlippedIn(run, k, id) {
      var n, d :|
        && 0 <= n < d < k
        && Before(run, n, Remove(id)) && Notifies(run[n], id)
        && run[d] == Record(id) && NoEnd(run, d + 1, k);
      RecordedAt(run, c, d, id);
      assert NoEnd(run, c + 1, c + 1);
    }
    if SlippedIn(run, c + 1, id) {
      var n, d :|
        && 0 <= n < d < c + 1
        && Before(run, n, Remove(id)) && Notifies(run[n], id)
        && run[d] == Record(id) && NoEnd(run, d + 1, c + 1);
      RecordedAt(run, c, d, id);
    }
  }

  lemma RecordedAt(run: Run, c: nat, d: nat, id: StatusId)
    requires Legal(run) && c < |run| && d < |run| && run[c] == Record(id) && run[d] == Record(id)
    ensures c == d
  {
    assert LegalStep(run, c) && LegalStep(run, d);
  }

  /**
   * A status recorded at c is shown by the events of the rest of its cycle exactly if a notification slipped in before
   * the record: then by all of them, and otherwise by none.
   */
  lemma {:induction false} ShownAgainExactly(task: TaskId, run: Run, c: nat, k: nat, id: StatusId)
    requires Legal(run) && c < k <= |run| && run[c] == Record(id) && NoEnd(run, c + 1, k)
    ensures |At(task, run, c).published| <= |At(task, run, k).published|
    ensures forall e | |At(task, run, c).published| <= e < |At(task, run, k).published| ::
              id in At(task, run, k).published[e].statuses <==> SlippedIn(run, c + 1, id)
    decreases k
  {
    if k > c + 1 {
      ShownAgainExactly(task, run, c, k - 1, id);
    }
    PublishedExactly(task, run, k);
    ShownWhileRecorded(task, run, c, k, id);
  }

  lemma ShownWhileRecorded(task: TaskId, run: Run, c: nat, k: nat, id: StatusId)
    requires Legal(run) && c < k <= |run| && run[c] == Record(id) && NoEnd(run, c + 1, k)
    ensures id in At(task, run, k).snapshot <==> SlippedIn(run, c + 1, id)
  {
    OverlapExactly(task, run, k, id);
    CompletedExactly(task, run, k, id);
    assert Recorded(run, k, id);
    SlippedInStays(run, c, k, id);
  }

  /** A completed status never appears again before its cycle ends, if its own completion was undisturbed. */
  lemma NeverShownAgain(task: TaskId, run: Run, c: nat, k: nat, id: StatusId)
    requires Legal(run) && c < k <= |run| && run[c] == Record(id) && NoEnd(run, c + 1, k)
    requires forall n | 0 <= n < c && Notifies(run[n], id) :: !Before(run, n, Remove(id))
    ensures forall e | |At(task, run, c).published| <= e < |At(task, run, k).published| ::
              id !in At(task, run, k).published[e].statuses
  {
    ShownAgainExactly(task, run, c, k, id);
  }

  /** After the cycle a late notification brings a finished status back, and nothing ever removes it. */
  lemma LateStaysForGood(task: TaskId, run: Run, k: nat, m: nat, id: StatusId)
    requires Legal(run) && k < m <= |run|
    requires Notifies(run[k], id) && Before(run, k, Remove(id))
    ensures Recorded(run, k, id) || id in At(task, run, m).snapshot
  {
    SnapshotExactly(task, run, m, id);
  }

  /** Such a run: the cycle ends, the finished status notifies once more, and stays for the next cycle. */
  lemma LateNotificationHappens(task: TaskId, id: StatusId)
    ensures var run := [Watch(id), Announce(id), Remove(id), Record(id), EndCycle, Notify(id, true, None), EndCycle];
            Legal(run) && Undisturbed(run) && id in At(task, run, 7).snapshot && At(task, run, 7).completed == {}
  {
    var run := [Watch(id), Announce(id), Remove(id), Record(id), EndCycle, Notify(id, true, None), EndCycle];
    assert run[0] == Watch(id) && run[1] == Announce(id) && run[2] == Remove(id) && run[4] == EndCycle;
    forall k | 0 <= k < |run| ensures LegalStep(run, k) {
    }
    assert Before(run, 5, Remove(id));
    assert !Recorded(run, 5, id) by {
      forall i | 0 <= i < 5 && run[i] == Record(id) ensures !NoEnd(run, i + 1, 5) {
      }
    }
    LateStaysForGood(task, run, 5, 7, id);
  }

  /** What is last known of a status that is in the snapshot, as the steps say. */
  ghost function LastKnown(run: Run, k: nat, id: StatusId): Option<View>
    requires k <= |run|
  {
    if k == 0 then None
    else
      var earlier := LastKnown(run, k - 1, id);
      if Recorded(run, k - 1, id) && (Notifies(run[k - 1], id) || run[k - 1] == Announce(id)) then earlier
      else
        match run[k - 1]
        case Watch(x) => if x == id then Some(View(false, None)) else earlier
        case Notify(x, done, fraction) =>
          if x != id then earlier
          else if done then Some(View(true, Some(1.0)))
          else if fraction.Some? then Some(View(false, Some(1.0 - fraction.value)))
          else Some(View(false, None))
        case Announce(x) => if x == id then Some(View(true, Some(1.0))) else earlier
        case Remove(x) => if x == id then None else earlier
        case _ => earlier
  }

  /** The snapshot shows each status as it was last reported. */
  lemma {:induction false} SnapshotShows(task: TaskId, run: Run, k: nat, id: StatusId)
    requires k <= |run|
    ensures id in At(task, run, k).snapshot <==> LastKnown(run, k, id).Some?
    ensures id in At(task, run, k).snapshot ==> LastKnown(run, k, id) == Some(At(task, run, k).snapshot[id])
  {
    if k > 0 {
      SnapshotShows(task, run, k - 1, id);
      CompletedExactly(task, run, k - 1, id);
    }
  }

  /** The task begun last. */
  function LastBegun(task: TaskId, run: Run, k: nat): TaskId
    requires k <= |run|
  {
    if k == 0 then task else if run[k - 1].Begin? then run[k - 1].task else LastBegun(task, run, k - 1)
  }

  /** Events are published for the task begun last. */
  lemma {:induction false} PublishedForTask(task: TaskId, run: Run, k: nat)
    requires k <= |run|
    ensures At(task, run, k).current == Some(LastBegun(task, run, k))
  {
    if k > 0 {
      PublishedForTask(task, run, k - 1);
    }
  }

  /** What is shown as done is shown as complete, in every snapshot of every run. */
  lemma {:induction false} DoneIsFull(task: TaskId, run: Run, k: nat, id: StatusId)
    requires k <= |run|
    ensures var s := At(task, run, k);
            id in s.snapshot && s.snapshot[id].done ==> s.snapshot[id].percentage == Some(1.0)
  {
    if k > 0 {
      DoneIsFull(task, run, k - 1, id);
    }
  }

  /** A status between its announcement and its removal is shown as done: only unfinished ones otherwise remain. */
  lemma {:induction false} AnnouncedIsDone(task: TaskId, run: Run, k: nat, id: StatusId)
    requires Legal(run) && k <= |run| && Before(run, k, Announce(id)) && !Before(run, k, Remove(id))
    ensures var s := At(task, run, k); id in s.snapshot && s.snapshot[id].done
  {
    var n := k - 1;
    assert LegalStep(run, n);
    BeforeNext(run, n, Announce(id));
    BeforeNext(run, n, Remove(id));
    WatchedFirst(run, n, id);
    CompletedExactly(task, run, n, id);
    if run[n] != Announce(id) {
      AnnouncedIsDone(task, run, n, id);
    }
  }
}
