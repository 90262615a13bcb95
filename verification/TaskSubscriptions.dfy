/**
 The subscriptions that a request to begin a task makes and takes back (src/blueapi/service/interface.py), while the
 worker thread publishes events at any moment in between.
 */
module TaskSubscriptions {
  import opened Basics
  import opened WorkerEvents
  import opened EventPublisher

  // ---------- callbacks that only ever remove themselves ----------

  /** remove_callback_when_task_finished; a null task id equals no event's. */
  function RemovalCallback(id: Option<TaskId>, engineToken: Token, own: Token): Callback {
    if id.None? then Callback(Always, [])
    else Callback(OnCompletionOf(id.value), [Elsewhere(engineToken), Unsubscribe(own)])
  }

  /** mark_task_as_started, the handlers of pipe_events and forward_message: no effect on subscriptions. */
  const PASSIVE := Callback(Always, [])

  ghost predicate Managed(e: Entry) {
    || e.callback.script == []
    || (|e.callback.script| == 2 && e.callback.script[0].Elsewhere? && e.callback.script[1] == Unsubscribe(e.token))
  }

  ghost predicate AllManaged(entries: seq<Entry>) {
    forall e :: e in entries ==> Managed(e)
  }

  predicate Goes(e: Entry, event: WorkerEvent) {
    e.callback.script != [] && Fires(e.callback, event)
  }

  function Keep(e: Entry, event: WorkerEvent): seq<Entry> {
    if Goes(e, event) then [] else [e]
  }

  function Release(e: Entry, event: WorkerEvent): set<Token> {
    if Goes(e, event) && e.callback.script[0].Elsewhere? then {e.callback.script[0].token} else {}
  }

  /** The entries that stay after an event. */
  function Staying(entries: seq<Entry>, event: WorkerEvent): seq<Entry> {
    if entries == [] then []
    else Staying(entries[..|entries| - 1], event) + Keep(entries[|entries| - 1], event)
  }

  /** The engine tokens that go with the others. */
  function Released(entries: seq<Entry>, event: WorkerEvent): set<Token> {
    if entries == [] then {}
    else Released(entries[..|entries| - 1], event) + Release(entries[|entries| - 1], event)
  }

  lemma {:induction false} StayingConcat(a: seq<Entry>, b: seq<Entry>, event: WorkerEvent)
    ensures Staying(a + b, event) == Staying(a, event) + Staying(b, event)
    ensures Released(a + b, event) == Released(a, event) + Released(b, event)
  {
    if b == [] {
      assert a + b == a;
    } else {
      var front, last := b[..|b| - 1], b[|b| - 1];
      StayingConcat(a, front, event);
      assert (a + b)[..|a + b| - 1] == a + front && (a + b)[|a + b| - 1] == last;
      assert Staying(a, event) + Staying(front, event) + Keep(last, event)
             == Staying(a, event) + (Staying(front, event) + Keep(last, event));
    }
  }

  lemma {:induction false} StayingIsPart(entries: seq<Entry>, event: WorkerEvent)
    ensures forall e :: e in Staying(entries, event) ==> e in entries
  {
    if entries != [] {
      StayingIsPart(entries[..|entries| - 1], event);
    }
  }

  /** Removing an entry leaves what stands before and after it. */
  lemma RemoveFromMiddle(s: Subs, before: seq<Entry>, e: Entry, after: seq<Entry>)
    requires s.entries == before + [e] + after
    requires forall i :: 0 <= i < |before| ==> s.entries[i].token != e.token
    ensures DoAct(s, Unsubscribe(e.token)) == (s.(entries := before + after), None)
  {
    var i := Index(s.entries, e.token);
    assert s.entries[|before|] == e;
    assert s.entries[..i] == before && s.entries[i + 1..] == after;
  }

  ghost predicate DistinctTokens(entries: seq<Entry>) {
    forall i, j :: 0 <= i < j < |entries| ==> entries[i].token != entries[j].token
  }

  lemma TwoActs(s: Subs, script: seq<Act>)
    requires |script| == 2 && script[0].Elsewhere? && script[1].Unsubscribe? && DoAct(s, script[1]).1.None?
    ensures RunScript(s, script) == (DoAct(s, script[1]).0, None)
    ensures ScriptEffects(s, script) == {script[0].token}
  {
    assert script[1..][0] == script[1] && script[1..][1..] == [];
    assert RunScript(DoAct(s, script[1]).0, []) == (DoAct(s, script[1]).0, None);
    assert RunScript(s, script[1..]) == (DoAct(s, script[1]).0, None);
    assert ScriptEffects(s, script[1..]) == {};
  }

  lemma ManagedCall(s: Subs, before: seq<Entry>, e: Entry, after: seq<Entry>, event: WorkerEvent)
    requires s.entries == before + [e] + after && Managed(e)
    requires forall i :: 0 <= i < |before| ==> before[i].token != e.token
    ensures Call(s, e.callback, event) == (s.(entries := before + Keep(e, event) + after), None)
    ensures (if Fires(e.callback, event) then ScriptEffects(s, e.callback.script) else {}) == Release(e, event)
  {
    if Goes(e, event) {
      forall i | 0 <= i < |before| ensures s.entries[i].token != e.token {
        assert s.entries[i] == before[i];
      }
      RemoveFromMiddle(s, before, e, after);
      TwoActs(s, e.callback.script);
      assert before + [] == before;
    }
  }

  /** The subscriptions when n of the callbacks have been called. */
  ghost function Midway(s: Subs, n: nat, event: WorkerEvent): Subs
    requires n <= |s.entries|
  {
    s.(entries := Staying(s.entries[..n], event) + s.entries[n..])
  }

  lemma NextCall(s: Subs, n: nat, event: WorkerEvent)
    requires AllManaged(s.entries) && DistinctTokens(s.entries) && n < |s.entries|
    ensures Call(Midway(s, n, event), s.entries[n].callback, event) == (Midway(s, n + 1, event), None)
    ensures (if Fires(s.entries[n].callback, event)
             then ScriptEffects(Midway(s, n, event), s.entries[n].callback.script) else {})
            == Release(s.entries[n], event)
  {
    var before, e, after := Staying(s.entries[..n], event), s.entries[n], s.entries[n + 1..];
    StayingIsPart(s.entries[..n], event);
    forall i | 0 <= i < |before| ensures before[i].token != e.token {
      assert before[i] in s.entries[..n];
    }
    assert s.entries[n..] == [e] + after;
    assert before + s.entries[n..] == before + [e] + after;
    assert s.entries[..n + 1][..n] == s.entries[..n];
    ManagedCall(Midway(s, n, event), before, e, after, event);
  }

  /** One more callback called, which raises nothing. */
  lemma OneMoreCall(s: Subs, entries: seq<Entry>, n: nat, event: WorkerEvent, before: Subs, after: Subs)
    requires n < |entries| && CallAll(s, entries[..n], event) == (before, [])
    requires Call(before, entries[n].callback, event) == (after, None)
    ensures CallAll(s, entries[..n + 1], event) == (after, [])
    ensures CallsEffects(s, entries[..n + 1], event) == CallsEffects(s, entries[..n], event)
            + (if Fires(entries[n].callback, event) then ScriptEffects(before, entries[n].callback.script) else {})
    ensures Released(entries[..n + 1], event) == Released(entries[..n], event) + Release(entries[n], event)
  {
    var called := entries[..n + 1];
    assert called[..|called| - 1] == entries[..n] && called[|called| - 1] == entries[n];
    var none: seq<PublishError> := [];
    assert none + AsList(None) == none;
  }

  /** Although each callback removes itself while the event is being delivered, all of them are called. */
  lemma {:induction false} ManagedCalls(s: Subs, n: nat, event: WorkerEvent)
    requires AllManaged(s.entries) && DistinctTokens(s.entries) && n <= |s.entries|
    ensures CallAll(s, s.entries[..n], event) == (Midway(s, n, event), [])
    ensures CallsEffects(s, s.entries[..n], event) == Released(s.entries[..n], event)
    decreases n
  {
    if n == 0 {
      assert s.entries[..n] == [] && [] + s.entries[n..] == s.entries;
    } else {
      ManagedCalls(s, n - 1, event);
      NextCall(s, n - 1, event);
      OneMoreCall(s, s.entries, n - 1, event, Midway(s, n - 1, event), Midway(s, n, event));
    }
  }

  lemma ManagedPublish(s: Subs, event: WorkerEvent)
    requires AllManaged(s.entries) && DistinctTokens(s.entries)
    ensures CallAll(s, s.entries, event) == (s.(entries := Staying(s.entries, event)), [])
    ensures CallsEffects(s, s.entries, event) == Released(s.entries, event)
  {
    ManagedCalls(s, |s.entries|, event);
    assert s.entries[..|s.entries|] == s.entries;
    assert Staying(s.entries, event) + s.entries[|s.entries|..] == Staying(s.entries, event);
  }

  // ---------- picking entries out of a dict ----------

  function Select(entries: seq<Entry>, keep: Entry -> bool): seq<Entry> {
    if entries == [] then []
    else
      var last := entries[|entries| - 1];
      Select(entries[..|entries| - 1], keep) + if keep(last) then [last] else []
  }

  lemma {:induction false} SelectSame(entries: seq<Entry>, p: Entry -> bool, q: Entry -> bool)
    requires forall e :: e in entries ==> p(e) == q(e)
    ensures Select(entries, p) == Select(entries, q)
  {
    if entries != [] {
      assert entries[|entries| - 1] in entries;
      SelectSame(entries[..|entries| - 1], p, q);
    }
  }

  lemma {:induction false} SelectAll(entries: seq<Entry>, p: Entry -> bool)
    requires forall e :: e in entries ==> p(e)
    ensures Select(entries, p) == entries
  {
    if entries != [] {
      SelectAll(entries[..|entries| - 1], p);
      assert entries == entries[..|entries| - 1] + [entries[|entries| - 1]];
    }
  }

  lemma {:induction false} SelectTwice(entries: seq<Entry>, p: Entry -> bool, q: Entry -> bool)
    ensures Select(Select(entries, p), q) == Select(entries, e => p(e) && q(e))
  {
    if entries != [] {
      var front, last := entries[..|entries| - 1], entries[|entries| - 1];
      SelectTwice(front, p, q);
      var kept := Select(front, p);
      if p(last) {
        assert (kept + [last])[..|kept|] == kept;
      } else {
        assert kept + [] == kept;
      }
    }
  }

  lemma SelectEitherWay(entries: seq<Entry>, p: Entry -> bool, q: Entry -> bool)
    ensures Select(Select(entries, p), q) == Select(Select(entries, q), p)
  {
    SelectTwice(entries, p, q);
    SelectTwice(entries, q, p);
    SelectSame(entries, e => p(e) && q(e), e => q(e) && p(e));
  }

  lemma {:induction false} SelectIn(entries: seq<Entry>, p: Entry -> bool)
    ensures forall e :: e in Select(entries, p) <==> e in entries && p(e)
  {
    if entries != [] {
      SelectIn(entries[..|entries| - 1], p);
      assert entries == entries[..|entries| - 1] + [entries[|entries| - 1]];
    }
  }

  lemma SelectAppended(entries: seq<Entry>, last: Entry, p: Entry -> bool)
    ensures Select(entries + [last], p) == Select(entries, p) + if p(last) then [last] else []
  {
    assert (entries + [last])[..|entries|] == entries;
  }

  lemma {:induction false} SelectConcat(a: seq<Entry>, b: seq<Entry>, p: Entry -> bool)
    ensures Select(a + b, p) == Select(a, p) + Select(b, p)
  {
    if b == [] {
      assert a + b == a && Select(a, p) + [] == Select(a, p);
    } else {
      var front, last := b[..|b| - 1], b[|b| - 1];
      SelectConcat(a, front, p);
      assert a + b == (a + front) + [last];
      SelectAppended(a + front, last, p);
    }
  }

  function Apart(token: Token): Entry -> bool {
    (e: Entry) => e.token != token
  }

  function Except(entry: Entry): Entry -> bool {
    (e: Entry) => e != entry
  }

  function Stays(event: WorkerEvent): Entry -> bool {
    (e: Entry) => !Goes(e, event)
  }

  ghost predicate TokensAscend(entries: seq<Entry>) {
    forall i, j :: 0 <= i < j < |entries| ==> entries[i].token < entries[j].token
  }

  lemma {:induction false} SelectAscends(entries: seq<Entry>, p: Entry -> bool)
    requires TokensAscend(entries)
    ensures TokensAscend(Select(entries, p))
  {
    if entries != [] {
      var front, last := entries[..|entries| - 1], entries[|entries| - 1];
      SelectAscends(front, p);
      SelectIn(front, p);
      forall e | e in Select(front, p) ensures e.token < last.token {
        assert e in front;
      }
    }
  }

  lemma {:induction false} StayingIsSelect(entries: seq<Entry>, event: WorkerEvent)
    ensures Staying(entries, event) == Select(entries, Stays(event))
  {
    if entries != [] {
      StayingIsSelect(entries[..|entries| - 1], event);
    }
  }

  lemma {:induction false} ReleasedBy(entries: seq<Entry>, event: WorkerEvent, x: Token)
    ensures x in Released(entries, event) <==> exists e :: e in entries && x in Release(e, event)
  {
    if entries != [] {
      var front, last := entries[..|entries| - 1], entries[|entries| - 1];
      ReleasedBy(front, event, x);
      assert entries == front + [last];
    }
  }

  lemma RemovedIsSelect(entries: seq<Entry>, i: nat)
    requires TokensAscend(entries) && i < |entries|
    ensures Select(entries, Apart(entries[i].token)) == entries[..i] + entries[i + 1..]
  {
    var before, e, after := entries[..i], entries[i], entries[i + 1..];
    assert entries == before + [e] + after;
    SelectSplit(before, e, after, Apart(e.token));
    SelectAll(before, Apart(e.token));
    SelectAll(after, Apart(e.token));
  }

  /** Unsubscribing leaves every other entry, in order. */
  lemma UnsubscribeIsSelect(s: Subs, token: Token)
    requires TokensAscend(s.entries)
    ensures DoAct(s, Unsubscribe(token)).0 == s.(entries := Select(s.entries, Apart(token)))
  {
    var i := Index(s.entries, token);
    if i < |s.entries| {
      RemovedIsSelect(s.entries, i);
    } else {
      SelectAll(s.entries, Apart(token));
    }
  }

  lemma SelectSplit(before: seq<Entry>, e: Entry, after: seq<Entry>, p: Entry -> bool)
    requires !p(e)
    ensures Select(before + [e] + after, p) == Select(before, p) + Select(after, p)
  {
    SelectConcat(before + [e], after, p);
    SelectAppended(before, e, p);
    assert Select(before, p) + [] == Select(before, p);
  }

  // ---------- one request, interleaved with the worker and with other subscribers ----------

  datatype Phase =
    | Arrived            // nothing subscribed yet
    | EngineSubscribed   // the TiledWriter is subscribed to the engine
    | Watching           // and the removal callback to the worker events
    | Marked             // and, inside the worker, mark_task_as_started
    | Failing            // begin_task raised; the except clause is about to run
    | Halfway            // it has unsubscribed from the engine
    | Returned
    | Raised

  datatype Request = Request(
    id: Option<TaskId>,
    phase: Phase,
    worker: Subs,              // subscriptions of the worker events
    engine: set<Token>,        // subscriptions of the engine
    engineCount: Token,
    writer: Token, removal: Token, mark: Token,
    completed: bool,           // the task's completion was published while the removal callback was there
    // history: the same two streams, without what the request subscribed
    others: Subs,
    otherEngine: set<Token>)

  datatype RequestStep =
    | SubscribeWriter
    | SubscribeRemoval
    | SubscribeMark
    | FailBeforeMark           // unknown task, engine busy, already run; or nothing to begin if the id is null
    | WaitEnds(started: bool)  // the finally clause removes the mark; not started: timeout or full channel
    | CleanEngine
    | CleanWorker
    | WorkerPublishes(event: WorkerEvent)
    // what other requests and event pipes do
    | OtherListens
    | OtherWatches(task: TaskId, engineToken: Token)
    | OtherLeaves(token: Token)
    | OtherJoinsEngine
    | OtherLeavesEngine(token: Token)

  predicate Possible(r: Request, step: RequestStep) {
    match step
    case SubscribeWriter => r.phase == Arrived
    case SubscribeRemoval => r.phase == EngineSubscribed
    case SubscribeMark => r.phase == Watching && r.id.Some?
    case FailBeforeMark => r.phase == Watching
    case WaitEnds(_) => r.phase == Marked
    case CleanEngine => r.phase == Failing
    case CleanWorker => r.phase == Halfway
    case WorkerPublishes(_) => true
    case OtherListens => true
    case OtherWatches(_, engineToken) => engineToken < r.engineCount && !IsWriter(r, engineToken)
    case OtherLeaves(token) => !IsOwn(r, token)
    case OtherJoinsEngine => true
    case OtherLeavesEngine(token) => token < r.engineCount && !IsWriter(r, token)
  }

  predicate IsWriter(r: Request, token: Token) {
    r.phase != Arrived && token == r.writer
  }

  /** The tokens of the worker events that were given to the request. */
  predicate IsOwn(r: Request, token: Token) {
    || (r.phase != Arrived && r.phase != EngineSubscribed && token == r.removal)
    || (r.phase == Marked && token == r.mark)
  }

  function Foreign(r: Request): Entry -> bool {
    (e: Entry) => !IsOwn(r, e.token)
  }

  function Published(s: Subs, event: WorkerEvent): Subs {
    CallAll(s, s.entries, event).0
  }

  function Appended(s: Subs, token: Token, callback: Callback): Subs {
    Subs(s.entries + [Entry(token, callback)], token + 1)
  }

  function Do(r: Request, step: RequestStep): Request {
    match step
    case SubscribeWriter =>
      r.(engine := r.engine + {r.engineCount}, writer := r.engineCount, engineCount := r.engineCount + 1,
         phase := EngineSubscribed)
    case SubscribeRemoval =>
      r.(worker := Added(r.worker, RemovalCallback(r.id, r.writer, r.worker.count)), removal := r.worker.count,
         phase := Watching)
    case SubscribeMark => r.(worker := Added(r.worker, PASSIVE), mark := r.worker.count, phase := Marked)
    case FailBeforeMark => r.(phase := if r.id.None? then Returned else Failing)
    case WaitEnds(started) =>
      r.(worker := DoAct(r.worker, Unsubscribe(r.mark)).0, phase := if started then Returned else Failing)
    case CleanEngine => r.(engine := r.engine - {r.writer}, phase := Halfway)
    case CleanWorker => r.(worker := DoAct(r.worker, Unsubscribe(r.removal)).0, phase := Raised)
    case WorkerPublishes(event) =>
      r.(worker := Published(r.worker, event), engine := r.engine - CallsEffects(r.worker, r.worker.entries, event),
         completed := r.completed || (r.id.Some? && WatchingNow(r) && event.IsComplete() && event.Concerns(r.id.value)),
         others := Published(r.others, event),
         otherEngine := r.otherEngine - CallsEffects(r.others, r.others.entries, event))
    case OtherListens =>
      r.(worker := Added(r.worker, PASSIVE), others := Appended(r.others, r.worker.count, PASSIVE))
    case OtherWatches(task, engineToken) =>
      var callback := RemovalCallback(Some(task), engineToken, r.worker.count);
      r.(worker := Added(r.worker, callback), others := Appended(r.others, r.worker.count, callback))
    case OtherLeaves(token) =>
      r.(worker := DoAct(r.worker, Unsubscribe(token)).0, others := DoAct(r.others, Unsubscribe(token)).0)
    case OtherJoinsEngine =>
      r.(engine := r.engine + {r.engineCount}, otherEngine := r.otherEngine + {r.engineCount},
         engineCount := r.engineCount + 1)
    case OtherLeavesEngine(token) => r.(engine := r.engine - {token}, otherEngine := r.otherEngine - {token})
  }

  predicate WatchingNow(r: Request) {
    r.phase.Watching? || r.phase.Marked? || r.phase.Failing? || r.phase.Halfway? || r.phase.Returned?
  }

  /** The removal callback is still in the dict. */
  predicate Removable(r: Request) {
    WatchingNow(r) && !r.completed
  }

  function RemovalEntry(r: Request): Entry {
    Entry(r.removal, RemovalCallback(r.id, r.writer, r.removal))
  }

  function OwnEngine(r: Request): set<Token> {
    if r.phase == EngineSubscribed || (Removable(r) && r.phase != Halfway) then {r.writer} else {}
  }

  // ---------- what every step keeps ----------

  ghost predicate TokenInv(r: Request) {
    && Ascending(r.worker) && AllManaged(r.worker.entries) && r.others.count <= r.worker.count
    && (r.phase != Arrived ==> r.writer < r.engineCount)
    && (r.phase != Arrived && r.phase != EngineSubscribed ==> r.removal < r.worker.count)
    && (r.phase == Marked ==> r.removal < r.mark < r.worker.count)
    && (r.completed ==> WatchingNow(r) || r.phase == Raised)
  }

  /** The engine tokens that an entry may release: its own request's, and nobody else's. */
  ghost predicate ReleaseInv(r: Request) {
    forall e :: e in r.worker.entries && e.callback.script != [] && e.callback.script[0].Elsewhere? ==>
      && e.callback.script[0].token < r.engineCount
      && (IsWriter(r, e.callback.script[0].token) ==> IsOwn(r, e.token))
  }

  /** Of its own entries the worker's dict holds the removal callback, until it has gone, and the mark. */
  ghost predicate OwnEntriesInv(r: Request) {
    && (forall e :: e in r.worker.entries && IsOwn(r, e.token) ==>
          if r.phase == Marked && e.token == r.mark then e.callback == PASSIVE
          else e == RemovalEntry(r) && Removable(r))
    && (Removable(r) ==> RemovalEntry(r) in r.worker.entries)
    && (r.phase == Marked ==> Entry(r.mark, PASSIVE) in r.worker.entries)
  }

  ghost predicate OthersInv(r: Request) {
    r.others.entries == Select(r.worker.entries, Foreign(r))
  }

  ghost predicate EngineInv(r: Request) {
    && r.engine == r.otherEngine + OwnEngine(r)
    && (forall x :: x in r.otherEngine ==> x < r.engineCount && !IsWriter(r, x))
  }

  /** All but what it says about the others' entries. */
  ghost predicate OwnInv(r: Request) {
    TokenInv(r) && ReleaseInv(r) && OwnEntriesInv(r) && EngineInv(r)
  }

  ghost predicate RequestInv(r: Request) {
    OwnInv(r) && OthersInv(r)
  }

  lemma OthersAreManaged(r: Request)
    requires RequestInv(r)
    ensures TokensAscend(r.others.entries) && DistinctTokens(r.others.entries) && AllManaged(r.others.entries)
  {
    SelectAscends(r.worker.entries, Foreign(r));
    SelectIn(r.worker.entries, Foreign(r));
  }

  // ---------- an event is published ----------

  predicate Completes(r: Request, event: WorkerEvent) {
    r.id.Some? && event.IsComplete() && event.Concerns(r.id.value)
  }

  lemma RemovalUnderPublish(r: Request, event: WorkerEvent)
    ensures Managed(RemovalEntry(r))
    ensures Goes(RemovalEntry(r), event) <==> Completes(r, event)
    ensures Release(RemovalEntry(r), event) == if Completes(r, event) then {r.writer} else {}
  {
  }

  lemma ManagedStays(s: Subs, event: WorkerEvent)
    requires Ascending(s) && AllManaged(s.entries)
    ensures var t := Published(s, event);
            Ascending(t) && AllManaged(t.entries) && t.count == s.count && t.entries == Staying(s.entries, event)
  {
    ManagedPublish(s, event);
    CallsKeep(s, s.entries, event);
    StayingIsPart(s.entries, event);
  }

  /** Both dicts after an event, and what each of them releases. */
  lemma PublishedBoth(r: Request, event: WorkerEvent)
    requires RequestInv(r)
    ensures var t := Do(r, WorkerPublishes(event)); var stays := Stays(event);
            && Ascending(t.worker) && t.worker == r.worker.(entries := Select(r.worker.entries, stays))
            && t.others == r.others.(entries := Select(r.others.entries, stays))
            && t.engine == r.engine - Released(r.worker.entries, event)
            && t.otherEngine == r.otherEngine - Released(r.others.entries, event)
  {
    OthersAreManaged(r);
    ManagedStays(r.worker, event);
    ManagedPublish(r.worker, event);
    ManagedPublish(r.others, event);
    StayingIsSelect(r.worker.entries, event);
    StayingIsSelect(r.others.entries, event);
  }

  lemma PublishKeepsOthers(r: Request, event: WorkerEvent)
    requires RequestInv(r)
    ensures OthersInv(Do(r, WorkerPublishes(event)))
  {
    PublishedBoth(r, event);
    OthersGo(r, Do(r, WorkerPublishes(event)), Stays(event));
  }

  /** Whatever is taken out of both dicts alike. */
  lemma OthersGo(r: Request, t: Request, p: Entry -> bool)
    requires OthersInv(r)
    requires t.worker.entries == Select(r.worker.entries, p) && t.others.entries == Select(r.others.entries, p)
    requires forall x: Token :: IsOwn(t, x) <==> IsOwn(r, x)
    ensures OthersInv(t)
  {
    SelectEitherWay(r.worker.entries, Foreign(r), p);
    SelectSame(t.worker.entries, Foreign(t), Foreign(r));
  }

  /** What an event does to a request, the dicts and the tokens aside. */
  ghost predicate SameRequest(r: Request, t: Request, event: WorkerEvent) {
    && t.id == r.id && t.phase == r.phase && t.writer == r.writer && t.removal == r.removal && t.mark == r.mark
    && t.engineCount == r.engineCount && t.worker.count == r.worker.count && t.others.count == r.others.count
    && (t.completed <==> r.completed || (WatchingNow(r) && Completes(r, event)))
    && RemovalEntry(t) == RemovalEntry(r)
  }

  lemma PublishedTokens(r: Request, t: Request, event: WorkerEvent)
    requires TokenInv(r) && SameRequest(r, t, event) && Ascending(t.worker)
    requires forall e :: e in t.worker.entries <==> e in r.worker.entries && !Goes(e, event)
    ensures TokenInv(t)
  {
  }

  lemma PublishedReleases(r: Request, t: Request, event: WorkerEvent)
    requires ReleaseInv(r) && SameRequest(r, t, event)
    requires forall e :: e in t.worker.entries <==> e in r.worker.entries && !Goes(e, event)
    ensures ReleaseInv(t)
  {
  }

  lemma PublishedEntries(r: Request, t: Request, event: WorkerEvent)
    requires OwnEntriesInv(r) && SameRequest(r, t, event)
    requires forall e :: e in t.worker.entries <==> e in r.worker.entries && !Goes(e, event)
    ensures OwnEntriesInv(t)
  {
    RemovalUnderPublish(r, event);
  }

  lemma PublishKeepsOwn(r: Request, event: WorkerEvent)
    requires RequestInv(r)
    ensures var t := Do(r, WorkerPublishes(event)); TokenInv(t) && ReleaseInv(t) && OwnEntriesInv(t)
  {
    var t := Do(r, WorkerPublishes(event));
    PublishedBoth(r, event);
    SelectIn(r.worker.entries, Stays(event));
    PublishedTokens(r, t, event);
    PublishedReleases(r, t, event);
    PublishedEntries(r, t, event);
  }

  /** What others release is not the writer; the writer is released by the removal callback alone. */
  lemma WhatIsReleased(r: Request, event: WorkerEvent, x: Token)
    requires RequestInv(r)
    ensures IsWriter(r, x) ==> x !in Released(r.others.entries, event)
    ensures IsWriter(r, x) ==> (x in Released(r.worker.entries, event) <==> Removable(r) && Completes(r, event))
    ensures !IsWriter(r, x) ==> (x in Released(r.worker.entries, event) <==> x in Released(r.others.entries, event))
  {
    ReleasedBy(r.worker.entries, event, x);
    ReleasedBy(r.others.entries, event, x);
    SelectIn(r.worker.entries, Foreign(r));
    RemovalUnderPublish(r, event);
    if e :| e in r.worker.entries && x in Release(e, event) {
      assert IsOwn(r, e.token) || e in r.others.entries;
    }
    if Removable(r) && Completes(r, event) {
      assert r.writer in Release(RemovalEntry(r), event);
    }
  }

  /** The request keeps its writer until its removal callback has gone. */
  lemma OwnEngineAfter(r: Request, t: Request, event: WorkerEvent, x: Token)
    requires SameRequest(r, t, event) && TokenInv(r)
    ensures x in OwnEngine(t) <==> x in OwnEngine(r) && !(Removable(r) && Completes(r, event))
  {
  }

  /** Token by token: what is still subscribed to the engine is the others' or the request's. */
  lemma EngineAfter(r: Request, t: Request, event: WorkerEvent, x: Token)
    requires RequestInv(r) && SameRequest(r, t, event)
    requires t.engine == r.engine - Released(r.worker.entries, event)
    requires t.otherEngine == r.otherEngine - Released(r.others.entries, event)
    ensures x in t.engine <==> x in t.otherEngine || x in OwnEngine(t)
  {
    WhatIsReleased(r, event, x);
    OwnEngineAfter(r, t, event, x);
  }

  lemma PublishKeepsEngine(r: Request, event: WorkerEvent)
    requires RequestInv(r)
    ensures EngineInv(Do(r, WorkerPublishes(event)))
  {
    var t := Do(r, WorkerPublishes(event));
    PublishedBoth(r, event);
    forall x ensures x in t.engine <==> x in t.otherEngine + OwnEngine(t) {
      EngineAfter(r, t, event, x);
    }
  }

  // ---------- subscribing and unsubscribing ----------

  lemma OthersFrame(r: Request, t: Request)
    requires OthersInv(r) && t.worker.entries == r.worker.entries && t.others.entries == r.others.entries
    requires forall e :: e in r.worker.entries ==> (IsOwn(t, e.token) <==> IsOwn(r, e.token))
    ensures OthersInv(t)
  {
    SelectSame(r.worker.entries, Foreign(r), Foreign(t));
  }

  /** The request subscribes: nothing changes for the others. */
  lemma OwnSubscribes(r: Request, t: Request, e: Entry)
    requires OthersInv(r) && Ascending(r.worker) && t.worker.entries == r.worker.entries + [e] && t.others == r.others
    requires e.token == r.worker.count && IsOwn(t, e.token)
    requires forall token: Token :: token < r.worker.count ==> (IsOwn(t, token) <==> IsOwn(r, token))
    ensures OthersInv(t)
  {
    SelectAppended(r.worker.entries, e, Foreign(t));
    SelectSame(r.worker.entries, Foreign(r), Foreign(t));
  }

  lemma OtherSubscribes(r: Request, t: Request, e: Entry)
    requires OthersInv(r) && t.worker.entries == r.worker.entries + [e] && t.others.entries == r.others.entries + [e]
    requires !IsOwn(r, e.token) && forall token: Token :: IsOwn(t, token) <==> IsOwn(r, token)
    ensures OthersInv(t)
  {
    SelectAppended(r.worker.entries, e, Foreign(t));
    SelectSame(r.worker.entries, Foreign(r), Foreign(t));
  }

  /** One of the request's own entries is removed: nothing changes for the others. */
  lemma OwnLeaves(r: Request, t: Request, token: Token)
    requires OthersInv(r) && Ascending(r.worker) && t.worker == DoAct(r.worker, Unsubscribe(token)).0
    requires t.others == r.others
    requires IsOwn(r, token) && forall x: Token :: x != token ==> (IsOwn(t, x) <==> IsOwn(r, x))
    ensures OthersInv(t)
  {
    UnsubscribeIsSelect(r.worker, token);
    SelectTwice(r.worker.entries, Apart(token), Foreign(t));
    SelectSame(r.worker.entries, e => Apart(token)(e) && Foreign(t)(e), Foreign(r));
  }

  /** What is left of a dict after an unsubscribe. */
  lemma LeftAfter(s: Subs, token: Token)
    requires Ascending(s) && AllManaged(s.entries)
    ensures var t := DoAct(s, Unsubscribe(token)).0;
            && Ascending(t) && AllManaged(t.entries) && t.count == s.count
            && forall e :: e in t.entries <==> e in s.entries && e.token != token
  {
    ActKeeps(s, Unsubscribe(token));
    UnsubscribeIsSelect(s, token);
    SelectIn(s.entries, Apart(token));
  }

  // ---------- the steps ----------

  lemma SubscribeWriterKeeps(r: Request)
    requires RequestInv(r) && Possible(r, SubscribeWriter)
    ensures RequestInv(Do(r, SubscribeWriter))
  {
    OthersFrame(r, Do(r, SubscribeWriter));
  }

  /** What a dict holds after a subscribe. */
  lemma Joined(s: Subs, callback: Callback)
    requires Ascending(s) && AllManaged(s.entries) && Managed(Entry(s.count, callback))
    ensures Ascending(Added(s, callback)) && AllManaged(Added(s, callback).entries)
    ensures forall e :: e in Added(s, callback).entries <==> e in s.entries || e == Entry(s.count, callback)
    ensures forall e :: e in s.entries ==> e.token < s.count
  {
  }

  lemma SubscribeRemovalKeepsOwn(r: Request)
    requires OwnInv(r) && Possible(r, SubscribeRemoval)
    ensures OwnInv(Do(r, SubscribeRemoval))
  {
    Joined(r.worker, RemovalCallback(r.id, r.writer, r.worker.count));
  }

  lemma SubscribeRemovalKeeps(r: Request)
    requires RequestInv(r) && Possible(r, SubscribeRemoval)
    ensures RequestInv(Do(r, SubscribeRemoval))
  {
    SubscribeRemovalKeepsOwn(r);
    OwnSubscribes(r, Do(r, SubscribeRemoval), Entry(r.worker.count, RemovalCallback(r.id, r.writer, r.worker.count)));
  }

  lemma SubscribeMarkKeepsOwn(r: Request)
    requires OwnInv(r) && Possible(r, SubscribeMark)
    ensures OwnInv(Do(r, SubscribeMark))
  {
    Joined(r.worker, PASSIVE);
  }

  lemma SubscribeMarkKeeps(r: Request)
    requires RequestInv(r) && Possible(r, SubscribeMark)
    ensures RequestInv(Do(r, SubscribeMark))
  {
    SubscribeMarkKeepsOwn(r);
    OwnSubscribes(r, Do(r, SubscribeMark), Entry(r.worker.count, PASSIVE));
  }

  lemma FailBeforeMarkKeeps(r: Request)
    requires RequestInv(r) && Possible(r, FailBeforeMark)
    ensures RequestInv(Do(r, FailBeforeMark))
  {
    OthersFrame(r, Do(r, FailBeforeMark));
  }

  lemma WaitEndsKeepsEntries(r: Request, started: bool)
    requires OwnInv(r) && r.phase == Marked
    ensures OwnEntriesInv(Do(r, WaitEnds(started)))
  {
    LeftAfter(r.worker, r.mark);
    assert RemovalEntry(Do(r, WaitEnds(started))) == RemovalEntry(r);
  }

  /** What the end of the wait does to a request, entries aside. */
  ghost predicate MarkGone(r: Request, t: Request) {
    && r.phase == Marked && (t.phase == Returned || t.phase == Failing) && t == r.(worker := t.worker, phase := t.phase)
    && Ascending(t.worker) && AllManaged(t.worker.entries) && t.worker.count == r.worker.count
    && forall e :: e in t.worker.entries <==> e in r.worker.entries && e.token != r.mark
  }

  lemma MarkGoneTokens(r: Request, t: Request)
    requires TokenInv(r) && EngineInv(r) && MarkGone(r, t)
    ensures TokenInv(t) && EngineInv(t)
  {
  }

  lemma MarkGoneReleases(r: Request, t: Request)
    requires ReleaseInv(r) && OwnEntriesInv(r) && MarkGone(r, t)
    ensures ReleaseInv(t)
  {
  }

  lemma WaitEndsKeepsOwn(r: Request, started: bool)
    requires OwnInv(r) && r.phase == Marked
    ensures OwnInv(Do(r, WaitEnds(started)))
  {
    LeftAfter(r.worker, r.mark);
    MarkGoneTokens(r, Do(r, WaitEnds(started)));
    MarkGoneReleases(r, Do(r, WaitEnds(started)));
    WaitEndsKeepsEntries(r, started);
  }

  lemma WaitEndsKeeps(r: Request, started: bool)
    requires RequestInv(r) && r.phase == Marked
    ensures RequestInv(Do(r, WaitEnds(started)))
  {
    WaitEndsKeepsOwn(r, started);
    OwnLeaves(r, Do(r, WaitEnds(started)), r.mark);
  }

  lemma CleanEngineKeeps(r: Request)
    requires RequestInv(r) && r.phase == Failing
    ensures RequestInv(Do(r, CleanEngine))
  {
    OthersFrame(r, Do(r, CleanEngine));
  }

  lemma CleanWorkerKeepsOwn(r: Request)
    requires OwnInv(r) && r.phase == Halfway
    ensures OwnInv(Do(r, CleanWorker))
  {
    LeftAfter(r.worker, r.removal);
  }

  /** Once the removal callback is gone, its token stays out of the dict. */
  lemma CleanWorkerKeeps(r: Request)
    requires RequestInv(r) && r.phase == Halfway
    ensures RequestInv(Do(r, CleanWorker))
  {
    CleanWorkerKeepsOwn(r);
    OwnLeaves(r, Do(r, CleanWorker), r.removal);
  }

  lemma PublishKeeps(r: Request, event: WorkerEvent)
    requires RequestInv(r)
    ensures RequestInv(Do(r, WorkerPublishes(event)))
  {
    PublishKeepsOthers(r, event);
    PublishKeepsOwn(r, event);
    PublishKeepsEngine(r, event);
  }

  lemma OtherJoinsKeepsOwn(r: Request, t: Request, callback: Callback)
    requires OwnInv(r) && Managed(Entry(r.worker.count, callback)) && r.others.count <= r.worker.count
    requires callback.script != [] ==>
               callback.script[0].token < r.engineCount && !IsWriter(r, callback.script[0].token)
    requires t == r.(worker := Added(r.worker, callback), others := Appended(r.others, r.worker.count, callback))
    ensures OwnInv(t)
  {
    Joined(r.worker, callback);
    assert RemovalEntry(t) == RemovalEntry(r);
  }

  lemma OtherListensKeeps(r: Request)
    requires RequestInv(r)
    ensures RequestInv(Do(r, OtherListens))
  {
    OtherJoinsKeepsOwn(r, Do(r, OtherListens), PASSIVE);
    OtherSubscribes(r, Do(r, OtherListens), Entry(r.worker.count, PASSIVE));
  }

  lemma OtherWatchesKeeps(r: Request, task: TaskId, engineToken: Token)
    requires RequestInv(r) && Possible(r, OtherWatches(task, engineToken))
    ensures RequestInv(Do(r, OtherWatches(task, engineToken)))
  {
    var callback := RemovalCallback(Some(task), engineToken, r.worker.count);
    OtherJoinsKeepsOwn(r, Do(r, OtherWatches(task, engineToken)), callback);
    OtherSubscribes(r, Do(r, OtherWatches(task, engineToken)), Entry(r.worker.count, callback));
  }

  lemma OtherLeavesKeepsOwn(r: Request, t: Request, token: Token)
    requires OwnInv(r) && !IsOwn(r, token) && t.others.count == r.others.count
    requires t == r.(worker := DoAct(r.worker, Unsubscribe(token)).0, others := t.others)
    ensures OwnInv(t)
  {
    LeftAfter(r.worker, token);
    assert RemovalEntry(t) == RemovalEntry(r);
  }

  lemma OtherLeavesKeeps(r: Request, token: Token)
    requires RequestInv(r) && Possible(r, OtherLeaves(token))
    ensures RequestInv(Do(r, OtherLeaves(token)))
  {
    OtherLeavesKeepsOwn(r, Do(r, OtherLeaves(token)), token);
    OthersAreManaged(r);
    UnsubscribeIsSelect(r.worker, token);
    UnsubscribeIsSelect(r.others, token);
    OthersGo(r, Do(r, OtherLeaves(token)), Apart(token));
  }

  /** What others do to the engine leaves the worker's dict alone, and the writer where it is. */
  ghost predicate OnlyEngine(r: Request, t: Request) {
    && t == r.(engine := t.engine, otherEngine := t.otherEngine, engineCount := t.engineCount)
    && t.engineCount >= r.engineCount
  }

  lemma OnlyEngineKeeps(r: Request, t: Request)
    requires TokenInv(r) && ReleaseInv(r) && OwnEntriesInv(r) && OthersInv(r) && OnlyEngine(r, t)
    ensures TokenInv(t) && OwnEntriesInv(t) && OthersInv(t)
  {
    assert RemovalEntry(t) == RemovalEntry(r);
    OthersFrame(r, t);
  }

  lemma OnlyEngineReleases(r: Request, t: Request)
    requires ReleaseInv(r) && OnlyEngine(r, t)
    ensures ReleaseInv(t)
  {
  }

  lemma OtherJoinsEngineKeeps(r: Request)
    requires RequestInv(r)
    ensures RequestInv(Do(r, OtherJoinsEngine))
  {
    OnlyEngineKeeps(r, Do(r, OtherJoinsEngine));
    OnlyEngineReleases(r, Do(r, OtherJoinsEngine));
  }

  lemma OtherLeavesEngineKeeps(r: Request, token: Token)
    requires RequestInv(r) && Possible(r, OtherLeavesEngine(token))
    ensures RequestInv(Do(r, OtherLeavesEngine(token)))
  {
    OnlyEngineKeeps(r, Do(r, OtherLeavesEngine(token)));
    OnlyEngineReleases(r, Do(r, OtherLeavesEngine(token)));
  }

  lemma RequestStepKeeps(r: Request, step: RequestStep)
    requires RequestInv(r) && Possible(r, step)
    ensures RequestInv(Do(r, step))
  {
    match step
    case SubscribeWriter => SubscribeWriterKeeps(r);
    case SubscribeRemoval => SubscribeRemovalKeeps(r);
    case SubscribeMark => SubscribeMarkKeeps(r);
    case FailBeforeMark => FailBeforeMarkKeeps(r);
    case WaitEnds(started) => WaitEndsKeeps(r, started);
    case CleanEngine => CleanEngineKeeps(r);
    case CleanWorker => CleanWorkerKeeps(r);
    case WorkerPublishes(event) => PublishKeeps(r, event);
    case OtherListens => OtherListensKeeps(r);
    case OtherWatches(task, engineToken) => OtherWatchesKeeps(r, task, engineToken);
    case OtherLeaves(token) => OtherLeavesKeeps(r, token);
    case OtherJoinsEngine => OtherJoinsEngineKeeps(r);
    case OtherLeavesEngine(token) => OtherLeavesEngineKeeps(r, token);
  }

  // ---------- whole requests ----------

  /** A request arriving at a worker and an engine that already have subscribers. */
  ghost predicate Arrives(r: Request) {
    && r.phase == Arrived && !r.completed && r.others == r.worker && r.otherEngine == r.engine
    && Ascending(r.worker) && AllManaged(r.worker.entries)
    && (forall e :: e in r.worker.entries && e.callback.script != [] && e.callback.script[0].Elsewhere? ==>
          e.callback.script[0].token < r.engineCount)
    && (forall x :: x in r.engine ==> x < r.engineCount)
  }

  lemma ArrivalInv(r: Request)
    requires Arrives(r)
    ensures RequestInv(r)
  {
    SelectAll(r.worker.entries, Foreign(r));
  }

  predicate CanDo(r: Request, steps: seq<RequestStep>)
    decreases |steps|
  {
    steps == [] || (Possible(r, steps[0]) && CanDo(Do(r, steps[0]), steps[1..]))
  }

  function DoAll(r: Request, steps: seq<RequestStep>): Request
    decreases |steps|
  {
    if steps == [] then r else DoAll(Do(r, steps[0]), steps[1..])
  }

  lemma {:induction false} RequestKeeps(r: Request, steps: seq<RequestStep>)
    requires RequestInv(r) && CanDo(r, steps)
    ensures RequestInv(DoAll(r, steps))
    decreases |steps|
  {
    if steps != [] {
      RequestStepKeeps(r, steps[0]);
      RequestKeeps(Do(r, steps[0]), steps[1..]);
    }
  }

  /** While the worker waits for the task to start, each event reaches the mark, and as long as it can the removal. */
  lemma WaitHearsEvents(r: Request, event: WorkerEvent)
    requires RequestInv(r) && r.phase == Marked
    ensures (r.mark, event) in Deliveries(r.worker.entries, event)
    ensures !r.completed ==> (r.removal, event) in Deliveries(r.worker.entries, event)
  {
    var all := Deliveries(r.worker.entries, event);
    var i :| 0 <= i < |r.worker.entries| && r.worker.entries[i] == Entry(r.mark, PASSIVE);
    assert all[i] == (r.mark, event);
    if !r.completed {
      var j :| 0 <= j < |r.worker.entries| && r.worker.entries[j] == RemovalEntry(r);
      assert all[j] == (r.removal, event);
    }
  }

  /** Both streams are as if the request had never been made. */
  ghost predicate Restored(r: Request) {
    r.worker.entries == r.others.entries && r.engine == r.otherEngine
  }

  /** Exactly its removal callback and its writer are still subscribed, beside what others subscribed. */
  ghost predicate LeftBehind(r: Request) {
    && RemovalEntry(r) in r.worker.entries && RemovalEntry(r) !in r.others.entries
    && r.others.entries == Select(r.worker.entries, Except(RemovalEntry(r)))
    && r.engine == r.otherEngine + {r.writer} && r.writer !in r.otherEngine
  }

  /**
   * Whatever the worker publishes and others do meanwhile: a request that raised, or whose task completed, leaves both
   * streams as if it had never been made; any other that returned leaves exactly its two subscriptions behind.
   */
  lemma SubscriptionsConserved(r: Request, steps: seq<RequestStep>)
    requires Arrives(r) && CanDo(r, steps)
    ensures var t := DoAll(r, steps);
            && (t.phase == Raised ==> Restored(t))
            && (t.phase == Returned ==> (Restored(t) <==> t.completed) && (LeftBehind(t) <==> !t.completed))
  {
    ArrivalInv(r);
    RequestKeeps(r, steps);
    var t := DoAll(r, steps);
    SelectIn(t.worker.entries, Foreign(t));
    if t.phase == Raised || (t.phase == Returned && t.completed) {
      SelectAll(t.worker.entries, Foreign(t));
    } else if t.phase == Returned {
      SelectSame(t.worker.entries, Foreign(t), Except(RemovalEntry(t)));
    }
  }

  /** A null id is one way to leave them behind. */
  lemma NullIdLeavesTwo() returns (r: Request, steps: seq<RequestStep>)
    ensures Arrives(r) && CanDo(r, steps)
    ensures DoAll(r, steps).phase == Returned && LeftBehind(DoAll(r, steps))
  {
    r := Request(None, Arrived, Subs([], 0), {}, 0, 0, 0, 0, false, Subs([], 0), {});
    steps := [SubscribeWriter, SubscribeRemoval, FailBeforeMark];
    assert steps[1..] == [SubscribeRemoval, FailBeforeMark] && steps[1..][1..] == [FailBeforeMark];
    var s := Do(Do(Do(r, SubscribeWriter), SubscribeRemoval), FailBeforeMark);
    assert DoAll(s, []) == s;
    assert DoAll(Do(Do(r, SubscribeWriter), SubscribeRemoval), [FailBeforeMark]) == s;
    assert DoAll(r, steps) == s;
    SubscriptionsConserved(r, steps);
  }

  // ---------- pipe_events and unpipe_events ----------

  datatype SubHandles = SubHandles(worker: Token, progress: Token, data: Token)

  method PipeEvents(worker: Publisher, data: Publisher, progress: Publisher) returns (handles: SubHandles)
    requires worker != data && worker != progress && data != progress
    modifies worker, data, progress
    ensures worker.Subscriptions() == Added(old(worker.Subscriptions()), PASSIVE) && handles.worker == old(worker.count)
    ensures data.Subscriptions() == Added(old(data.Subscriptions()), PASSIVE) && handles.data == old(data.count)
    ensures progress.Subscriptions() == Added(old(progress.Subscriptions()), PASSIVE)
            && handles.progress == old(progress.count)
  {
    var w := worker.Subscribe(PASSIVE);
    var d := data.Subscribe(PASSIVE);
    var p := progress.Subscribe(PASSIVE);
    handles := SubHandles(w, p, d);
  }

  method UnpipeEvents(worker: Publisher, data: Publisher, progress: Publisher, handles: SubHandles)
    returns (errors: seq<Option<PublishError>>)
    requires worker != data && worker != progress && data != progress
    modifies worker, data, progress
    ensures |errors| == 3
    ensures (worker.Subscriptions(), errors[0]) == DoAct(old(worker.Subscriptions()), Unsubscribe(handles.worker))
    ensures (data.Subscriptions(), errors[1]) == DoAct(old(data.Subscriptions()), Unsubscribe(handles.data))
    ensures (progress.Subscriptions(), errors[2]) == DoAct(old(progress.Subscriptions()), Unsubscribe(handles.progress))
  {
    var w := worker.Unsubscribe(handles.worker);
    var d := data.Unsubscribe(handles.data);
    var p := progress.Unsubscribe(handles.progress);
    errors := [w, d, p];
  }

  function PublishAll(s: Subs, events: seq<WorkerEvent>): Subs {
    if events == [] then s else Published(PublishAll(s, events[..|events| - 1]), events[|events| - 1])
  }

  lemma {:induction false} PassivePasses(s: Subs, events: seq<WorkerEvent>)
    requires Ascending(s) && AllManaged(s.entries)
    ensures var t := PublishAll(s, events);
            && Ascending(t) && AllManaged(t.entries) && t.count == s.count
            && PublishAll(Added(s, PASSIVE), events) == Added(t, PASSIVE)
    decreases |events|
  {
    if events != [] {
      PassivePasses(s, events[..|events| - 1]);
      PassiveStays(PublishAll(s, events[..|events| - 1]), events[|events| - 1]);
    }
  }

  lemma SingleEntry(e: Entry, event: WorkerEvent)
    ensures Staying([e], event) == Keep(e, event) && Released([e], event) == Release(e, event)
  {
  }

  lemma PassiveStays(s: Subs, event: WorkerEvent)
    requires Ascending(s) && AllManaged(s.entries)
    ensures var t := Published(s, event);
            && Ascending(t) && AllManaged(t.entries) && t.count == s.count
            && Published(Added(s, PASSIVE), event) == Added(t, PASSIVE)
  {
    var extra := Entry(s.count, PASSIVE);
    ManagedStays(s, event);
    ManagedPublish(Added(s, PASSIVE), event);
    StayingConcat(s.entries, [extra], event);
    SingleEntry(extra, event);
  }

  /** On each stream: pipe, any events, unpipe leaves the subscriptions the same events leave without the pipe. */
  lemma UnpipeUndoesPipe(s: Subs, events: seq<WorkerEvent>)
    requires Ascending(s) && AllManaged(s.entries)
    ensures var (t, error) := DoAct(PublishAll(Added(s, PASSIVE), events), Unsubscribe(s.count));
            error == None && t.entries == PublishAll(s, events).entries
  {
    PassivePasses(s, events);
    var t := PublishAll(s, events);
    var extra := Entry(s.count, PASSIVE);
    assert t.entries + [extra] == t.entries + [extra] + [];
    RemoveFromMiddle(Subs(t.entries + [extra], s.count + 1), t.entries, extra, []);
    assert t.entries + [] == t.entries;
  }
}
