/**
 begin_task as the service runs it, with tiled configured (src/blueapi/service/interface.py): a list of subscribers
 that is filled on the way in and emptied in a loop when the worker refuses.  It is shown to be one of the requests of
 TaskSubscriptions, so that what holds of every request holds of it.
 */
module BeginRequests {
  import opened Basics
  import opened WorkerEvents
  import opened EventPublisher
  import opened TaskSubscriptions

  /** The RunEngine, as far as its subscriptions go. */
  class Engine {
    var tokens: set<Token>
    var count: Token

    constructor ()
      ensures tokens == {} && count == 0
    {
      tokens, count := {}, 0;
    }

    method Subscribe() returns (token: Token)
      modifies this
      ensures token == old(count) && count == old(count) + 1 && tokens == old(tokens) + {token}
    {
      token := count;
      tokens := tokens + {token};
      count := count + 1;
    }

    method Unsubscribe(token: Token)
      modifies this`tokens
      ensures tokens == old(tokens) - {token}
    {
      tokens := tokens - {token};
    }
  }

  /** One item of the list `subscribers`. */
  datatype Subscriber = OnEngine(token: Token) | OnWorker(token: Token)

  /** What happens inside the worker: refused at once, or waited for. */
  datatype Attempt = Refused | Waited(started: bool)

  /** The events that the worker thread publishes after each of the steps. */
  datatype Meanwhile = Meanwhile(
    atFirst: seq<WorkerEvent>,
    afterWriter: seq<WorkerEvent>,
    afterRemoval: seq<WorkerEvent>,
    duringWait: seq<WorkerEvent>,
    afterFailure: seq<WorkerEvent>,
    betweenRemovals: seq<WorkerEvent>)

  // ---------- extending a request by a step ----------

  lemma {:induction false} OneMoreStep(r: Request, steps: seq<RequestStep>, step: RequestStep)
    requires CanDo(r, steps) && Possible(DoAll(r, steps), step)
    ensures CanDo(r, steps + [step]) && DoAll(r, steps + [step]) == Do(DoAll(r, steps), step)
    decreases |steps|
  {
    if steps == [] {
      assert steps + [step] == [step] && [step][1..] == [];
      assert DoAll(Do(r, step), []) == Do(r, step);
    } else {
      OneMoreStep(Do(r, steps[0]), steps[1..], step);
      assert (steps + [step])[0] == steps[0] && (steps + [step])[1..] == steps[1..] + [step];
    }
  }

  /** A request that has just arrived, at these two streams. */
  function Arriving(id: Option<TaskId>, worker: Subs, tokens: set<Token>, count: Token): Request {
    Request(id, Arrived, worker, tokens, count, 0, 0, 0, false, worker, tokens)
  }

  class Service {
    const worker: Publisher
    const engine: Engine
    ghost var request: Request
    ghost var steps: seq<RequestStep>

    constructor (worker: Publisher, engine: Engine)
      ensures this.worker == worker && this.engine == engine
    {
      this.worker, this.engine := worker, engine;
    }

    /** The objects are as the request's steps so far leave them. */
    ghost predicate Follows(r: Request)
      reads this, worker, engine
    {
      && CanDo(r, steps) && request == DoAll(r, steps)
      && worker.Subscriptions() == request.worker
        && engine.tokens == request.engine && engine.count == request.engineCount
    }

    ghost method Note(r: Request, step: RequestStep)
      requires CanDo(r, steps) && request == DoAll(r, steps) && Possible(request, step)
      requires var t := Do(request, step);
               worker.Subscriptions() == t.worker && engine.tokens == t.engine && engine.count == t.engineCount
      modifies this
      ensures Follows(r) && request == Do(old(request), step) && steps == old(steps) + [step]
    {
      OneMoreStep(r, steps, step);
      request, steps := Do(request, step), steps + [step];
    }

    /** The worker thread publishes; removal callbacks also unsubscribe from the engine. */
    method Publish(event: WorkerEvent, ghost r: Request)
      requires Follows(r)
      modifies this, worker, engine
      ensures Follows(r) && request == Do(old(request), WorkerPublishes(event))
    {
      var released := CallsEffects(Subs(worker.entries, worker.count), worker.entries, event);
      var _ := worker.Publish(event);
      engine.tokens := engine.tokens - released;
      Note(r, WorkerPublishes(event));
    }

    /** Publishing changes neither what the request is doing nor the tokens it was given. */
    method PublishAll(events: seq<WorkerEvent>, ghost r: Request)
      requires Follows(r)
      modifies this, worker, engine
      ensures Follows(r) && request.phase == old(request.phase) && request.id == old(request.id)
      ensures request.writer == old(request.writer) && request.removal == old(request.removal)
      ensures request.mark == old(request.mark)
    {
      for i := 0 to |events|
        invariant Follows(r) && request.phase == old(request.phase) && request.id == old(request.id)
        invariant request.writer == old(request.writer) && request.removal == old(request.removal)
        invariant request.mark == old(request.mark)
      {
        Publish(events[i], r);
      }
    }

    method Subscribe(id: Option<TaskId>, meanwhile: Meanwhile, ghost r: Request) returns (subscribers: seq<Subscriber>)
      requires Follows(r) && request == r && r.phase == Arrived && r.id == id
      modifies this, worker, engine
      ensures Follows(r) && request.phase == Watching && request.id == id
      ensures subscribers == [OnEngine(request.writer), OnWorker(request.removal)]
    {
      PublishAll(meanwhile.atFirst, r);
      var writer := engine.Subscribe();
      Note(r, SubscribeWriter);
      subscribers := [OnEngine(writer)];
      PublishAll(meanwhile.afterWriter, r);
      var removal := worker.Subscribe(RemovalCallback(id, writer, worker.count));
      Note(r, SubscribeRemoval);
      subscribers := subscribers + [OnWorker(removal)];
      PublishAll(meanwhile.afterRemoval, r);
    }

    /** begin_task of the worker: what it subscribes it always takes back. */
    method Attempted(attempt: Attempt, events: seq<WorkerEvent>, ghost r: Request) returns (raised: bool)
      requires Follows(r) && request.phase == Watching && request.id.Some?
      modifies this, worker, engine
      ensures Follows(r) && request.phase == (if raised then Failing else Returned)
      ensures request.writer == old(request.writer) && request.removal == old(request.removal)
      ensures raised <==> attempt.Refused? || !attempt.started
    {
      if attempt.Refused? {
        Note(r, FailBeforeMark);
        return true;
      }
      var mark := worker.Subscribe(PASSIVE);
      Note(r, SubscribeMark);
      PublishAll(events, r);
      var _ := worker.Unsubscribe(mark);
      Note(r, WaitEnds(attempt.started));
      return !attempt.started;
    }

    /** The except clause: a loop that ends early when an unsubscribe raises. */
    method CleanUp(subscribers: seq<Subscriber>, meanwhile: seq<WorkerEvent>, ghost r: Request)
      requires Follows(r) && request.phase == Failing
      requires subscribers == [OnEngine(request.writer), OnWorker(request.removal)]
      modifies this, worker, engine
      ensures Follows(r) && request.phase == Raised
    {
      var i, failed := 0, false;
      while i < |subscribers| && !failed
        invariant 0 <= i <= |subscribers| && (failed ==> i == |subscribers|)
        invariant Follows(r) && subscribers == [OnEngine(request.writer), OnWorker(request.removal)]
        invariant request.phase == if i == 0 then Failing else if i == 1 then Halfway else Raised
      {
        match subscribers[i] {
          case OnEngine(token) =>
            engine.Unsubscribe(token);
            Note(r, CleanEngine);
            PublishAll(meanwhile, r);
          case OnWorker(token) =>
            var error := worker.Unsubscribe(token);
            failed := error.Some?;
            Note(r, CleanWorker);
        }
        i := i + 1;
      }
    }

    /** The whole of begin_task; what holds of any request then holds of the two streams. */
    method BeginTask(id: Option<TaskId>, attempt: Attempt, meanwhile: Meanwhile) returns (raised: bool)
      modifies this, worker, engine
      ensures var r := Arriving(id, old(worker.Subscriptions()), old(engine.tokens), old(engine.count));
              && Follows(r) && request.phase == (if raised then Raised else Returned)
              && (Arrives(r) && raised ==> Restored(request))
              && (Arrives(r) && !raised ==> (Restored(request) <==> request.completed))
              && (Arrives(r) && !raised ==> (LeftBehind(request) <==> !request.completed))
      ensures raised <==> id.Some? && (attempt.Refused? || !attempt.started)
    {
      ghost var r := Arriving(id, worker.Subscriptions(), engine.tokens, engine.count);
      request, steps := r, [];
      var subscribers := Subscribe(id, meanwhile, r);
      if id.Some? {
        raised := Attempted(attempt, meanwhile.duringWait, r);
        if raised {
          PublishAll(meanwhile.afterFailure, r);
          CleanUp(subscribers, meanwhile.betweenRemovals, r);
        }
      } else {
        Note(r, FailBeforeMark);
        raised := false;
      }
      if Arrives(r) {
        SubscriptionsConserved(r, steps);
      }
    }
  }
}
