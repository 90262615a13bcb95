/** EventPipe: the server's with-block around a stream of events (src/blueapi/service/runner.py). */
module EventPipes {
  import opened Basics
  import opened WorkerEvents
  import opened EventPublisher
  import opened TaskSubscriptions

  /** Entering subscribes to the worker's three streams, leaving takes the innermost subscription back. */
  class EventPipe {
    const worker: Publisher
    const data: Publisher
    const progress: Publisher
    var handles: seq<SubHandles>

    constructor (worker: Publisher, data: Publisher, progress: Publisher)
      requires worker != data && worker != progress && data != progress
      ensures this.worker == worker && this.data == data && this.progress == progress && handles == []
    {
      this.worker, this.data, this.progress := worker, data, progress;
      handles := [];
    }

    predicate Apart() {
      worker != data && worker != progress && data != progress
    }

    method Enter()
      requires Apart()
      modifies this, worker, data, progress
      ensures handles == old(handles) + [SubHandles(old(worker.count), old(progress.count), old(data.count))]
      ensures worker.Subscriptions() == Added(old(worker.Subscriptions()), PASSIVE)
      ensures data.Subscriptions() == Added(old(data.Subscriptions()), PASSIVE)
      ensures progress.Subscriptions() == Added(old(progress.Subscriptions()), PASSIVE)
    {
      var h := PipeEvents(worker, data, progress);
      handles := handles + [h];
    }

    method Exit() returns (errors: seq<Option<PublishError>>)
      requires Apart() && handles != []
      modifies this, worker, data, progress
      ensures handles == old(handles[..|handles| - 1])
      ensures var h := old(handles[|handles| - 1]);
              && |errors| == 3
              && (worker.Subscriptions(), errors[0]) == DoAct(old(worker.Subscriptions()), Unsubscribe(h.worker))
              && (data.Subscriptions(), errors[1]) == DoAct(old(data.Subscriptions()), Unsubscribe(h.data))
              && (progress.Subscriptions(), errors[2]) == DoAct(old(progress.Subscriptions()), Unsubscribe(h.progress))
    {
      var h := handles[|handles| - 1];
      handles := handles[..|handles| - 1];
      errors := UnpipeEvents(worker, data, progress, h);
    }
  }

  /** Publishes events one after the other. */
  method PublishInTurn(stream: Publisher, events: seq<WorkerEvent>)
    modifies stream
    ensures stream.Subscriptions() == PublishAll(old(stream.Subscriptions()), events)
  {
    for i := 0 to |events|
      invariant stream.Subscriptions() == PublishAll(old(stream.Subscriptions()), events[..i])
    {
      assert events[..i + 1][..i] == events[..i];
      var _ := stream.Publish(events[i]);
    }
    assert events[..|events|] == events;
  }

  /**
   The with-block around a stretch of events on each of the streams: it never fails to unsubscribe, and leaves all
   three streams and the list of handles as the same events leave them without it.
   */
  method WithPipe(pipe: EventPipe, onWorker: seq<WorkerEvent>, onData: seq<WorkerEvent>, onProgress: seq<WorkerEvent>)
    returns (errors: seq<Option<PublishError>>)
    requires pipe.Apart()
    requires Ascending(pipe.worker.Subscriptions()) && AllManaged(pipe.worker.entries)
    requires Ascending(pipe.data.Subscriptions()) && AllManaged(pipe.data.entries)
    requires Ascending(pipe.progress.Subscriptions()) && AllManaged(pipe.progress.entries)
    modifies pipe, pipe.worker, pipe.data, pipe.progress
    ensures errors == [None, None, None] && pipe.handles == old(pipe.handles)
    ensures pipe.worker.entries == PublishAll(old(pipe.worker.Subscriptions()), onWorker).entries
    ensures pipe.data.entries == PublishAll(old(pipe.data.Subscriptions()), onData).entries
    ensures pipe.progress.entries == PublishAll(old(pipe.progress.Subscriptions()), onProgress).entries
  {
    ghost var w, d, p := pipe.worker.Subscriptions(), pipe.data.Subscriptions(), pipe.progress.Subscriptions();
    pipe.Enter();
    Inside(pipe, onWorker, onData, onProgress);
    Leaving(pipe.worker.Subscriptions(), w, onWorker);
    Leaving(pipe.data.Subscriptions(), d, onData);
    Leaving(pipe.progress.Subscriptions(), p, onProgress);
    errors := pipe.Exit();
  }

  method Inside(pipe: EventPipe, onWorker: seq<WorkerEvent>, onData: seq<WorkerEvent>, onProgress: seq<WorkerEvent>)
    requires pipe.Apart()
    modifies pipe.worker, pipe.data, pipe.progress
    ensures pipe.worker.Subscriptions() == PublishAll(old(pipe.worker.Subscriptions()), onWorker)
    ensures pipe.data.Subscriptions() == PublishAll(old(pipe.data.Subscriptions()), onData)
    ensures pipe.progress.Subscriptions() == PublishAll(old(pipe.progress.Subscriptions()), onProgress)
  {
    PublishInTurn(pipe.worker, onWorker);
    PublishInTurn(pipe.data, onData);
    PublishInTurn(pipe.progress, onProgress);
  }

  lemma Leaving(inside: Subs, before: Subs, events: seq<WorkerEvent>)
    requires Ascending(before) && AllManaged(before.entries) && inside == PublishAll(Added(before, PASSIVE), events)
    ensures var (t, error) := DoAct(inside, Unsubscribe(before.count));
            error == None && t.entries == PublishAll(before, events).entries
  {
    UnpipeUndoesPipe(before, events);
  }
}
