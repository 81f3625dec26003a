/**
 * Short polling: the producer appends events to the stream's queue file and a
 * separate poll request takes them out one at a time, oldest first.
 */
module ShortPolling {
  import opened Wrappers
  import opened Json
  import opened Events
  import opened QueueStore

  class ShortPollingStream {
    const store: Store
    const serviceName: string
    const streamId: string
    const queueFile: string
    var started: bool
    var finished: bool

    /** `new` followed by `init(serviceName, streamId)`, as the factory always does. */
    constructor Init(store: Store, serviceName: string, streamId: string)
      ensures this.store == store && this.serviceName == serviceName && this.streamId == streamId
      ensures queueFile == ShortQueuePath(store.tmpDir, serviceName, streamId)
      ensures !started && !finished
    {
      this.store := store;
      this.serviceName := serviceName;
      this.streamId := streamId;
      queueFile := ShortQueuePath(store.tmpDir, serviceName, streamId);
      started := false;
      finished := false;
    }

    /** The stream's queue, as `loadQueue` reads it. */
    function Queue(): seq<Event>
      reads store
    {
      LoadShort(store.Read(queueFile))
    }

    method Start()
      modifies this
      ensures started && finished == old(finished)
    {
      started := true;
    }

    /** Appends one event to the queue file; ignored once the stream is finished. */
    method Push(kind: string, data: Json)
      modifies this, store
      ensures old(finished) ==> unchanged(this) && unchanged(store)
      ensures !old(finished) ==> started && store.files == old(store.files)[queueFile := EventList(old(Queue()) + [Event(kind, data)])]
      ensures finished == old(finished)
      ensures !old(finished) ==> Queue() == old(Queue()) + [Event(kind, data)]
    {
      if finished {
        return;
      }
      if !started {
        Start();
      }
      var queue := LoadShort(store.Read(queueFile));
      store.Write(queueFile, queue + [Event(kind, data)]);
    }

    /** Appends the terminal `done` event carrying the final payload, once. */
    method Finish(finalPayload: Json)
      modifies this, store
      ensures old(finished) ==> unchanged(this) && unchanged(store)
      ensures !old(finished) ==> started && store.files == old(store.files)[queueFile := EventList(old(Queue()) + [Event(Done, finalPayload)])]
      ensures finished
      ensures !old(finished) ==> Queue() == old(Queue()) + [Event(Done, finalPayload)]
    {
      if finished {
        return;
      }
      finished := true;
      if !started {
        Start();
      }
      var queue := LoadShort(store.Read(queueFile));
      store.Write(queueFile, queue + [Event(Done, finalPayload)]);
    }

    /** Polling has no way to carry a comment: nothing happens. */
    method SendComment(text: string)
      ensures unchanged(this)
    {
    }

    /** The producer side runs in an ordinary request: it is never disconnected. */
    method IsDisconnected() returns (d: bool)
      ensures !d
    {
      d := false;
    }

    /** Takes the oldest event off the queue; None when there is none, and then the
        file is left as it was. */
    method PollNext() returns (next: Option<Event>)
      modifies store
      ensures old(Queue()) == [] ==> next == None && store.files == old(store.files)
      ensures old(Queue()) != [] ==>
                next == Some(old(Queue())[0]) &&
                store.files == old(store.files)[queueFile := EventList(old(Queue())[1..])]
      ensures Queue() == if old(Queue()) == [] then [] else old(Queue())[1..]
    {
      var queue := LoadShort(store.Read(queueFile));
      if queue == [] {
        return None;
      }
      next := Some(queue[0]);
      store.Write(queueFile, queue[1..]);
    }
  }

  /** Pushes each of `pushes` in turn on an unfinished producer. */
  method PushAll(producer: ShortPollingStream, pushes: seq<(string, Json)>)
    requires !producer.finished
    modifies producer, producer.store
    ensures !producer.finished
    ensures producer.Queue() == old(producer.Queue()) + ToEvents(pushes)
  {
    var i := 0;
    while i < |pushes|
      invariant 0 <= i <= |pushes|
      invariant !producer.finished
      invariant producer.Queue() == old(producer.Queue()) + ToEvents(pushes[..i])
    {
      assert pushes[..i + 1] == pushes[..i] + [pushes[i]];
      ToEventsAppend(pushes[..i], pushes[i]);
      producer.Push(pushes[i].0, pushes[i].1);
      i := i + 1;
    }
    assert pushes[..i] == pushes;
  }

  /** Polls until the queue is empty; the events come out in queue order. */
  method PollAll(consumer: ShortPollingStream) returns (polled: seq<Event>)
    modifies consumer.store
    ensures polled == old(consumer.Queue())
    ensures consumer.Queue() == []
  {
    polled := [];
    var next := consumer.PollNext();
    while next.Some?
      invariant next.Some? ==> polled + [next.value] + consumer.Queue() == old(consumer.Queue())
      invariant next.None? ==> polled == old(consumer.Queue()) && consumer.Queue() == []
      decreases |consumer.Queue()| + (if next.Some? then 1 else 0)
    {
      polled := polled + [next.value];
      next := consumer.PollNext();
    }
  }

  /**
   * One producer request pushes `pushes`, finishes with `finalPayload` and then tries
   * one more push; a later poll request, with its own stream instance for the same
   * identity, polls until nothing is left. The consumer receives every event in
   * order, then `done`, and nothing after it.
   */
  method ProduceThenConsume(tmpDir: string, serviceName: string, streamId: string,
                            pushes: seq<(string, Json)>, late: (string, Json), finalPayload: Json)
    returns (polled: seq<Event>, after: Option<Event>)
    ensures polled == ToEvents(pushes) + [Event(Done, finalPayload)]
    ensures after == None
  {
    var store := new Store(tmpDir);
    var producer := new ShortPollingStream.Init(store, serviceName, streamId);
    PushAll(producer, pushes);
    assert producer.Queue() == ToEvents(pushes);
    producer.Finish(finalPayload);
    ghost var queued := producer.Queue();
    assert queued == ToEvents(pushes) + [Event(Done, finalPayload)];
    producer.Push(late.0, late.1);
    assert producer.Queue() == queued;
    var consumer := new ShortPollingStream.Init(store, serviceName, streamId);
    assert consumer.Queue() == queued;
    polled := PollAll(consumer);
    after := consumer.PollNext();
  }
}
