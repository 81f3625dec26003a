/**
 * Long polling: the producer appends events to the stream's queue file; the poll
 * request waits, checking the queue every 50 ms, until an event is there or the
 * timeout has passed.
 */
module LongPolling {
  import opened Wrappers
  import opened Json
  import opened Events
  import opened QueueStore

  /** What `waitNext` answers: the oldest queued event, or `{type: 'timeout'}`. */
  datatype WaitResult = Next(event: Event) | TimedOut

  /** The position of the first clock reading past the timeout. */
  function FirstPast(elapsed: seq<real>, timeoutSeconds: int): (k: nat)
    requires exists k :: 0 <= k < |elapsed| && elapsed[k] > timeoutSeconds as real
    ensures k < |elapsed| && elapsed[k] > timeoutSeconds as real
    ensures forall j :: 0 <= j < k ==> elapsed[j] <= timeoutSeconds as real
  {
    if elapsed[0] > timeoutSeconds as real then 0
    else
      var k :| 0 <= k < |elapsed| && elapsed[k] > timeoutSeconds as real;
      assert elapsed[1..][k - 1] == elapsed[k];
      1 + FirstPast(elapsed[1..], timeoutSeconds)
  }

  class LongPollingStream {
    const store: Store
    const serviceName: string
    const streamId: string
    const queueFile: string
    var started: bool
    var finished: bool

    /** `new` followed by `init(serviceName, streamId)`, as the factory always does. */
    constructor Init(store: Store, serviceName: string, streamId: string)
      ensures this.store == store && this.serviceName == serviceName && this.streamId == streamId
      ensures queueFile == LongQueuePath(store.tmpDir, serviceName, streamId)
      ensures !started && !finished
    {
      this.store := store;
      this.serviceName := serviceName;
      this.streamId := streamId;
      queueFile := LongQueuePath(store.tmpDir, serviceName, streamId);
      started := false;
      finished := false;
    }

    /** The stream's queue, as the corrected `loadQueue` reads it. */
    function Queue(): seq<Event>
      reads store
    {
      LoadLong(store.Read(queueFile))
    }

    method Start()
      modifies this
      ensures started && finished == old(finished)
    {
      started := true;
    }

    /** Appends one event to the queue file; ignored once the stream is finished. */
    method Push(kind: string, data: Json)
      modifies this, store
      ensures old(finished) ==> unchanged(this) && unchanged(store)
      ensures !old(finished) ==> started && store.files == old(store.files)[queueFile := EventList(old(Queue()) + [Event(kind, data)])]
      ensures finished == old(finished)
      ensures !old(finished) ==> Queue() == old(Queue()) + [Event(kind, data)]
    {
      if finished {
        return;
      }
      if !started {
        Start();
      }
      var queue := LoadLong(store.Read(queueFile));
      store.Write(queueFile, queue + [Event(kind, data)]);
    }

    /** Appends the terminal `done` event carrying the final payload, once. */
    method Finish(finalPayload: Json)
      modifies this, store
      ensures old(finished) ==> unchanged(this) && unchanged(store)
      ensures !old(finished) ==> started && store.files == old(store.files)[queueFile := EventList(old(Queue()) + [Event(Done, finalPayload)])]
      ensures finished
      ensures !old(finished) ==> Queue() == old(Queue()) + [Event(Done, finalPayload)]
    {
      if finished {
        return;
      }
      finished := true;
      if !started {
        Start();
      }
      var queue := LoadLong(store.Read(queueFile));
      store.Write(queueFile, queue + [Event(Done, finalPayload)]);
    }

    /** Polling has no way to carry a comment: nothing happens. */
    method SendComment(text: string)
      ensures unchanged(this)
    {
    }

    /** The producer side runs in an ordinary request: it is never disconnected. */
    method IsDisconnected() returns (d: bool)
      ensures !d
    {
      d := false;
    }

    /**
     * `waitNext(timeoutSeconds)`. `elapsed[k]` is the number of seconds since the call
     * began, read at the k-th check; some reading passes the timeout, which is how the
     * clock moves on. Returns the oldest event (removing it) after one check when the
     * queue holds one; otherwise answers a timeout at the first check whose reading is
     * strictly greater than the timeout, leaving the store as it was.
     */
    method WaitNext(timeoutSeconds: int, elapsed: seq<real>) returns (result: WaitResult, checks: nat)
      requires exists k :: 0 <= k < |elapsed| && elapsed[k] > timeoutSeconds as real
      modifies store
      ensures old(Queue()) != [] ==>
                result == Next(old(Queue())[0]) && checks == 1 &&
                store.files == old(store.files)[queueFile := EventList(old(Queue())[1..])] &&
                Queue() == old(Queue())[1..]
      ensures old(Queue()) == [] ==>
                result == TimedOut && checks == FirstPast(elapsed, timeoutSeconds) + 1 &&
                store.files == old(store.files)
    {
      checks := 0;
      while true
        invariant checks <= FirstPast(elapsed, timeoutSeconds)
        invariant checks > 0 ==> old(Queue()) == [] && store.files == old(store.files)
        invariant checks == 0 ==> store.files == old(store.files)
        decreases FirstPast(elapsed, timeoutSeconds) - checks
      {
        var queue := LoadLong(store.Read(queueFile));
        if queue != [] {
          store.Write(queueFile, queue[1..]);
          return Next(queue[0]), checks + 1;
        }
        if elapsed[checks] > timeoutSeconds as real {
          return TimedOut, checks + 1;
        }
        checks := checks + 1;  // usleep(50000)
      }
    }
  }

  /** With a negative timeout the first reading is already past it: an empty queue
      answers the timeout after a single check, without sleeping. */
  lemma NegativeTimeoutIsImmediate(elapsed: seq<real>, timeoutSeconds: int)
    requires timeoutSeconds < 0 && |elapsed| > 0 && elapsed[0] >= 0.0
    ensures FirstPast(elapsed, timeoutSeconds) == 0
  {
  }

  /** Pushes each of `pushes` in turn on an unfinished producer. */
  method PushAll(producer: LongPollingStream, pushes: seq<(string, Json)>)
    requires !producer.finished
    modifies producer, producer.store
    ensures !producer.finished
    ensures producer.Queue() == old(producer.Queue()) + ToEvents(pushes)
  {
    var i := 0;
    while i < |pushes|
      invariant 0 <= i <= |pushes|
      invariant !producer.finished
      invariant producer.Queue() == old(producer.Queue()) + ToEvents(pushes[..i])
    {
      assert pushes[..i + 1] == pushes[..i] + [pushes[i]];
      ToEventsAppend(pushes[..i], pushes[i]);
      producer.Push(pushes[i].0, pushes[i].1);
      i := i + 1;
    }
    assert pushes[..i] == pushes;
  }

  /** Waits repeatedly until a wait times out; the events come out in queue order. */
  method WaitAll(consumer: LongPollingStream, timeoutSeconds: int, elapsed: seq<real>)
    returns (received: seq<Event>)
    requires exists k :: 0 <= k < |elapsed| && elapsed[k] > timeoutSeconds as real
    modifies consumer.store
    ensures received == old(consumer.Queue())
    ensures consumer.Queue() == []
  {
    received := [];
    var result, checks := consumer.WaitNext(timeoutSeconds, elapsed);
    while result.Next?
      invariant result.Next? ==> received + [result.event] + consumer.Queue() == old(consumer.Queue())
      invariant result.TimedOut? ==> received == old(consumer.Queue()) && consumer.Queue() == []
      decreases |consumer.Queue()| + (if result.Next? then 1 else 0)
    {
      received := received + [result.event];
      result, checks := consumer.WaitNext(timeoutSeconds, elapsed);
    }
  }

  /**
   * One producer request pushes `pushes`, finishes twice and pushes once more; a
   * later long-poll request for the same identity waits until it times out. It
   * receives every event in order, then the first `done` only, then the timeout.
   */
  method ProduceThenWait(tmpDir: string, serviceName: string, streamId: string,
                         pushes: seq<(string, Json)>, late: (string, Json),
                         finalPayload: Json, secondPayload: Json,
                         timeoutSeconds: int, elapsed: seq<real>)
    returns (received: seq<Event>, last: WaitResult)
    requires exists k :: 0 <= k < |elapsed| && elapsed[k] > timeoutSeconds as real
    ensures received == ToEvents(pushes) + [Event(Done, finalPayload)]
    ensures last == TimedOut
  {
    var store := new Store(tmpDir);
    var producer := new LongPollingStream.Init(store, serviceName, streamId);
    PushAll(producer, pushes);
    assert producer.Queue() == ToEvents(pushes);
    producer.Finish(finalPayload);
    ghost var queued := producer.Queue();
    assert queued == ToEvents(pushes) + [Event(Done, finalPayload)];
    producer.Finish(secondPayload);
    producer.Push(late.0, late.1);
    assert producer.Queue() == queued;
    var consumer := new LongPollingStream.Init(store, serviceName, streamId);
    assert consumer.Queue() == queued;
    received := WaitAll(consumer, timeoutSeconds, elapsed);
    var checks;
    last, checks := consumer.WaitNext(timeoutSeconds, elapsed);
  }
}
