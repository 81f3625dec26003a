/**
 * The Server-Sent Events engine: every event is written at once as an
 * `event:`/`data:` frame on the open response, which a browser's EventSource
 * reads as it arrives.
 */
module SseStream {
  import opened Json
  import opened Events
  import opened Text
  import JsonEncode
  import opened SseWire

  /** The event a receiver sees for a pushed event with a line-break-free tag. */
  function Delivered(e: Event): (d: Dispatched)
    ensures d.data == JsonEncode.Encode(e.data)
    ensures d.kind == if e.kind == "" then "message" else e.kind
  {
    Dispatched(if e.kind == "" then "message" else e.kind, JsonEncode.Encode(e.data))
  }

  function DeliveredAll(events: seq<Event>): (r: seq<Dispatched>)
    ensures |r| == |events|
    ensures forall i :: 0 <= i < |events| ==> r[i] == Delivered(events[i])
  {
    if events == [] then [] else [Delivered(events[0])] + DeliveredAll(events[1..])
  }

  /**
   * The response body is `output`; `connectionAborted` stands for the value PHP's
   * `connection_aborted()` returns at the moment of each call. The ghost `delivered`
   * is what an EventSource reading `output` has dispatched so far.
   */
  class SseEventStream {
    var started: bool
    var finished: bool
    var output: string
    ghost var delivered: seq<Dispatched>

    /** The body so far is whole frames: a receiver that read it is between frames,
        having dispatched `delivered`. */
    ghost predicate Valid()
      reads this
    {
      Run(Idle([]), output) == Idle(delivered)
    }

    constructor ()
      ensures Valid() && !started && !finished && output == "" && delivered == []
    {
      started := false;
      finished := false;
      output := "";
      delivered := [];
    }

    /** Opens the stream once, writing the preamble blank line. */
    method Start()
      requires Valid()
      modifies this
      ensures Valid()
      ensures old(started) ==> unchanged(this)
      ensures !old(started) ==> output == old(output) + Preamble && delivered == old(delivered)
      ensures started && finished == old(finished)
    {
      if started {
        return;
      }
      started := true;
      RunConcat(Idle([]), output, Preamble);
      PreambleIsSilent(delivered);
      output := output + Preamble;
    }

    method IsDisconnected(connectionAborted: int) returns (d: bool)
      ensures d <==> connectionAborted == 1
    {
      d := connectionAborted == 1;
    }

    /** Appends `frame`, a text ending in a blank line, keeping the body whole frames. */
    method Emit(frame: string, ghost body: string)
      requires Valid() && frame == body + "\n\n"
      modifies this
      ensures Valid()
      ensures output == old(output) + frame
      ensures delivered == Run(Idle(old(delivered)), frame).dispatched
      ensures started == old(started) && finished == old(finished)
    {
      RunConcat(Idle([]), output, frame);
      FrameEndLeavesIdle(Idle(delivered), body);
      output := output + frame;
      delivered := Run(Idle(delivered), frame).dispatched;
    }

    /** Appends one event frame; a receiver dispatches exactly that event when
        neither the tag nor the data has a line break. */
    method EmitEvent(kind: string, json: string)
      requires Valid()
      modifies this
      ensures Valid()
      ensures output == old(output) + EventFrame(kind, json)
      ensures NoLineBreak(kind) && NoLineBreak(json) ==>
                delivered == old(delivered) + [Dispatched(if kind == "" then "message" else kind, json)]
      ensures started == old(started) && finished == old(finished)
    {
      ghost var before := delivered;
      assert EventFrame(kind, json) == ("event: " + kind + "\n" + "data: " + json) + "\n\n";
      Emit(EventFrame(kind, json), "event: " + kind + "\n" + "data: " + json);
      if NoLineBreak(kind) && NoLineBreak(json) {
        EventFrameDispatches(before, kind, json);
      }
    }

    /**
     * Writes one event frame, opening the stream first if needed; nothing is written
     * once finished or while the client is gone. The frame always ends a message, and
     * an EventSource receives exactly the pushed event when its tag has no line break.
     */
    method Push(kind: string, data: Json, connectionAborted: int)
      requires Valid()
      modifies this
      ensures Valid()
      ensures old(finished) ==> unchanged(this)
      ensures !old(finished) ==>
                started &&
                output == old(output) + (if old(started) then "" else Preamble) +
                          (if connectionAborted == 1 then "" else EventFrame(kind, JsonEncode.Encode(data)))
      ensures !old(finished) && connectionAborted != 1 && NoLineBreak(kind) ==>
                delivered == old(delivered) + [Delivered(Event(kind, data))]
      ensures connectionAborted == 1 ==> delivered == old(delivered)
      ensures finished == old(finished)
    {
      if finished {
        return;
      }
      if !started {
        Start();
      }
      var gone := IsDisconnected(connectionAborted);
      if gone {
        return;
      }
      EmitEvent(kind, JsonEncode.Encode(data));
    }

    /** Writes a comment frame (a heartbeat) under the same conditions as Push; an
        EventSource dispatches nothing for it when the text has no line break. */
    method SendComment(text: string, connectionAborted: int)
      requires Valid()
      modifies this
      ensures Valid()
      ensures old(finished) ==> unchanged(this)
      ensures !old(finished) ==>
                started &&
                output == old(output) + (if old(started) then "" else Preamble) +
                          (if connectionAborted == 1 then "" else CommentFrame(text))
      ensures NoLineBreak(text) || connectionAborted == 1 ==> delivered == old(delivered)
      ensures finished == old(finished)
    {
      if finished {
        return;
      }
      if !started {
        Start();
      }
      var gone := IsDisconnected(connectionAborted);
      if gone {
        return;
      }
      ghost var before := delivered;
      assert CommentFrame(text) == (": " + text) + "\n\n";
      Emit(CommentFrame(text), ": " + text);
      if NoLineBreak(text) {
        CommentFrameIsSilent(before, text);
      }
    }

    /** Marks the stream finished, once, and writes the `done` frame with the final
        payload unless the client is gone. */
    method Finish(finalPayload: Json, connectionAborted: int)
      requires Valid()
      modifies this
      ensures Valid()
      ensures old(finished) ==> unchanged(this)
      ensures !old(finished) ==>
                started &&
                output == old(output) + (if old(started) then "" else Preamble) +
                          (if connectionAborted == 1 then "" else EventFrame(Done, JsonEncode.Encode(finalPayload)))
      ensures !old(finished) && connectionAborted != 1 ==>
                delivered == old(delivered) + [Delivered(Event(Done, finalPayload))]
      ensures connectionAborted == 1 ==> delivered == old(delivered)
      ensures finished
    {
      if finished {
        return;
      }
      finished := true;
      if !started {
        Start();
      }
      ghost var begun := output;
      assert begun == old(output) + (if old(started) then "" else Preamble);
      var gone := IsDisconnected(connectionAborted);
      if !gone {
        var json := JsonEncode.Encode(finalPayload);
        assert NoLineBreak(Done);
        EmitEvent(Done, json);
        assert output == begun + EventFrame(Done, json);
      } else {
        assert output == begun + "";
      }
    }
  }

  /** A heartbeat comment and then one event, on an open connection. */
  method HeartbeatThenPush(stream: SseEventStream, heartbeat: string, kind: string, data: Json)
    requires stream.Valid() && !stream.finished
    requires NoLineBreak(heartbeat) && NoLineBreak(kind)
    modifies stream
    ensures stream.Valid() && !stream.finished
    ensures stream.delivered == old(stream.delivered) + [Delivered(Event(kind, data))]
  {
    stream.SendComment(heartbeat, 0);
    stream.Push(kind, data, 0);
  }

  /** Pushes each of `pushes` in turn on an open connection, each after a heartbeat. */
  method PushAll(stream: SseEventStream, pushes: seq<(string, Json)>, heartbeat: string)
    requires stream.Valid() && !stream.finished
    requires forall p :: p in pushes ==> NoLineBreak(p.0)
    requires NoLineBreak(heartbeat)
    modifies stream
    ensures stream.Valid() && !stream.finished
    ensures stream.delivered == old(stream.delivered) + DeliveredAll(ToEvents(pushes))
  {
    var i := 0;
    while i < |pushes|
      invariant 0 <= i <= |pushes|
      invariant stream.Valid() && !stream.finished
      invariant stream.delivered == old(stream.delivered) + DeliveredAll(ToEvents(pushes[..i]))
    {
      assert pushes[i] in pushes;
      HeartbeatThenPush(stream, heartbeat, pushes[i].0, pushes[i].1);
      DeliveredPrefix(pushes, i);
      i := i + 1;
    }
    assert pushes[..i] == pushes;
  }

  /**
   * A whole SSE response on a connection that stays open: the pushes, heartbeat
   * comments between them, then `finish` and a late push. An EventSource reading
   * the body receives every pushed event in order, then `done`, and nothing else.
   */
  method StreamBody(pushes: seq<(string, Json)>, heartbeat: string, finalPayload: Json)
    returns (body: string)
    requires forall p :: p in pushes ==> NoLineBreak(p.0)
    requires NoLineBreak(heartbeat)
    ensures Interpret(body) == DeliveredAll(ToEvents(pushes) + [Event(Done, finalPayload)])
  {
    var stream := new SseEventStream();
    PushAll(stream, pushes, heartbeat);
    stream.Finish(finalPayload, 0);
    DeliveredAllAppend(ToEvents(pushes), Event(Done, finalPayload));
    stream.Push("late", JNull, 0);
    body := stream.output;
  }

  lemma DeliveredAllAppend(events: seq<Event>, e: Event)
    ensures DeliveredAll(events + [e]) == DeliveredAll(events) + [Delivered(e)]
  {
  }

  lemma DeliveredPrefix(pushes: seq<(string, Json)>, i: nat)
    requires i < |pushes|
    ensures DeliveredAll(ToEvents(pushes[..i + 1])) ==
            DeliveredAll(ToEvents(pushes[..i])) + [Delivered(Event(pushes[i].0, pushes[i].1))]
  {
    assert pushes[..i + 1] == pushes[..i] + [pushes[i]];
    ToEventsAppend(pushes[..i], pushes[i]);
    DeliveredAllAppend(ToEvents(pushes[..i]), Event(pushes[i].0, pushes[i].1));
  }
}
