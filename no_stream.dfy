/**
 * The non-streaming engine: events are buffered in memory and the response is
 * one JSON document written when the stream finishes.
 */
module NoStream {
  import opened Wrappers
  import opened Json
  import opened Events
  import JsonEncode

  /** The one document a finished stream writes: `{type: 'done', events, data}`. */
  function DonePayload(events: seq<Event>, finalPayload: Json): Json
  {
    JObj([("type", JStr(Done)), ("events", JArr(ToJsonAll(events))), ("data", finalPayload)])
  }

  /** What a client reads from that document: the buffered events and the final
      payload; None for anything else. */
  function ReadDonePayload(j: Json): Option<(seq<Event>, Json)>
  {
    match (Member(j, "type"), Member(j, "events"), Member(j, "data"))
    case (Some(JStr(kind)), Some(JArr(items)), Some(data)) =>
      if kind != Done then None
      else (match FromJsonAll(items)
            case Some(events) => Some((events, data))
            case None => None)
    case _ => None
  }

  /** The response document carries the buffered events, in order, and the payload. */
  lemma DonePayloadRoundTrip(events: seq<Event>, finalPayload: Json)
    ensures ReadDonePayload(DonePayload(events, finalPayload)) == Some((events, finalPayload))
  {
    var fields := [("type", JStr(Done)), ("events", JArr(ToJsonAll(events))), ("data", finalPayload)];
    assert Lookup(fields, "type") == Lookup(fields[..1], "type") by {
      assert fields[..2][..1] == fields[..1];
    }
    assert Lookup(fields, "events") == Lookup(fields[..2], "events");
    EventListJsonRoundTrip(events);
  }

  class NoStreamEventStream {
    var buffer: seq<Event>
    var started: bool
    var finished: bool
    /** The response body written so far. */
    var output: string

    constructor ()
      ensures buffer == [] && !started && !finished && output == ""
    {
      buffer := [];
      started := false;
      finished := false;
      output := "";
    }

    /** Sets `started` once; the response headers are not modelled. */
    method Start()
      modifies this
      ensures started
      ensures buffer == old(buffer) && finished == old(finished) && output == old(output)
    {
      if started {
        return;
      }
      started := true;
    }

    /** Buffers one event; nothing is written, and nothing changes once finished. */
    method Push(kind: string, data: Json)
      modifies this
      ensures old(finished) ==> unchanged(this)
      ensures !old(finished) ==> started && buffer == old(buffer) + [Event(kind, data)]
      ensures finished == old(finished) && output == old(output)
    {
      if finished {
        return;
      }
      if !started {
        Start();
      }
      buffer := buffer + [Event(kind, data)];
    }

    /** Non-streaming output has no comments. */
    method SendComment(text: string)
      ensures unchanged(this)
    {
    }

    method IsDisconnected() returns (d: bool)
      ensures !d
    {
      d := false;
    }

    /** Writes the single response document, once: the buffer and the first payload. */
    method Finish(finalPayload: Json)
      modifies this
      ensures old(finished) ==> unchanged(this)
      ensures !old(finished) ==> started && output == old(output) + JsonEncode.Encode(DonePayload(buffer, finalPayload))
      ensures finished && buffer == old(buffer)
    {
      if finished {
        return;
      }
      finished := true;
      if !started {
        Start();
      }
      output := output + JsonEncode.Encode(DonePayload(buffer, finalPayload));
    }
  }

  /**
   * A whole non-streaming request: the pushes, two `finish` calls and a late push.
   * The body is exactly one document, holding every pushed event in order and
   * the first payload.
   */
  method ResponseBody(pushes: seq<(string, Json)>, finalPayload: Json, secondPayload: Json, late: (string, Json))
    returns (body: string)
    ensures body == JsonEncode.Encode(DonePayload(ToEvents(pushes), finalPayload))
  {
    var stream := new NoStreamEventStream();
    var i := 0;
    while i < |pushes|
      invariant 0 <= i <= |pushes|
      invariant !stream.finished && stream.output == ""
      invariant stream.buffer == ToEvents(pushes[..i])
    {
      assert pushes[..i + 1] == pushes[..i] + [pushes[i]];
      ToEventsAppend(pushes[..i], pushes[i]);
      stream.Push(pushes[i].0, pushes[i].1);
      i := i + 1;
    }
    assert pushes[..i] == pushes;
    stream.Finish(finalPayload);
    stream.Finish(secondPayload);
    stream.Push(late.0, late.1);
    body := stream.output;
  }
}
