/** The event record that flows from a producer to a consumer. */
module Events {
  import opened Wrappers
  import opened Json

  /** One event: its application-defined tag (`type` on the wire) and its data. */
  datatype Event = Event(kind: string, data: Json)

  /** The reserved tags: the terminal event, the long-poll timeout marker and the
      short-poll "nothing yet" sentinel. */
  const Done: string := "done"
  const Timeout: string := "timeout"
  const EmptyTag: string := "empty"

  /** The record the engines store and send: `{type, data}`. */
  function ToJson(e: Event): Json
  {
    JObj([("type", JStr(e.kind)), ("data", e.data)])
  }

  /** Reading such a record back: a `type` string and a `data` member are required. */
  function FromJson(j: Json): Option<Event>
  {
    match (Member(j, "type"), Member(j, "data"))
    case (Some(JStr(kind)), Some(data)) => Some(Event(kind, data))
    case _ => None
  }

  lemma EventJsonRoundTrip(e: Event)
    ensures FromJson(ToJson(e)) == Some(e)
  {
    var fields := [("type", JStr(e.kind)), ("data", e.data)];
    assert fields[..1] == [("type", JStr(e.kind))];
    assert Lookup(fields, "type") == Lookup(fields[..1], "type");
  }

  /** The events a producer creates from a sequence of `push(type, data)` calls. */
  function ToEvents(pushes: seq<(string, Json)>): (r: seq<Event>)
    ensures |r| == |pushes|
    ensures forall i :: 0 <= i < |pushes| ==> r[i] == Event(pushes[i].0, pushes[i].1)
  {
    if pushes == [] then [] else [Event(pushes[0].0, pushes[0].1)] + ToEvents(pushes[1..])
  }

  lemma ToEventsAppend(pushes: seq<(string, Json)>, p: (string, Json))
    ensures ToEvents(pushes + [p]) == ToEvents(pushes) + [Event(p.0, p.1)]
  {
  }

  /** A list of events as the JSON list of their records. */
  function ToJsonAll(events: seq<Event>): (r: seq<Json>)
    ensures |r| == |events|
    ensures forall i :: 0 <= i < |events| ==> r[i] == ToJson(events[i])
  {
    if events == [] then [] else [ToJson(events[0])] + ToJsonAll(events[1..])
  }

  /** Reading a JSON list of records back; None when any item is not a record. */
  function FromJsonAll(items: seq<Json>): (r: Option<seq<Event>>)
    ensures r.Some? ==> |r.value| == |items|
  {
    if items == [] then Some([])
    else
      match (FromJson(items[0]), FromJsonAll(items[1..]))
      case (Some(e), Some(rest)) => Some([e] + rest)
      case _ => None
  }

  lemma {:induction false} EventListJsonRoundTrip(events: seq<Event>)
    ensures FromJsonAll(ToJsonAll(events)) == Some(events)
  {
    if events != [] {
      var items := ToJsonAll(events);
      EventJsonRoundTrip(events[0]);
      EventListJsonRoundTrip(events[1..]);
      assert items[1..] == ToJsonAll(events[1..]);
      assert FromJson(items[0]) == Some(events[0]);
      assert FromJsonAll(items[1..]) == Some(events[1..]);
      assert [events[0]] + events[1..] == events;
    }
  }
}
