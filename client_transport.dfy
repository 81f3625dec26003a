/**
 * The browser side of the transports (the `EventTransportConfig`, the
 * `TransportResolver` and the message logic of the two polling loops).
 */
module ClientTransport {
  import opened Wrappers
  import opened Json
  import opened Text
  import opened UrlEncoding
  import opened Events

  /** The options object given to the config constructor; None is an absent key. */
  datatype Options = Options(mode: Option<string>, fallbackModes: Option<seq<string>>,
                             baseHttpUrl: Option<string>, endpoints: Option<map<string, string>>,
                             wsUrl: Option<string>, shortPollIntervalMs: Option<int>)

  const NoOptions: Options := Options(None, None, None, None, None, None)

  /** A constructed config; `wsUrl` None is JavaScript's null. */
  datatype ClientConfig = ClientConfig(mode: string, fallbackModes: seq<string>,
                                       baseHttpUrl: string, endpoints: map<string, string>,
                                       wsUrl: Option<string>, shortPollIntervalMs: int)

  const DefaultEndpoints: map<string, string> :=
    map["nostream" := "/nostream", "short" := "/short", "long" := "/long", "sse" := "/sse"]

  /** `option || fallback` for a string option: absent and "" both give the fallback. */
  function StringOr(option: Option<string>, fallback: string): (r: string)
    ensures option.Some? && JsTruthy(JStr(option.value)) ==> r == option.value
    ensures !(option.Some? && JsTruthy(JStr(option.value))) ==> r == fallback
  {
    if option.Some? && option.value != "" then option.value else fallback
  }

  /** The `EventTransportConfig` constructor: every falsy option takes its default. An
      array or object option is never falsy, so an empty fallback list is kept. */
  function MakeConfig(options: Options): (c: ClientConfig)
    ensures c.mode == StringOr(options.mode, "nostream")
    ensures c.fallbackModes == if options.fallbackModes.Some? then options.fallbackModes.value else ["short", "long", "nostream"]
    ensures c.baseHttpUrl == StringOr(options.baseHttpUrl, "/event")
    ensures c.endpoints == if options.endpoints.Some? then options.endpoints.value else DefaultEndpoints
    ensures c.wsUrl == if options.wsUrl.Some? && options.wsUrl.value != "" then options.wsUrl else None
    ensures c.shortPollIntervalMs == if options.shortPollIntervalMs.Some? && options.shortPollIntervalMs.value != 0
                                     then options.shortPollIntervalMs.value else 120
  {
    ClientConfig(
      StringOr(options.mode, "nostream"),
      if options.fallbackModes.Some? then options.fallbackModes.value else ["short", "long", "nostream"],
      StringOr(options.baseHttpUrl, "/event"),
      if options.endpoints.Some? then options.endpoints.value else DefaultEndpoints,
      if options.wsUrl.Some? && options.wsUrl.value != "" then options.wsUrl else None,
      if options.shortPollIntervalMs.Some? && options.shortPollIntervalMs.value != 0
      then options.shortPollIntervalMs.value else 120)
  }

  /** The defaults of an empty options object. */
  lemma ConfigDefaults()
    ensures MakeConfig(NoOptions) ==
            ClientConfig("nostream", ["short", "long", "nostream"], "/event", DefaultEndpoints, None, 120)
  {
  }

  /** The options that describe a config exactly. */
  function OptionsOf(c: ClientConfig): Options
  {
    Options(Some(c.mode), Some(c.fallbackModes), Some(c.baseHttpUrl), Some(c.endpoints), c.wsUrl,
            Some(c.shortPollIntervalMs))
  }

  /** Every truthy option is kept as given: a config whose values are all truthy is
      rebuilt unchanged from its own options. A falsy one (an interval of 0, say) is not. */
  lemma ConfigKeepsTruthyOptions(c: ClientConfig)
    requires c.mode != "" && c.baseHttpUrl != "" && c.shortPollIntervalMs != 0
    requires c.wsUrl.Some? ==> c.wsUrl.value != ""
    ensures MakeConfig(OptionsOf(c)) == c
    ensures MakeConfig(OptionsOf(c.(shortPollIntervalMs := 0))).shortPollIntervalMs == 120
  {
  }

  /** `endpoints[mode] || ""`. */
  function EndpointPath(c: ClientConfig, mode: string): string
  {
    if mode in c.endpoints then c.endpoints[mode] else ""
  }

  /** The `service=…&stream=…` query, serialised as `URLSearchParams` does. */
  function StreamQuery(serviceName: string, streamId: string): (q: string)
    ensures forall i :: 0 <= i < |q| ==> q[i] != '?' && q[i] != '#'
  {
    Serialize([("service", serviceName), ("stream", streamId)])
  }

  /** `buildHttpUrl(mode, serviceName, streamId)`. */
  function BuildHttpUrl(c: ClientConfig, mode: string, serviceName: string, streamId: string): string
  {
    c.baseHttpUrl + EndpointPath(c, mode) + "?" + StreamQuery(serviceName, streamId)
  }

  /** A URL of the form `path?query` whose path holds no '?' splits back into both
      parts, and the query decodes to exactly the service name and the stream id, in
      that order, as UTF-8. */
  lemma SplitsIntoStream(path: string, serviceName: string, streamId: string)
    requires forall i :: 0 <= i < |path| ==> path[i] != '?'
    ensures SplitFirst(path + "?" + StreamQuery(serviceName, streamId), '?') ==
            Some((path, StreamQuery(serviceName, streamId)))
    ensures DecodeQuery(StreamQuery(serviceName, streamId)).Some?
    ensures var pairs := DecodeQuery(StreamQuery(serviceName, streamId)).value;
            |pairs| == 2 && pairs[0] == (Utf8("service"), Utf8(serviceName)) &&
            pairs[1] == (Utf8("stream"), Utf8(streamId))
  {
    var q := StreamQuery(serviceName, streamId);
    SplitFirstJoin(path, '?', q);
    assert path + "?" + q == path + ['?'] + q;
    StreamQueryDecodes(serviceName, streamId);
  }

  lemma StreamQueryDecodes(serviceName: string, streamId: string)
    ensures DecodeQuery(StreamQuery(serviceName, streamId)).Some?
    ensures var pairs := DecodeQuery(StreamQuery(serviceName, streamId)).value;
            |pairs| == 2 && pairs[0] == (Utf8("service"), Utf8(serviceName)) &&
            pairs[1] == (Utf8("stream"), Utf8(streamId))
  {
    var pairs := [("service", serviceName), ("stream", streamId)];
    QueryRoundTrip(pairs);
    assert pairs[0] == ("service", serviceName) && pairs[1] == ("stream", streamId);
  }

  /** A server splitting the URL at its first '?' finds the mode's path, and in the
      query exactly the service name and the stream id — provided the base URL and the
      endpoint hold no '?' themselves. */
  lemma HttpUrlCarriesStream(c: ClientConfig, mode: string, serviceName: string, streamId: string)
    requires forall i :: 0 <= i < |c.baseHttpUrl + EndpointPath(c, mode)| ==> (c.baseHttpUrl + EndpointPath(c, mode))[i] != '?'
    ensures SplitFirst(BuildHttpUrl(c, mode, serviceName, streamId), '?') ==
            Some((c.baseHttpUrl + EndpointPath(c, mode), StreamQuery(serviceName, streamId)))
    ensures DecodeQuery(StreamQuery(serviceName, streamId)).Some?
    ensures var pairs := DecodeQuery(StreamQuery(serviceName, streamId)).value;
            |pairs| == 2 && pairs[0] == (Utf8("service"), Utf8(serviceName)) &&
            pairs[1] == (Utf8("stream"), Utf8(streamId))
  {
    SplitsIntoStream(c.baseHttpUrl + EndpointPath(c, mode), serviceName, streamId);
  }

  /** `buildWebSocketUrl`: null without a truthy WebSocket URL (null or ""), otherwise
      that URL and the query. */
  function BuildWebSocketUrl(c: ClientConfig, serviceName: string, streamId: string): (r: Option<string>)
    ensures r.None? <==> c.wsUrl.None? || c.wsUrl.value == ""
  {
    match c.wsUrl
    case Some(url) => if url == "" then None else Some(url + "?" + StreamQuery(serviceName, streamId))
    case None => None
  }

  lemma WebSocketUrlCarriesStream(c: ClientConfig, serviceName: string, streamId: string)
    requires c.wsUrl.Some? && c.wsUrl.value != ""
    requires forall i :: 0 <= i < |c.wsUrl.value| ==> c.wsUrl.value[i] != '?'
    ensures BuildWebSocketUrl(c, serviceName, streamId).Some?
    ensures SplitFirst(BuildWebSocketUrl(c, serviceName, streamId).value, '?') ==
            Some((c.wsUrl.value, StreamQuery(serviceName, streamId)))
  {
    SplitsIntoStream(c.wsUrl.value, serviceName, streamId);
  }

  /** The client transports. */
  datatype Transport =
    | NoStreamTransport
    | ShortPollingTransport
    | LongPollingTransport
    | SseTransport
    | WebSocketTransport

  /** Whether the page's global scope defines `EventSource` and `WebSocket`. */
  datatype Browser = Browser(hasEventSource: bool, hasWebSocket: bool)

  /** `createTransportByMode`. */
  function TransportByMode(mode: string, browser: Browser): (r: Option<Transport>)
    ensures r.Some? <==>
              mode == "nostream" || mode == "short" || mode == "long" ||
              (mode == "sse" && browser.hasEventSource) || (mode == "ws" && browser.hasWebSocket)
  {
    if mode == "nostream" then Some(NoStreamTransport)
    else if mode == "short" then Some(ShortPollingTransport)
    else if mode == "long" then Some(LongPollingTransport)
    else if mode == "sse" then (if browser.hasEventSource then Some(SseTransport) else None)
    else if mode == "ws" then (if browser.hasWebSocket then Some(WebSocketTransport) else None)
    else None
  }

  /** The reference answer: the first mode of the list the browser supports. */
  function FirstTransport(modes: seq<string>, browser: Browser): (r: Option<Transport>)
    ensures r.None? <==> forall i :: 0 <= i < |modes| ==> TransportByMode(modes[i], browser).None?
    ensures r.Some? ==>
              exists k :: 0 <= k < |modes| && TransportByMode(modes[k], browser) == r &&
                forall j :: 0 <= j < k ==> TransportByMode(modes[j], browser).None?
  {
    if modes == [] then None
    else if TransportByMode(modes[0], browser).Some? then
      assert TransportByMode(modes[0], browser) == TransportByMode(modes[0], browser);
      TransportByMode(modes[0], browser)
    else
      var rest := FirstTransport(modes[1..], browser);
      assert forall i :: 1 <= i < |modes| ==> modes[i] == modes[1..][i - 1];
      if rest.Some? then
        var k :| 0 <= k < |modes[1..]| && TransportByMode(modes[1..][k], browser) == rest &&
                 forall j :: 0 <= j < k ==> TransportByMode(modes[1..][j], browser).None?;
        assert TransportByMode(modes[k + 1], browser) == rest;
        rest
      else rest
  }

  /** The modes `createChannel` considers: the configured mode, then every fallback. */
  function Candidates(c: ClientConfig): seq<string>
  {
    [c.mode] + c.fallbackModes
  }

  /**
   * `TransportResolver.createChannel`: walks the candidates, skipping empty modes and
   * modes already tried, and returns the first transport the browser supports, or the
   * non-streaming transport. `probed` lists the modes handed to `createTransportByMode`:
   * never an empty one, never one twice. Skipping repeats does not change the answer,
   * which is the first supported candidate.
   */
  method CreateChannel(c: ClientConfig, browser: Browser) returns (t: Transport, probed: seq<string>)
    ensures t == match FirstTransport(Candidates(c), browser)
                 case Some(x) => x
                 case None => NoStreamTransport
    ensures forall i, j :: 0 <= i < j < |probed| ==> probed[i] != probed[j]
    ensures forall i :: 0 <= i < |probed| ==> probed[i] != "" && probed[i] in Candidates(c)
  {
    var modes := Candidates(c);
    var tried: set<string> := {};
    probed := [];
    var i := 0;
    while i < |modes|
      invariant 0 <= i <= |modes|
      invariant forall k :: 0 <= k < i ==> TransportByMode(modes[k], browser).None?
      invariant forall m :: m in tried ==> TransportByMode(m, browser).None?
      invariant forall k :: 0 <= k < |probed| ==> probed[k] in tried
      invariant forall k, l :: 0 <= k < l < |probed| ==> probed[k] != probed[l]
      invariant forall m :: m in tried <==> m in probed
      invariant forall k :: 0 <= k < |probed| ==> probed[k] != "" && probed[k] in modes
    {
      var mode := modes[i];
      if mode == "" || mode in tried {
        i := i + 1;
        continue;
      }
      tried := tried + {mode};
      probed := probed + [mode];
      var candidate := TransportByMode(mode, browser);
      if candidate.Some? {
        FirstTransportAt(modes, browser, i);
        return candidate.value, probed;
      }
      i := i + 1;
    }
    return NoStreamTransport, probed;
  }

  /** When every mode before `i` is unsupported and mode `i` is supported, it is the first. */
  lemma FirstTransportAt(modes: seq<string>, browser: Browser, i: nat)
    requires i < |modes| && TransportByMode(modes[i], browser).Some?
    requires forall k :: 0 <= k < i ==> TransportByMode(modes[k], browser).None?
    ensures FirstTransport(modes, browser) == TransportByMode(modes[i], browser)
  {
    var r := FirstTransport(modes, browser);
    var k :| 0 <= k < |modes| && TransportByMode(modes[k], browser) == r &&
             forall j :: 0 <= j < k ==> TransportByMode(modes[j], browser).None?;
    assert k == i;
  }


  /** One answer to a poll request, as the loop sees it. */
  datatype PollResponse =
    | HttpError(status: int)    // a response whose status is not OK
    | Failed(error: string)     // the request or the JSON decoding threw
    | Body(json: Json)          // a decoded JSON body

  /** What a loop hands to the page: a message, or an error for the error handler. */
  datatype Emission = Message(json: Json) | Error(message: string)

  /** `json.type === kind`. */
  predicate TypeIs(json: Json, kind: string)
  {
    Member(json, "type") == Some(JStr(kind))
  }

  /** The short-poll filter: `json && json.type && json.type !== "empty"`. */
  predicate ShortPollEmits(json: Json)
  {
    JsTruthy(json) && Member(json, "type").Some? && JsTruthy(Member(json, "type").value) &&
    !TypeIs(json, EmptyTag)
  }

  /** The long-poll filter: everything but a falsy body and a `timeout` marker. */
  predicate LongPollEmits(json: Json)
  {
    JsTruthy(json) && !TypeIs(json, Timeout)
  }

  /** Whether the short-poll loop stops on this answer: an error, or an emitted `done`. */
  predicate ShortPollEnds(r: PollResponse)
  {
    !r.Body? || (ShortPollEmits(r.json) && TypeIs(r.json, Done))
  }

  predicate LongPollEnds(r: PollResponse)
  {
    !r.Body? || (LongPollEmits(r.json) && TypeIs(r.json, Done))
  }

  /** The reference for `loopPoll`: what it emits, in order, when its successive
      requests get these answers. */
  function ShortPollEmissions(responses: seq<PollResponse>): seq<Emission>
  {
    if responses == [] then []
    else
      match responses[0]
      case HttpError(status) => [Error("ShortPolling HTTP error " + IntToString(status))]
      case Failed(error) => [Error(error)]
      case Body(json) =>
        if !ShortPollEmits(json) then ShortPollEmissions(responses[1..])
        else if TypeIs(json, Done) then [Message(json)]
        else [Message(json)] + ShortPollEmissions(responses[1..])
  }

  /** The reference for `loopLongPoll`. */
  function LongPollEmissions(responses: seq<PollResponse>): seq<Emission>
  {
    if responses == [] then []
    else
      match responses[0]
      case HttpError(status) => [Error("LongPolling HTTP error " + IntToString(status))]
      case Failed(error) => [Error(error)]
      case Body(json) =>
        if !LongPollEmits(json) then LongPollEmissions(responses[1..])
        else if TypeIs(json, Done) then [Message(json)]
        else [Message(json)] + LongPollEmissions(responses[1..])
  }

  /** Whether a loop given these answers stops within them. */
  predicate ShortPollStops(responses: seq<PollResponse>)
  {
    exists i :: 0 <= i < |responses| && ShortPollEnds(responses[i])
  }

  predicate LongPollStops(responses: seq<PollResponse>)
  {
    exists i :: 0 <= i < |responses| && LongPollEnds(responses[i])
  }

  lemma ShortPollStopsCons(responses: seq<PollResponse>)
    requires responses != []
    ensures ShortPollStops(responses) <==> ShortPollEnds(responses[0]) || ShortPollStops(responses[1..])
  {
    if ShortPollStops(responses) && !ShortPollEnds(responses[0]) {
      var i :| 0 <= i < |responses| && ShortPollEnds(responses[i]);
      assert responses[1..][i - 1] == responses[i];
    }
    if ShortPollStops(responses[1..]) {
      var i :| 0 <= i < |responses[1..]| && ShortPollEnds(responses[1..][i]);
      assert responses[i + 1] == responses[1..][i];
    }
  }

  lemma LongPollStopsCons(responses: seq<PollResponse>)
    requires responses != []
    ensures LongPollStops(responses) <==> LongPollEnds(responses[0]) || LongPollStops(responses[1..])
  {
    if LongPollStops(responses) && !LongPollEnds(responses[0]) {
      var i :| 0 <= i < |responses| && LongPollEnds(responses[i]);
      assert responses[1..][i - 1] == responses[i];
    }
    if LongPollStops(responses[1..]) {
      var i :| 0 <= i < |responses[1..]| && LongPollEnds(responses[1..][i]);
      assert responses[i + 1] == responses[1..][i];
    }
  }

  /** A polling transport on the page: whether its loop runs, and what it has handed
      to the page so far. */
  class PollingClient {
    var running: bool
    var emitted: seq<Emission>

    constructor ()
      ensures !running && emitted == []
    {
      running := false;
      emitted := [];
    }

    /** `loopPoll`, fed the answers to its successive requests; it polls while it runs
        and answers remain. The sleep between polls is not modelled. */
    method LoopPoll(responses: seq<PollResponse>)
      requires running
      modifies this
      ensures emitted == old(emitted) + ShortPollEmissions(responses)
      ensures running <==> !ShortPollStops(responses)
    {
      var i := 0;
      while running && i < |responses|
        invariant 0 <= i <= |responses|
        invariant running ==> old(emitted) + ShortPollEmissions(responses) == emitted + ShortPollEmissions(responses[i..])
        invariant running ==> (ShortPollStops(responses) <==> ShortPollStops(responses[i..]))
        invariant !running ==> emitted == old(emitted) + ShortPollEmissions(responses) && ShortPollStops(responses)
        decreases |responses| - i
      {
        var rest := responses[i..];
        assert rest[0] == responses[i] && rest[1..] == responses[i + 1..];
        ShortPollStopsCons(rest);
        match responses[i] {
          case HttpError(status) =>
            emitted := emitted + [Error("ShortPolling HTTP error " + IntToString(status))];
            running := false;
          case Failed(error) =>
            emitted := emitted + [Error(error)];
            running := false;
          case Body(json) =>
            if ShortPollEmits(json) {
              emitted := emitted + [Message(json)];
              if TypeIs(json, Done) {
                running := false;
              }
            }
        }
        i := i + 1;
      }
      if running {
        assert responses[i..] == [];
      }
    }

    /** `loopLongPoll`, fed the answers to its successive requests. */
    method LoopLongPoll(responses: seq<PollResponse>)
      requires running
      modifies this
      ensures emitted == old(emitted) + LongPollEmissions(responses)
      ensures running <==> !LongPollStops(responses)
    {
      var i := 0;
      while running && i < |responses|
        invariant 0 <= i <= |responses|
        invariant running ==> old(emitted) + LongPollEmissions(responses) == emitted + LongPollEmissions(responses[i..])
        invariant running ==> (LongPollStops(responses) <==> LongPollStops(responses[i..]))
        invariant !running ==> emitted == old(emitted) + LongPollEmissions(responses) && LongPollStops(responses)
        decreases |responses| - i
      {
        var rest := responses[i..];
        assert rest[0] == responses[i] && rest[1..] == responses[i + 1..];
        LongPollStopsCons(rest);
        match responses[i] {
          case HttpError(status) =>
            emitted := emitted + [Error("LongPolling HTTP error " + IntToString(status))];
            running := false;
          case Failed(error) =>
            emitted := emitted + [Error(error)];
            running := false;
          case Body(json) =>
            if LongPollEmits(json) {
              emitted := emitted + [Message(json)];
              if TypeIs(json, Done) {
                running := false;
              }
            }
        }
        i := i + 1;
      }
      if running {
        assert responses[i..] == [];
      }
    }
  }

  /** What the short-poll loop hands to the page: only messages with a truthy type other
      than "empty", and nothing after a `done` message or an error. */
  lemma {:induction false} ShortPollEmissionsShape(responses: seq<PollResponse>)
    ensures forall k :: 0 <= k < |ShortPollEmissions(responses)| && ShortPollEmissions(responses)[k].Message? ==>
              ShortPollEmits(ShortPollEmissions(responses)[k].json)
    ensures forall k :: 0 <= k < |ShortPollEmissions(responses)| - 1 ==>
              ShortPollEmissions(responses)[k].Message? && !TypeIs(ShortPollEmissions(responses)[k].json, Done)
    ensures |ShortPollEmissions(responses)| <= |responses|
  {
    if responses != [] {
      ShortPollEmissionsShape(responses[1..]);
    }
  }

  /** What the long-poll loop hands to the page: no falsy body, no `timeout` marker, and
      nothing after a `done` message or an error. */
  lemma {:induction false} LongPollEmissionsShape(responses: seq<PollResponse>)
    ensures forall k :: 0 <= k < |LongPollEmissions(responses)| && LongPollEmissions(responses)[k].Message? ==>
              LongPollEmits(LongPollEmissions(responses)[k].json)
    ensures forall k :: 0 <= k < |LongPollEmissions(responses)| - 1 ==>
              LongPollEmissions(responses)[k].Message? && !TypeIs(LongPollEmissions(responses)[k].json, Done)
    ensures |LongPollEmissions(responses)| <= |responses|
  {
    if responses != [] {
      LongPollEmissionsShape(responses[1..]);
    }
  }

  /** The server's short-poll answers: a popped event's record, or the "empty" sentinel. */
  function ShortPollAnswers(polls: seq<Option<Event>>): (r: seq<PollResponse>)
    ensures |r| == |polls|
    ensures forall i :: 0 <= i < |polls| && polls[i].Some? ==> r[i] == Body(ToJson(polls[i].value))
    ensures forall i :: 0 <= i < |polls| && polls[i].None? ==> r[i] == Body(JObj([("type", JStr(EmptyTag))]))
  {
    if polls == [] then []
    else
      [Body(match polls[0] case Some(e) => ToJson(e) case None => JObj([("type", JStr(EmptyTag))]))] +
      ShortPollAnswers(polls[1..])
  }

  /** The server's long-poll answers: a popped event's record, or the timeout marker. */
  function LongPollAnswers(polls: seq<Option<Event>>): (r: seq<PollResponse>)
    ensures |r| == |polls|
    ensures forall i :: 0 <= i < |polls| && polls[i].Some? ==> r[i] == Body(ToJson(polls[i].value))
    ensures forall i :: 0 <= i < |polls| && polls[i].None? ==> r[i] == Body(JObj([("type", JStr(Timeout))]))
  {
    if polls == [] then []
    else
      [Body(match polls[0] case Some(e) => ToJson(e) case None => JObj([("type", JStr(Timeout))]))] +
      LongPollAnswers(polls[1..])
  }

  /** The events among the server's answers, in order. */
  function Popped(polls: seq<Option<Event>>): (r: seq<Event>)
    ensures |r| <= |polls|
    ensures forall e :: e in r <==> Some(e) in polls
    ensures (forall i :: 0 <= i < |polls| ==> polls[i].Some?) ==>
              |r| == |polls| && forall i :: 0 <= i < |polls| ==> r[i] == polls[i].value
  {
    if polls == [] then []
    else (match polls[0] case Some(e) => [e] case None => []) + Popped(polls[1..])
  }

  /** One more poll adds its event, if any, after all the earlier ones. */
  lemma {:induction false} PoppedAppend(polls: seq<Option<Event>>, poll: Option<Event>)
    ensures Popped(polls + [poll]) == Popped(polls) + match poll case Some(e) => [e] case None => []
  {
    if polls == [] {
      assert [poll][1..] == [];
    } else {
      assert (polls + [poll])[1..] == polls[1..] + [poll];
      PoppedAppend(polls[1..], poll);
    }
  }

  function Messages(events: seq<Event>): (r: seq<Emission>)
    ensures |r| == |events|
    ensures forall i :: 0 <= i < |events| ==> r[i] == Message(ToJson(events[i]))
  {
    if events == [] then [] else [Message(ToJson(events[0]))] + Messages(events[1..])
  }

  lemma RecordType(e: Event)
    ensures Member(ToJson(e), "type") == Some(JStr(e.kind))
  {
    var fields := [("type", JStr(e.kind)), ("data", e.data)];
    assert fields[..1] == [("type", JStr(e.kind))];
    assert Lookup(fields, "type") == Lookup(fields[..1], "type");
  }

  /** How both filters treat an event's record and the servers' two markers. */
  lemma FiltersOnRecords(e: Event)
    ensures ShortPollEmits(ToJson(e)) <==> e.kind != "" && e.kind != EmptyTag
    ensures LongPollEmits(ToJson(e)) <==> e.kind != Timeout
    ensures TypeIs(ToJson(e), Done) <==> e.kind == Done
    ensures !ShortPollEmits(JObj([("type", JStr(EmptyTag))]))
    ensures !LongPollEmits(JObj([("type", JStr(Timeout))]))
  {
    RecordType(e);
  }

  /** Delivery through short polling: whatever the "empty" answers in between, the page
      receives every popped event's record once and in order, provided no tag is empty or
      "empty" and only the last one is `done`. */
  lemma {:induction false} ShortPollDeliversEvents(polls: seq<Option<Event>>)
    requires forall e :: e in Popped(polls) ==> e.kind != "" && e.kind != EmptyTag
    requires forall i :: 0 <= i < |Popped(polls)| - 1 ==> Popped(polls)[i].kind != Done
    ensures ShortPollEmissions(ShortPollAnswers(polls)) == Messages(Popped(polls))
  {
    if polls != [] {
      var rest := Popped(polls[1..]);
      var head := match polls[0] case Some(e) => ToJson(e) case None => JObj([("type", JStr(EmptyTag))]);
      assert ShortPollAnswers(polls) == [Body(head)] + ShortPollAnswers(polls[1..]);
      ShortPollEmissionsCons(head, ShortPollAnswers(polls[1..]));
      if polls[0].None? {
        FiltersOnRecords(Event("", JNull));
        assert Popped(polls) == rest;
        ShortPollDeliversEvents(polls[1..]);
      } else {
        var e := polls[0].value;
        FiltersOnRecords(e);
        assert Popped(polls) == [e] + rest;
        assert e in Popped(polls);
        if e.kind == Done {
          assert rest == [];
        } else {
          assert forall i :: 0 <= i < |rest| ==> rest[i] == Popped(polls)[i + 1];
          ShortPollDeliversEvents(polls[1..]);
          assert Messages(Popped(polls)) == [Message(ToJson(e))] + Messages(rest);
        }
      }
    }
  }

  /** One step of the reference loop on a decoded body. */
  lemma ShortPollEmissionsCons(json: Json, rest: seq<PollResponse>)
    ensures ShortPollEmissions([Body(json)] + rest) ==
            if !ShortPollEmits(json) then ShortPollEmissions(rest)
            else if TypeIs(json, Done) then [Message(json)]
            else [Message(json)] + ShortPollEmissions(rest)
  {
    assert ([Body(json)] + rest)[1..] == rest;
  }

  /** Delivery through long polling: the same, but only a "timeout" tag is excluded. */
  lemma {:induction false} LongPollDeliversEvents(polls: seq<Option<Event>>)
    requires forall e :: e in Popped(polls) ==> e.kind != Timeout
    requires forall i :: 0 <= i < |Popped(polls)| - 1 ==> Popped(polls)[i].kind != Done
    ensures LongPollEmissions(LongPollAnswers(polls)) == Messages(Popped(polls))
  {
    if polls != [] {
      var rest := Popped(polls[1..]);
      var head := match polls[0] case Some(e) => ToJson(e) case None => JObj([("type", JStr(Timeout))]);
      assert LongPollAnswers(polls) == [Body(head)] + LongPollAnswers(polls[1..]);
      LongPollEmissionsCons(head, LongPollAnswers(polls[1..]));
      if polls[0].None? {
        FiltersOnRecords(Event("", JNull));
        assert Popped(polls) == rest;
        LongPollDeliversEvents(polls[1..]);
      } else {
        var e := polls[0].value;
        FiltersOnRecords(e);
        assert Popped(polls) == [e] + rest;
        assert e in Popped(polls);
        if e.kind == Done {
          assert rest == [];
        } else {
          assert forall i :: 0 <= i < |rest| ==> rest[i] == Popped(polls)[i + 1];
          LongPollDeliversEvents(polls[1..]);
          assert Messages(Popped(polls)) == [Message(ToJson(e))] + Messages(rest);
        }
      }
    }
  }

  /** One step of the reference loop on a decoded body. */
  lemma LongPollEmissionsCons(json: Json, rest: seq<PollResponse>)
    ensures LongPollEmissions([Body(json)] + rest) ==
            if !LongPollEmits(json) then LongPollEmissions(rest)
            else if TypeIs(json, Done) then [Message(json)]
            else [Message(json)] + LongPollEmissions(rest)
  {
    assert ([Body(json)] + rest)[1..] == rest;
  }

  /** The two loops filter differently: an event with an empty tag, or with the tag
      "empty", reaches the page through long polling but is dropped by short polling. */
  lemma ShortAndLongFilterDiffer(data: Json)
    ensures ShortPollEmissions(ShortPollAnswers([Some(Event("", data))])) == []
    ensures LongPollEmissions(LongPollAnswers([Some(Event("", data))])) == [Message(ToJson(Event("", data)))]
    ensures ShortPollEmissions(ShortPollAnswers([Some(Event(EmptyTag, data))])) == []
    ensures LongPollEmissions(LongPollAnswers([Some(Event(EmptyTag, data))])) == [Message(ToJson(Event(EmptyTag, data)))]
  {
    RecordType(Event("", data));
    RecordType(Event(EmptyTag, data));
  }
}
