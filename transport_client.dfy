/**
 * The page-level client (`EventTransportClient`): it picks a transport from its
 * options, opens an EventSource or a WebSocket, or goes through the POST-SSE proxy,
 * and routes `request` calls to the open transport. Browser objects are represented
 * by what the client hands them: the URL an EventSource is opened with, the URL of a
 * WebSocket, the messages sent and the callbacks made.
 */
module TransportClient {
  import opened Wrappers
  import opened Json
  import opened Text
  import opened UrlEncoding
  import PostSse

  /** The client's options after the defaults are merged in; `endpoint` None is null. */
  datatype ClientOptions = ClientOptions(endpoint: Option<string>, transport: string,
                                         events: seq<string>, payload: Json)

  /** The options the page passes; None is a key it leaves out. */
  datatype GivenOptions = GivenOptions(endpoint: Option<Option<string>>, transport: Option<string>,
                                       events: Option<seq<string>>, payload: Option<Json>)

  /** `obj[key] = value` on an object held as its member list: the member `key` gets the
      new value in place, or is appended when the object has none. */
  function Put(obj: seq<(string, Json)>, key: string, value: Json): seq<(string, Json)>
  {
    if obj == [] then [(key, value)]
    else if obj[|obj| - 1].0 == key then obj[..|obj| - 1] + [(key, value)]
    else Put(obj[..|obj| - 1], key, value) + [obj[|obj| - 1]]
  }

  /** After `obj[key] = value`, `key` reads `value` and every other member reads as before. */
  lemma {:induction false} PutLookup(obj: seq<(string, Json)>, key: string, value: Json, k: string)
    ensures Lookup(Put(obj, key, value), k) == if k == key then Some(value) else Lookup(obj, k)
  {
    if obj != [] {
      var init := obj[..|obj| - 1];
      var last := obj[|obj| - 1];
      if last.0 == key {
        assert (init + [(key, value)])[..|init|] == init;
        assert k != key ==> Lookup(obj, k) == Lookup(init, k);
      } else {
        PutLookup(init, key, value, k);
        assert (Put(init, key, value) + [last])[..|Put(init, key, value)|] == Put(init, key, value);
      }
    }
  }

  /** `Object.assign(target, source)`: the source's members are written onto the target
      one by one, in order. */
  function Assign(target: seq<(string, Json)>, source: seq<(string, Json)>): seq<(string, Json)>
  {
    if source == [] then target
    else
      var last := source[|source| - 1];
      Put(Assign(target, source[..|source| - 1]), last.0, last.1)
  }

  /** A key the source has reads the source's value; any other keeps the target's. */
  lemma {:induction false} AssignLookup(target: seq<(string, Json)>, source: seq<(string, Json)>, k: string)
    ensures Lookup(Assign(target, source), k) ==
            if Lookup(source, k).Some? then Lookup(source, k) else Lookup(target, k)
  {
    if source != [] {
      var init := source[..|source| - 1];
      var last := source[|source| - 1];
      PutLookup(Assign(target, init), last.0, last.1, k);
      AssignLookup(target, init, k);
    }
  }

  /** `obj[key] = value` when the page passed `value`. */
  function PutGiven(obj: seq<(string, Json)>, key: string, value: Option<Json>): seq<(string, Json)>
  {
    match value
    case Some(v) => Put(obj, key, v)
    case None => obj
  }

  /** A list of names as a JSON list of strings. */
  function StringItems(names: seq<string>): seq<Json>
  {
    if names == [] then [] else [JStr(names[0])] + StringItems(names[1..])
  }

  /** The string items of a list, read back. */
  function ItemStrings(items: seq<Json>): seq<string>
  {
    if items == [] then []
    else (match items[0] case JStr(t) => [t] case _ => []) + ItemStrings(items[1..])
  }

  lemma {:induction false} StringItemsRoundTrip(names: seq<string>)
    ensures ItemStrings(StringItems(names)) == names
  {
    if names != [] {
      var items := StringItems(names);
      assert items == [JStr(names[0])] + StringItems(names[1..]);
      assert items[0] == JStr(names[0]) && items[1..] == StringItems(names[1..]);
      assert ItemStrings(items) == [names[0]] + ItemStrings(items[1..]);
      StringItemsRoundTrip(names[1..]);
      assert [names[0]] + names[1..] == names;
    }
  }

  /** The defaults object of the constructor. */
  function DefaultObject(): seq<(string, Json)>
  {
    Put(Put(Put(Put([], "endpoint", JNull), "transport", JStr("auto")), "events", JArr([])), "payload", JNull)
  }

  /** The options object the page passes, with the keys it sets. */
  function GivenObject(given: GivenOptions): seq<(string, Json)>
  {
    var endpoint := match given.endpoint
                    case Some(e) => Some(match e case Some(url) => JStr(url) case None => JNull)
                    case None => None;
    var transport := match given.transport case Some(t) => Some(JStr(t)) case None => None;
    var events := match given.events case Some(es) => Some(JArr(StringItems(es))) case None => None;
    PutGiven(PutGiven(PutGiven(PutGiven([], "endpoint", endpoint), "transport", transport), "events", events),
             "payload", given.payload)
  }

  /** Reads the four options back off the merged object. */
  function OptionsOf(obj: seq<(string, Json)>): ClientOptions
  {
    ClientOptions(
      match Lookup(obj, "endpoint") case Some(JStr(url)) => Some(url) case _ => None,
      match Lookup(obj, "transport") case Some(JStr(t)) => t case _ => "",
      match Lookup(obj, "events") case Some(JArr(items)) => ItemStrings(items) case _ => [],
      match Lookup(obj, "payload") case Some(p) => p case None => JNull)
  }

  /** `Object.assign({endpoint: null, transport: "auto", events: [], payload: null}, options)`:
      every option the page passes overrides its default and every missing one takes it. */
  function MergeOptions(given: GivenOptions): (o: ClientOptions)
    ensures o.endpoint == (if given.endpoint.Some? then given.endpoint.value else None)
    ensures o.transport == (if given.transport.Some? then given.transport.value else "auto")
    ensures o.events == (if given.events.Some? then given.events.value else [])
    ensures o.payload == (if given.payload.Some? then given.payload.value else JNull)
  {
    MergedEndpoint(given);
    MergedTransport(given);
    MergedEvents(given);
    MergedPayload(given);
    OptionsOf(Assign(DefaultObject(), GivenObject(given)))
  }

  lemma MergedEndpoint(given: GivenOptions)
    ensures OptionsOf(Assign(DefaultObject(), GivenObject(given))).endpoint ==
            if given.endpoint.Some? then given.endpoint.value else None
  {
    AssignLookup(DefaultObject(), GivenObject(given), "endpoint");
    DefaultMembers("endpoint");
    GivenMembers(given, "endpoint");
  }

  lemma MergedTransport(given: GivenOptions)
    ensures OptionsOf(Assign(DefaultObject(), GivenObject(given))).transport ==
            if given.transport.Some? then given.transport.value else "auto"
  {
    AssignLookup(DefaultObject(), GivenObject(given), "transport");
    DefaultMembers("transport");
    GivenMembers(given, "transport");
  }

  lemma MergedEvents(given: GivenOptions)
    ensures OptionsOf(Assign(DefaultObject(), GivenObject(given))).events ==
            if given.events.Some? then given.events.value else []
  {
    AssignLookup(DefaultObject(), GivenObject(given), "events");
    DefaultMembers("events");
    GivenMembers(given, "events");
    if given.events.Some? {
      StringItemsRoundTrip(given.events.value);
    }
  }

  lemma MergedPayload(given: GivenOptions)
    ensures OptionsOf(Assign(DefaultObject(), GivenObject(given))).payload ==
            if given.payload.Some? then given.payload.value else JNull
  {
    AssignLookup(DefaultObject(), GivenObject(given), "payload");
    DefaultMembers("payload");
    GivenMembers(given, "payload");
  }

  lemma DefaultMembers(k: string)
    ensures Lookup(DefaultObject(), k) ==
            if k == "payload" || k == "endpoint" then Some(JNull)
            else if k == "events" then Some(JArr([]))
            else if k == "transport" then Some(JStr("auto"))
            else None
  {
    var d1 := Put([], "endpoint", JNull);
    var d2 := Put(d1, "transport", JStr("auto"));
    var d3 := Put(d2, "events", JArr([]));
    PutLookup([], "endpoint", JNull, k);
    PutLookup(d1, "transport", JStr("auto"), k);
    PutLookup(d2, "events", JArr([]), k);
    PutLookup(d3, "payload", JNull, k);
  }

  lemma PutGivenLookup(obj: seq<(string, Json)>, key: string, value: Option<Json>, k: string)
    ensures Lookup(PutGiven(obj, key, value), k) == if k == key && value.Some? then value else Lookup(obj, k)
  {
    if value.Some? {
      PutLookup(obj, key, value.value, k);
    }
  }

  lemma GivenMembers(given: GivenOptions, k: string)
    ensures k == "endpoint" ==>
              Lookup(GivenObject(given), k) == match given.endpoint
                                               case Some(Some(url)) => Some(JStr(url))
                                               case Some(None) => Some(JNull)
                                               case None => None
    ensures k == "transport" ==>
              Lookup(GivenObject(given), k) == match given.transport case Some(t) => Some(JStr(t)) case None => None
    ensures k == "events" ==>
              Lookup(GivenObject(given), k) == match given.events case Some(es) => Some(JArr(StringItems(es))) case None => None
    ensures k == "payload" ==> Lookup(GivenObject(given), k) == given.payload
  {
    var endpoint := match given.endpoint
                    case Some(e) => Some(match e case Some(url) => JStr(url) case None => JNull)
                    case None => None;
    var transport := match given.transport case Some(t) => Some(JStr(t)) case None => None;
    var events := match given.events case Some(es) => Some(JArr(StringItems(es))) case None => None;
    var g1 := PutGiven([], "endpoint", endpoint);
    var g2 := PutGiven(g1, "transport", transport);
    var g3 := PutGiven(g2, "events", events);
    PutGivenLookup([], "endpoint", endpoint, k);
    PutGivenLookup(g1, "transport", transport, k);
    PutGivenLookup(g2, "events", events, k);
    PutGivenLookup(g3, "payload", given.payload, k);
  }

  lemma DefaultOptions()
    ensures MergeOptions(GivenOptions(None, None, None, None)) == ClientOptions(None, "auto", [], JNull)
  {
  }

  /** `payload.prompt` when the payload is truthy and the prompt is a string. */
  function Prompt(payload: Json): Option<string>
  {
    if JsTruthy(payload) then
      match Member(payload, "prompt")
      case Some(JStr(p)) => Some(p)
      case _ => None
    else None
  }

  predicate HasQuestionMark(s: string)
  {
    exists i :: 0 <= i < |s| && s[i] == '?'
  }

  /** The URL `_connectSSE` opens: the endpoint, with `prompt=` and the encoded prompt
      added after '?' or, when the endpoint already has a query, after '&'. A null
      endpoint reads as "null"; with a prompt it makes the `includes` call throw
      (None). */
  function SseUrl(options: ClientOptions): (r: Option<string>)
    ensures Prompt(options.payload).None? ==>
              r == Some(match options.endpoint case Some(e) => e case None => "null")
    ensures r.None? <==> options.endpoint.None? && Prompt(options.payload).Some?
  {
    match Prompt(options.payload)
    case None => Some(match options.endpoint case Some(e) => e case None => "null")
    case Some(p) =>
      match options.endpoint
      case None => None
      case Some(url) => Some(url + (if HasQuestionMark(url) then "&" else "?") + "prompt=" + Encode(UriComponent, p))
  }

  /** With a prompt, a query-less endpoint gets one `prompt` parameter that decodes back
      to the prompt's UTF-8 bytes; an endpoint with a query keeps it and gains the
      parameter at its end. */
  lemma SseUrlCarriesPrompt(options: ClientOptions)
    requires options.endpoint.Some? && Prompt(options.payload).Some?
    ensures var url := options.endpoint.value;
            var encoded := Encode(UriComponent, Prompt(options.payload).value);
            (!HasQuestionMark(url) ==> SplitFirst(SseUrl(options).value, '?') == Some((url, "prompt=" + encoded))) &&
            (HasQuestionMark(url) ==> SseUrl(options).value == url + "&" + "prompt=" + encoded)
    ensures DecodeBytes(UriComponent, Encode(UriComponent, Prompt(options.payload).value)) ==
            Some(Utf8(Prompt(options.payload).value))
  {
    var url := options.endpoint.value;
    var encoded := Encode(UriComponent, Prompt(options.payload).value);
    if !HasQuestionMark(url) {
      SplitFirstJoin(url, '?', "prompt=" + encoded);
      assert SseUrl(options).value == url + ['?'] + ("prompt=" + encoded);
    }
    DecodeEncode(UriComponent, Prompt(options.payload).value);
  }

  /** The body `_connectPostSSE` posts to the proxy: `{endpoint, payload: payload || {}}`. */
  function ProxyRequestBody(options: ClientOptions): Json
  {
    JObj([("endpoint", match options.endpoint case Some(e) => JStr(e) case None => JNull),
          ("payload", if JsTruthy(options.payload) then options.payload else JObj([]))])
  }

  /** What the client learns from the proxy call. */
  datatype ProxyAnswer =
    | FetchFailed(error: string)   // the request itself threw
    | NotJson(error: string)       // the answer was not JSON
    | Answer(info: Json)           // the decoded answer

  /** The proxy answer's check: `info && info.ok && info.stream`; the stream to open. */
  function AcceptedStream(info: Json): (r: Option<Json>)
    ensures r.Some? <==> JsTruthy(info) && Member(info, "ok").Some? && JsTruthy(Member(info, "ok").value) &&
                         Member(info, "stream").Some? && JsTruthy(Member(info, "stream").value)
    ensures r.Some? ==> r == Member(info, "stream")
  {
    if JsTruthy(info) then
      match (Member(info, "ok"), Member(info, "stream"))
      case (Some(ok), Some(stream)) => if JsTruthy(ok) && JsTruthy(stream) then Some(stream) else None
      case _ => None
    else None
  }

  /** A tagged callback argument `{message, error}`. */
  function Failure(message: string, error: string): Json
  {
    JObj([("message", JStr(message)), ("error", JStr(error))])
  }

  /** The page-level client with the browser objects it holds. */
  class EventTransportClient {
    const options: ClientOptions
    var activeTransport: Option<string>
    var eventSource: Option<Json>            // what the EventSource was opened with
    var webSocket: Option<Option<string>>    // the endpoint a WebSocket was created for
    var proxyRequests: seq<Json>             // bodies posted to the POST-SSE proxy
    var calls: seq<(string, Json)>           // callback invocations, in order
    var wsSent: seq<Json>                    // messages sent over the WebSocket
    var restPosts: seq<Json>                 // payloads posted in REST mode

    constructor (given: GivenOptions)
      ensures options == MergeOptions(given)
      ensures activeTransport.None? && eventSource.None? && webSocket.None?
      ensures proxyRequests == [] && calls == [] && wsSent == [] && restPosts == []
    {
      options := MergeOptions(given);
      activeTransport := None;
      eventSource := None;
      webSocket := None;
      proxyRequests := [];
      calls := [];
      wsSent := [];
      restPosts := [];
    }

    /** `_connectSSE`: marks the transport first, then opens the EventSource. The call
        rejects when building the URL throws, or when the EventSource constructor throws
        (`esError.Some?`, a URL it cannot parse). */
    method ConnectSse(esError: Option<string>) returns (rejected: bool)
      modifies this
      ensures activeTransport == Some("sse")
      ensures rejected <==> SseUrl(options).None? || esError.Some?
      ensures eventSource == if rejected then old(eventSource) else Some(JStr(SseUrl(options).value))
      ensures webSocket == old(webSocket) && calls == old(calls) && proxyRequests == old(proxyRequests)
      ensures wsSent == old(wsSent) && restPosts == old(restPosts)
    {
      activeTransport := Some("sse");
      var url := SseUrl(options);
      if url.None? || esError.Some? {
        return true;
      }
      eventSource := Some(JStr(url.value));
      return false;
    }

    /** `_connectWS`: the WebSocket constructor may throw (`constructorThrows`), which
        rejects before anything is recorded. */
    method ConnectWs(constructorThrows: bool) returns (rejected: bool)
      modifies this
      ensures rejected == constructorThrows
      ensures rejected ==> activeTransport == old(activeTransport) && webSocket == old(webSocket)
      ensures !rejected ==> activeTransport == Some("ws") && webSocket == Some(options.endpoint)
      ensures eventSource == old(eventSource) && calls == old(calls) && proxyRequests == old(proxyRequests)
      ensures wsSent == old(wsSent) && restPosts == old(restPosts)
    {
      if constructorThrows {
        return true;
      }
      webSocket := Some(options.endpoint);
      activeTransport := Some("ws");
      return false;
    }

    /** `_connectPostSSE`: posts the request to the proxy and opens the stream it names,
        or reports the failure to the callback without opening anything. An EventSource
        constructor that throws on the stream URL (`esError.Some?`) lands in the outer
        `catch` and is reported as a connection error. */
    method ConnectPostSse(answer: ProxyAnswer, esError: Option<string>)
      modifies this
      ensures activeTransport == Some("postsse")
      ensures proxyRequests == old(proxyRequests) + [ProxyRequestBody(options)]
      ensures answer.FetchFailed? ==>
                calls == old(calls) + [("error", Failure("postsse connection error", answer.error))] &&
                eventSource == old(eventSource)
      ensures answer.NotJson? ==>
                calls == old(calls) + [("error", Failure("Invalid postsse proxy response", answer.error))] &&
                eventSource == old(eventSource)
      ensures answer.Answer? && AcceptedStream(answer.info).None? ==>
                calls == old(calls) + [("error", if JsTruthy(answer.info) then answer.info
                                                 else JObj([("message", JStr("postsse proxy failed"))]))] &&
                eventSource == old(eventSource)
      ensures answer.Answer? && AcceptedStream(answer.info).Some? && esError.None? ==>
                calls == old(calls) && eventSource == AcceptedStream(answer.info)
      ensures answer.Answer? && AcceptedStream(answer.info).Some? && esError.Some? ==>
                calls == old(calls) + [("error", Failure("postsse connection error", esError.value))] &&
                eventSource == old(eventSource)
      ensures webSocket == old(webSocket) && wsSent == old(wsSent) && restPosts == old(restPosts)
    {
      activeTransport := Some("postsse");
      proxyRequests := proxyRequests + [ProxyRequestBody(options)];
      match answer {
        case FetchFailed(error) =>
          calls := calls + [("error", Failure("postsse connection error", error))];
        case NotJson(error) =>
          calls := calls + [("error", Failure("Invalid postsse proxy response", error))];
        case Answer(info) =>
          var stream := AcceptedStream(info);
          if stream.None? {
            calls := calls + [("error", if JsTruthy(info) then info else JObj([("message", JStr("postsse proxy failed"))]))];
          } else if esError.Some? {
            calls := calls + [("error", Failure("postsse connection error", esError.value))];
          } else {
            eventSource := stream;
          }
      }
    }

    /** `connect`: an explicit transport calls its connector (`rest` only records the
        choice); otherwise an endpoint starting with "ws" tries a WebSocket first and
        anything else, or a failed WebSocket, goes to SSE. `rejected` is whether the
        returned promise rejects. `esError` is what the EventSource constructor throws,
        if anything, on the URL it is given. */
    method Connect(wsConstructorThrows: bool, esError: Option<string>, answer: ProxyAnswer) returns (rejected: bool)
      modifies this
      ensures options.transport == "rest" ==>
                activeTransport == Some("rest") && !rejected &&
                eventSource == old(eventSource) && webSocket == old(webSocket) &&
                calls == old(calls) && proxyRequests == old(proxyRequests)
      ensures options.transport == "postsse" ==>
                activeTransport == Some("postsse") && !rejected && webSocket == old(webSocket) &&
                proxyRequests == old(proxyRequests) + [ProxyRequestBody(options)]
      ensures options.transport == "postsse" && answer.FetchFailed? ==>
                calls == old(calls) + [("error", Failure("postsse connection error", answer.error))] &&
                eventSource == old(eventSource)
      ensures options.transport == "postsse" && answer.NotJson? ==>
                calls == old(calls) + [("error", Failure("Invalid postsse proxy response", answer.error))] &&
                eventSource == old(eventSource)
      ensures options.transport == "postsse" && answer.Answer? && AcceptedStream(answer.info).None? ==>
                calls == old(calls) + [("error", if JsTruthy(answer.info) then answer.info
                                                 else JObj([("message", JStr("postsse proxy failed"))]))] &&
                eventSource == old(eventSource)
      ensures options.transport == "postsse" && answer.Answer? && AcceptedStream(answer.info).Some? && esError.None? ==>
                calls == old(calls) && eventSource == AcceptedStream(answer.info)
      ensures options.transport == "postsse" && answer.Answer? && AcceptedStream(answer.info).Some? && esError.Some? ==>
                calls == old(calls) + [("error", Failure("postsse connection error", esError.value))] &&
                eventSource == old(eventSource)
      ensures options.transport == "sse" ==>
                activeTransport == Some("sse") && (rejected <==> SseUrl(options).None? || esError.Some?) &&
                eventSource == (if rejected then old(eventSource) else Some(JStr(SseUrl(options).value))) &&
                webSocket == old(webSocket) && calls == old(calls) && proxyRequests == old(proxyRequests)
      ensures options.transport == "ws" ==>
                rejected == wsConstructorThrows &&
                activeTransport == (if wsConstructorThrows then old(activeTransport) else Some("ws")) &&
                webSocket == (if wsConstructorThrows then old(webSocket) else Some(options.endpoint)) &&
                eventSource == old(eventSource) && calls == old(calls) && proxyRequests == old(proxyRequests)
      ensures options.transport != "postsse" ==> calls == old(calls) && proxyRequests == old(proxyRequests)
      ensures options.transport !in {"rest", "postsse", "sse", "ws"} ==>
                activeTransport == (if WantsWebSocket(options) && !wsConstructorThrows then Some("ws") else Some("sse"))
      ensures options.transport !in {"rest", "postsse", "sse", "ws"} && WantsWebSocket(options) && !wsConstructorThrows ==>
                webSocket == Some(options.endpoint) && eventSource == old(eventSource) && !rejected
      ensures options.transport !in {"rest", "postsse", "sse", "ws"} && !(WantsWebSocket(options) && !wsConstructorThrows) ==>
                webSocket == old(webSocket) && (rejected <==> SseUrl(options).None? || esError.Some?) &&
                eventSource == (if rejected then old(eventSource) else Some(JStr(SseUrl(options).value)))
      ensures wsSent == old(wsSent) && restPosts == old(restPosts)
    {
      if options.transport == "sse" {
        rejected := ConnectSse(esError);
        return;
      }
      if options.transport == "postsse" {
        ConnectPostSse(answer, esError);
        return false;
      }
      if options.transport == "ws" {
        rejected := ConnectWs(wsConstructorThrows);
        return;
      }
      if options.transport == "rest" {
        activeTransport := Some("rest");
        return false;
      }
      if WantsWebSocket(options) {
        var failed := ConnectWs(wsConstructorThrows);
        if !failed {
          return false;
        }
      }
      rejected := ConnectSse(esError);
    }

    /** `request`: a message over an open WebSocket, a POST in REST mode (whose JSON
        answer goes to the callback as a message), and nothing for the stream modes.
        `restAnswer` is the decoded answer, or `None` when `fetch` or `res.json()` throws:
        the call then rejects and the callback hears nothing. */
    method Request(payload: Json, restAnswer: Option<Json>) returns (rejected: bool)
      modifies this
      ensures rejected <==> activeTransport == Some("rest") && restAnswer.None?
      ensures activeTransport == Some("ws") && webSocket.Some? ==>
                wsSent == old(wsSent) + [payload] && restPosts == old(restPosts) && calls == old(calls)
      ensures activeTransport == Some("rest") ==>
                restPosts == old(restPosts) + [payload] && wsSent == old(wsSent) &&
                calls == old(calls) + (if restAnswer.Some? then [("message", restAnswer.value)] else [])
      ensures activeTransport != Some("rest") && !(activeTransport == Some("ws") && webSocket.Some?) ==>
                wsSent == old(wsSent) && restPosts == old(restPosts) && calls == old(calls)
      ensures activeTransport == old(activeTransport) && eventSource == old(eventSource) && webSocket == old(webSocket)
      ensures proxyRequests == old(proxyRequests)
    {
      if activeTransport == Some("ws") && webSocket.Some? {
        wsSent := wsSent + [payload];
        return false;
      }
      if activeTransport == Some("rest") {
        restPosts := restPosts + [payload];
        if restAnswer.None? {
          return true;
        }
        calls := calls + [("message", restAnswer.value)];
      }
      return false;
    }
  }

  /** Auto mode tries a WebSocket only for a string endpoint starting with "ws". */
  predicate WantsWebSocket(options: ClientOptions)
  {
    options.endpoint.Some? && |options.endpoint.value| >= 2 && options.endpoint.value[..2] == "ws"
  }

  /** The client accepts exactly the proxy's success replies, and then opens the
      stream URL the proxy built; a rejection reaches the error callback. */
  lemma ProxyReplyCheck(v: PostSse.Verdict, server: PostSse.ServerVars, id: string)
    ensures AcceptedStream(PostSse.ProxyReply(v, server, id)) ==
            if v.Accepted? then Some(JStr(PostSse.StreamUrl(server, id))) else None
  {
    var url := PostSse.StreamUrl(server, id);
    assert |url| >= |PostSse.StreamScript| > 0;
  }

  /** The body the client posts passes the proxy's validation when the endpoint is a
      string without surrounding whitespace and the payload is an object or falsy (it
      is then sent as `{}`); a null endpoint is turned away. */
  lemma ProxyAcceptsClientBody(options: ClientOptions, now: int)
    requires options.endpoint.Some? && options.endpoint.value != ""
    requires !IsTrimmable(options.endpoint.value[0]) && !IsTrimmable(options.endpoint.value[|options.endpoint.value| - 1])
    requires options.payload.JObj? || !JsTruthy(options.payload)
    ensures PostSse.Validate(Some(ProxyRequestBody(options)), now) ==
            PostSse.Accepted(PostSse.Record(options.endpoint.value,
                                            if JsTruthy(options.payload) then options.payload else JObj([]), now))
  {
    ClientBodyFields(options);
    PhpTrimKeepsTrimmed(options.endpoint.value);
  }

  /** The two members the proxy reads from the posted body. */
  lemma ClientBodyFields(options: ClientOptions)
    ensures PostSse.Field(ProxyRequestBody(options), "endpoint") ==
            match options.endpoint case Some(e) => Some(JStr(e)) case None => None
    ensures PostSse.Field(ProxyRequestBody(options), "payload") ==
            Some(if JsTruthy(options.payload) then options.payload else JObj([]))
  {
    var e := match options.endpoint case Some(e) => JStr(e) case None => JNull;
    var payload := if JsTruthy(options.payload) then options.payload else JObj([]);
    var fields := [("endpoint", e), ("payload", payload)];
    assert fields[..1] == [("endpoint", e)];
    assert Lookup(fields, "endpoint") == Lookup(fields[..1], "endpoint");
  }

  lemma NullEndpointIsRejected(options: ClientOptions, now: int)
    requires options.endpoint.None?
    ensures PostSse.Validate(Some(ProxyRequestBody(options)), now) == PostSse.Rejected(PostSse.MissingEndpoint)
  {
    ClientBodyFields(options);
  }

  /** The callback names one dispatched event of type `kind` produces on an EventSource
      the client opened: "message" through `onmessage`, then one per listener — the
      fixed "done" and "error" listeners, then one per entry of the custom list. */
  function CallbackNames(events: seq<string>, kind: string): (r: seq<string>)
    ensures forall i :: 0 <= i < |r| ==> r[i] == kind
  {
    (if kind == "message" then ["message"] else []) + Matching(["done", "error"] + events, kind)
  }

  function Matching(names: seq<string>, kind: string): (r: seq<string>)
    ensures forall i :: 0 <= i < |r| ==> r[i] == kind
    ensures |r| <= |names|
  {
    if names == [] then []
    else (if names[0] == kind then [kind] else []) + Matching(names[1..], kind)
  }

  lemma {:induction false} MatchingCount(names: seq<string>, kind: string)
    ensures |Matching(names, kind)| == multiset(names)[kind]
  {
    if names != [] {
      MatchingCount(names[1..], kind);
      assert names == [names[0]] + names[1..];
      assert multiset(names) == multiset([names[0]]) + multiset(names[1..]);
    }
  }

  /** Every event type is heard once per listener registered for it: "done" and "error"
      always at least once, a type outside the custom list not at all (unless it is the
      default "message"), and a type listed twice twice. */
  lemma ListenerCounts(events: seq<string>, kind: string)
    ensures |CallbackNames(events, kind)| ==
            (if kind == "message" then 1 else 0) + (if kind == "done" || kind == "error" then 1 else 0) +
            multiset(events)[kind]
  {
    MatchingCount(["done", "error"] + events, kind);
    assert multiset(["done", "error"] + events) == multiset(["done", "error"]) + multiset(events);
  }
}
