/**
 * The POST-SSE handoff. A browser's EventSource can only send GET requests, so the
 * proxy endpoint takes the POST body, parks it in the PHP session under a fresh id
 * and answers a stream URL; the stream endpoint then takes that record out of the
 * session (once), calls the real service and relays its event stream.
 */
module PostSse {
  import opened Wrappers
  import opened Json
  import opened Text
  import opened UrlEncoding
  import JsonEncode
  import opened SseWire

  /** A parked request: the trimmed endpoint, the payload and the creation time. */
  datatype Record = Record(endpoint: string, payload: Json, created: int)

  /** The `$_SERVER` values both endpoints read; an absent one is None. */
  datatype ServerVars = ServerVars(https: Option<string>, httpHost: Option<string>, scriptName: string)

  /** PHP's `empty()` on a server value: absent, "" and "0" are empty. */
  predicate PhpEmpty(v: Option<string>)
  {
    v.None? || v.value == "" || v.value == "0"
  }

  /** `https` exactly when HTTPS is set, non-empty and not "off". */
  function Scheme(server: ServerVars): (r: string)
    ensures r == "https" || r == "http"
    ensures r == "https" <==> !PhpEmpty(server.https) && server.https.value != "off"
  {
    if !PhpEmpty(server.https) && server.https.value != "off" then "https" else "http"
  }

  /** The host the request named, or "localhost". */
  function Host(server: ServerVars): string
  {
    match server.httpHost
    case Some(h) => h
    case None => "localhost"
  }

  /** The values of HTTPS a server sets: absent, "", "0" and exactly "off" mean plain
      http; anything else, even "OFF", means https. */
  lemma SchemeCases(host: Option<string>, scriptName: string)
    ensures Scheme(ServerVars(None, host, scriptName)) == "http"
    ensures Scheme(ServerVars(Some(""), host, scriptName)) == "http"
    ensures Scheme(ServerVars(Some("0"), host, scriptName)) == "http"
    ensures Scheme(ServerVars(Some("off"), host, scriptName)) == "http"
    ensures Scheme(ServerVars(Some("on"), host, scriptName)) == "https"
    ensures Scheme(ServerVars(Some("1"), host, scriptName)) == "https"
    ensures Scheme(ServerVars(Some("OFF"), host, scriptName)) == "https"
  {
  }

  /** scheme://host followed by the directory the script is served from. */
  function SiteBase(server: ServerVars): string
  {
    Scheme(server) + "://" + Host(server) + ScriptBase(server.scriptName)
  }

  /** The stream URL the proxy hands out for an id. */
  function StreamUrl(server: ServerVars, id: string): string
  {
    SiteBase(server) + StreamScript + "?" + "id=" + Encode(PhpUrlencode, id)
  }

  const StreamScript: string := "/eventtransportpostsse.php"

  predicate NoQuestionMark(s: string)
  {
    forall i :: 0 <= i < |s| ==> s[i] != '?'
  }

  lemma NoQuestionMarkConcat(a: string, b: string)
    requires NoQuestionMark(a) && NoQuestionMark(b)
    ensures NoQuestionMark(a + b)
  {
    assert forall i :: |a| <= i < |a + b| ==> (a + b)[i] == b[i - |a|];
  }

  lemma StreamScriptHasNoQuery()
    ensures NoQuestionMark(StreamScript)
  {
  }

  /** The stream endpoint reading the URL back finds its own script and, after
      decoding, exactly the UTF-8 bytes of the id. */
  lemma StreamUrlCarriesId(server: ServerVars, id: string)
    requires NoQuestionMark(SiteBase(server))
    ensures SplitFirst(StreamUrl(server, id), '?') ==
            Some((SiteBase(server) + StreamScript, "id=" + Encode(PhpUrlencode, id)))
    ensures DecodeBytes(PhpUrlencode, Encode(PhpUrlencode, id)) == Some(Utf8(id))
  {
    var path := SiteBase(server) + StreamScript;
    var query := "id=" + Encode(PhpUrlencode, id);
    StreamScriptHasNoQuery();
    NoQuestionMarkConcat(SiteBase(server), StreamScript);
    SplitFirstJoin(path, '?', query);
    assert StreamUrl(server, id) == path + ['?'] + query;
    DecodeEncode(PhpUrlencode, id);
  }

  /** PHP's `(string)` cast of a decoded value (an array becomes "Array"). */
  function PhpString(j: Json): string
  {
    match j
    case JNull => ""
    case JBool(b) => if b then "1" else ""
    case JNum(n) => IntToString(n)
    case JStr(s) => s
    case JArr(_) => "Array"
    case JObj(_) => "Array"
  }

  /** `$data[$key] ?? …`: a member that is absent or null counts as missing. */
  function Field(data: Json, key: string): Option<Json>
  {
    match Member(data, key)
    case Some(JNull) => None
    case other => other
  }

  const InvalidJson: string := "Invalid JSON payload"
  const MissingEndpoint: string := "Missing endpoint or payload"

  /** The proxy's verdict on a request body (None: the body is not valid JSON). */
  datatype Verdict = Accepted(record: Record) | Rejected(error: string)

  /** `trim((string)($data['endpoint'] ?? ''))`. */
  function EndpointOf(data: Json): string
  {
    PhpTrim(match Field(data, "endpoint") case Some(e) => PhpString(e) case None => "")
  }

  /** `$data['payload'] ?? []`. */
  function PayloadOf(data: Json): Json
  {
    match Field(data, "payload") case Some(p) => p case None => JArr([])
  }

  /** The proxy's validation of the POST body, at time `now`. */
  function Validate(body: Option<Json>, now: int): (v: Verdict)
    ensures v == Rejected(InvalidJson) <==> body.None? || !IsPhpArray(body.value)
    ensures v.Rejected? ==> v.error == InvalidJson || v.error == MissingEndpoint
    ensures v.Accepted? ==>
              v.record.endpoint != "" &&
              !IsTrimmable(v.record.endpoint[0]) && !IsTrimmable(v.record.endpoint[|v.record.endpoint| - 1]) &&
              IsPhpArray(v.record.payload) && v.record.created == now
    ensures body.Some? && IsPhpArray(body.value) ==>
              (v.Accepted? <==> EndpointOf(body.value) != "" && IsPhpArray(PayloadOf(body.value))) &&
              (v.Accepted? ==> v.record == Record(EndpointOf(body.value), PayloadOf(body.value), now)) &&
              (v.Rejected? ==> v.error == MissingEndpoint)
  {
    if body.None? || !IsPhpArray(body.value) then Rejected(InvalidJson)
    else
      var endpoint := EndpointOf(body.value);
      var payload := PayloadOf(body.value);
      if endpoint == "" || !IsPhpArray(payload) then Rejected(MissingEndpoint)
      else Accepted(Record(endpoint, payload, now))
  }

  /** A JSON list is an array to PHP but has no "endpoint" key, so it is always turned
      away for a missing endpoint; an object without a payload is accepted with an
      empty one. */
  lemma ListBodyIsRejected(items: seq<Json>, now: int)
    ensures Validate(Some(JArr(items)), now) == Rejected(MissingEndpoint)
  {
  }

  lemma PayloadDefaultsToEmpty(endpoint: string, now: int)
    requires endpoint != "" && !IsTrimmable(endpoint[0]) && !IsTrimmable(endpoint[|endpoint| - 1])
    ensures Validate(Some(JObj([("endpoint", JStr(endpoint))])), now) == Accepted(Record(endpoint, JArr([]), now))
  {
    var fields := [("endpoint", JStr(endpoint))];
    assert fields[..0] == [];
    assert Field(JObj(fields), "payload") == None;
    assert Field(JObj(fields), "endpoint") == Some(JStr(endpoint));
    PhpTrimKeepsTrimmed(endpoint);
  }

  /** Surrounding whitespace is cut off the endpoint before it is parked (" /x " is
      parked as "/x"). */
  lemma EndpointIsTrimmed(lead: string, endpoint: string, trail: string, now: int)
    requires forall i :: 0 <= i < |lead| ==> IsTrimmable(lead[i])
    requires forall i :: 0 <= i < |trail| ==> IsTrimmable(trail[i])
    requires endpoint != [] && !IsTrimmable(endpoint[0]) && !IsTrimmable(endpoint[|endpoint| - 1])
    ensures Validate(Some(JObj([("endpoint", JStr(lead + endpoint + trail))])), now) ==
            Accepted(Record(endpoint, JArr([]), now))
  {
    var fields := [("endpoint", JStr(lead + endpoint + trail))];
    assert fields[..0] == [];
    assert Field(JObj(fields), "payload") == None;
    assert Field(JObj(fields), "endpoint") == Some(JStr(lead + endpoint + trail));
    PhpTrimStrips(lead, endpoint, trail);
  }

  /** An endpoint of whitespace only is as good as none. */
  lemma BlankEndpointIsRejected(blank: string, payload: Json, now: int)
    requires forall i :: 0 <= i < |blank| ==> IsTrimmable(blank[i])
    ensures Validate(Some(JObj([("endpoint", JStr(blank)), ("payload", payload)])), now) == Rejected(MissingEndpoint)
  {
    var fields := [("endpoint", JStr(blank)), ("payload", payload)];
    assert fields[..1] == [("endpoint", JStr(blank))];
    assert Lookup(fields, "endpoint") == Lookup(fields[..1], "endpoint");
  }

  /** The proxy's answer: `{ok:true, id, stream}` or `{ok:false, error}`. */
  function ProxyReply(v: Verdict, server: ServerVars, id: string): (j: Json)
    ensures Member(j, "ok") == Some(JBool(v.Accepted?))
    ensures v.Accepted? ==> Member(j, "stream") == Some(JStr(StreamUrl(server, id))) && Member(j, "id") == Some(JStr(id))
    ensures v.Rejected? ==> Member(j, "stream") == None && Member(j, "error") == Some(JStr(v.error))
  {
    if v.Accepted? then
      var fields := [("ok", JBool(true)), ("id", JStr(id)), ("stream", JStr(StreamUrl(server, id)))];
      var two := [("ok", JBool(true)), ("id", JStr(id))];
      assert fields[..2] == two && two[..1] == [("ok", JBool(true))];
      assert Lookup(fields, "id") == Lookup(two, "id");
      assert Lookup(fields, "ok") == Lookup(two, "ok") == Lookup(two[..1], "ok");
      JObj(fields)
    else
      var fields := [("ok", JBool(false)), ("error", JStr(v.error))];
      assert fields[..1] == [("ok", JBool(false))];
      assert Lookup(fields, "ok") == Lookup(fields[..1], "ok");
      JObj(fields)
  }

  /** The PHP session: its name and id, and the map of parked POST-SSE requests. */
  class Session {
    const name: string
    const id: string
    var postSse: map<string, Record>

    constructor (name: string, id: string)
      ensures this.name == name && this.id == id && postSse == map[]
    {
      this.name := name;
      this.id := id;
      postSse := map[];
    }
  }

  /** The proxy's `getOutput`: validates the body, parks an accepted request under
      `newId` (the caller's random id) and answers the JSON text of its reply. A
      rejected body leaves the session as it was. */
  method Proxy(session: Session, body: Option<Json>, server: ServerVars, newId: string, now: int)
    returns (reply: string)
    modifies session
    ensures reply == JsonEncode.Encode(ProxyReply(Validate(body, now), server, newId))
    ensures Validate(body, now).Rejected? ==> session.postSse == old(session.postSse)
    ensures Validate(body, now).Accepted? ==>
              session.postSse == old(session.postSse)[newId := Validate(body, now).record]
  {
    var verdict := Validate(body, now);
    if verdict.Accepted? {
      session.postSse := session.postSse[newId := verdict.record];
    }
    reply := JsonEncode.Encode(ProxyReply(verdict, server, newId));
  }

  const ExpiredMessage: string := "Invalid or expired stream id"

  /** What the stream endpoint writes for an unknown id: the preamble and one `error` event. */
  function ErrorFrame(): string
  {
    Preamble + EventFrame("error", JsonEncode.Encode(JObj([("error", JStr(ExpiredMessage))])))
  }

  /** A browser reading the error frame gets exactly one `error` event carrying the message. */
  lemma ErrorFrameDispatchesError()
    ensures Interpret(ErrorFrame()) ==
            [Dispatched("error", JsonEncode.Encode(JObj([("error", JStr(ExpiredMessage))])))]
  {
    var json := JsonEncode.Encode(JObj([("error", JStr(ExpiredMessage))]));
    RunConcat(Idle([]), Preamble, EventFrame("error", json));
    PreambleIsSilent([]);
    EventFrameDispatches([], "error", json);
  }

  /** The call the stream endpoint makes to the real service. */
  datatype Upstream = Upstream(url: string, headers: seq<string>, payload: Json)

  /** The upstream URL is the stored endpoint under the site base, with one '/' between. */
  function UpstreamRequest(record: Record, server: ServerVars, session: Session): (u: Upstream)
    ensures u.url == SiteBase(server) + "/" + TrimStart(record.endpoint, IsSlash)
    ensures |u.headers| == if session.id != "" then 2 else 1
    ensures u.headers[0] == "Accept: text/event-stream"
    ensures session.id != "" ==> u.headers[1] == "Cookie: " + session.name + "=" + session.id
  {
    var cookie := if session.id != "" then ["Cookie: " + session.name + "=" + session.id] else [];
    Upstream(SiteBase(server) + "/" + TrimStart(record.endpoint, IsSlash),
             ["Accept: text/event-stream"] + cookie,
             record.payload)
  }

  /** What the browser has received from the stream endpoint. */
  class Client {
    var output: string

    constructor ()
      ensures output == ""
    {
      output := "";
    }

    /** The transfer's write callback: once the client has gone it forwards nothing
        and reports 0 bytes taken; otherwise it forwards the chunk and reports its
        length in bytes. */
    method Forward(chunk: string, connectionAborted: int) returns (taken: nat)
      modifies this
      ensures connectionAborted == 1 ==> taken == 0 && output == old(output)
      ensures connectionAborted != 1 ==> taken == |Utf8(chunk)| && output == old(output) + chunk
    {
      if connectionAborted == 1 {
        return 0;
      }
      output := output + chunk;
      return |Utf8(chunk)|;
    }

    /** The upstream transfer: each chunk goes through the write callback, and the
        transfer ends when the callback takes fewer bytes than it was given. */
    method Transfer(chunks: seq<(string, int)>)
      modifies this
      ensures output == old(output) + Relayed(chunks)
    {
      var i := 0;
      var relaying := true;
      while i < |chunks| && relaying
        invariant 0 <= i <= |chunks|
        invariant relaying ==> old(output) + Relayed(chunks) == output + Relayed(chunks[i..])
        invariant !relaying ==> output == old(output) + Relayed(chunks)
        decreases |chunks| - i
      {
        var rest := chunks[i..];
        assert rest[0] == chunks[i] && rest[1..] == chunks[i + 1..];
        var taken := Forward(chunks[i].0, chunks[i].1);
        if taken != |Utf8(chunks[i].0)| {
          relaying := false;
        }
        i := i + 1;
      }
      if relaying {
        assert chunks[i..] == [];
      }
    }
  }

  /** The upstream body as relayed: every chunk up to the first one that arrives after
      the client has gone. The transfer stops there, because a write callback taking
      fewer bytes than it was given ends it. Each chunk is paired with the value of
      `connection_aborted()` when it arrives. */
  function Relayed(chunks: seq<(string, int)>): string
  {
    if chunks == [] then ""
    else if chunks[0].1 == 1 && Utf8(chunks[0].0) != [] then ""
    else (if chunks[0].1 == 1 then "" else chunks[0].0) + Relayed(chunks[1..])
  }

  /** While the client stays, the relay is the upstream body, unchanged. */
  lemma {:induction false} RelayIsVerbatim(chunks: seq<(string, int)>)
    requires forall i :: 0 <= i < |chunks| ==> chunks[i].1 != 1
    ensures Relayed(chunks) == Concat(chunks)
  {
    if chunks != [] {
      RelayIsVerbatim(chunks[1..]);
    }
  }

  function Concat(chunks: seq<(string, int)>): string
  {
    if chunks == [] then "" else chunks[0].0 + Concat(chunks[1..])
  }

  /** Whether the request's `id` parameter (None: absent) names a parked request;
      an empty id never does. */
  predicate Parked(parked: map<string, Record>, id: Option<string>)
  {
    id.Some? && id.value != "" && id.value in parked
  }

  /** The stream endpoint's `getOutput` with the request's `id` parameter, fed the
      upstream's chunks. An empty or unknown id gets the error frame and nothing else
      changes; a known id is removed from the session before anything is streamed
      (single use), the preamble is written and the upstream body relayed. */
  method Serve(session: Session, client: Client, id: Option<string>, server: ServerVars,
               chunks: seq<(string, int)>)
    returns (upstream: Option<Upstream>, result: string)
    requires session != client as object
    modifies session, client
    ensures result == ""
    ensures !Parked(old(session.postSse), id) ==>
              upstream == None && session.postSse == old(session.postSse) &&
              client.output == old(client.output) + ErrorFrame()
    ensures Parked(old(session.postSse), id) ==>
              upstream == Some(UpstreamRequest(old(session.postSse)[id.value], server, session)) &&
              session.postSse == old(session.postSse) - {id.value} &&
              client.output == old(client.output) + Preamble + Relayed(chunks)
  {
    if !Parked(session.postSse, id) {
      client.output := client.output + ErrorFrame();
      return None, "";
    }
    var key := id.value;
    var entry := session.postSse[key];
    session.postSse := session.postSse - {key};
    client.output := client.output + Preamble;
    upstream := Some(UpstreamRequest(entry, server, session));
    client.Transfer(chunks);
    return upstream, "";
  }

  /** Two stream requests with the same id: only the first finds the parked request. */
  method RedeemTwice(session: Session, id: string, server: ServerVars, chunks: seq<(string, int)>)
    returns (first: Option<Upstream>, firstOutput: string, secondOutput: string)
    requires id != ""
    modifies session
    ensures id in old(session.postSse) ==>
              first == Some(UpstreamRequest(old(session.postSse)[id], server, session)) &&
              firstOutput == Preamble + Relayed(chunks)
    ensures id !in old(session.postSse) ==> first.None? && firstOutput == ErrorFrame()
    ensures secondOutput == ErrorFrame()
    ensures session.postSse == old(session.postSse) - {id}
  {
    var client1 := new Client();
    var result;
    first, result := Serve(session, client1, Some(id), server, chunks);
    assert "" + Preamble == Preamble && "" + ErrorFrame() == ErrorFrame();
    firstOutput := client1.output;
    var client2 := new Client();
    var second;
    second, result := Serve(session, client2, Some(id), server, chunks);
    secondOutput := client2.output;
  }

  /** The whole handoff on a fresh session: the proxy accepts a request under `newId`,
      the first stream request with that id calls the stored endpoint and relays it, and
      a second request with the same id gets the error frame, leaving the session empty. */
  method Handoff(body: Option<Json>, server: ServerVars, newId: string, now: int, chunks: seq<(string, int)>)
    returns (reply: string, first: Option<Upstream>, firstOutput: string, secondOutput: string, left: map<string, Record>)
    requires newId != ""
    ensures reply == JsonEncode.Encode(ProxyReply(Validate(body, now), server, newId))
    ensures Validate(body, now).Accepted? ==>
              first.Some? && first.value.url == SiteBase(server) + "/" + TrimStart(Validate(body, now).record.endpoint, IsSlash) &&
              first.value.payload == Validate(body, now).record.payload &&
              firstOutput == Preamble + Relayed(chunks)
    ensures Validate(body, now).Rejected? ==> first.None? && firstOutput == ErrorFrame()
    ensures secondOutput == ErrorFrame()
    ensures left == map[]
  {
    var session := new Session("PHPSESSID", "");
    reply := Proxy(session, body, server, newId, now);
    first, firstOutput, secondOutput := RedeemTwice(session, newId, server, chunks);
    left := session.postSse;
  }
}
