/**
 * How the server's engine choice and the browser's transport choice relate. The two
 * sides run different searches: the server tries the fallbacks only when
 * auto-fallback is on and never probes for SSE; the browser always tries them, skips
 * empty and repeated modes, and probes for `EventSource` and `WebSocket`.
 */
module Negotiation {
  import opened Wrappers
  import opened StreamFactory
  import opened ClientTransport

  /** The browser transport that talks to a server engine. */
  function TransportFor(e: Engine): (t: Transport)
    ensures e.WebSocketEngine? <==> t == WebSocketTransport
  {
    match e
    case NoStreamEngine => NoStreamTransport
    case ShortPollingEngine(_, _) => ShortPollingTransport
    case LongPollingEngine(_, _) => LongPollingTransport
    case SseEngine => SseTransport
    case WebSocketEngine(_) => WebSocketTransport
  }

  /** The conditions under which one mode means the same on both sides: the browser
      has `EventSource`, and the server's resolver yields a connection for this stream
      exactly when the browser has `WebSocket`. */
  predicate Matched(resolver: WsResolver, browser: Browser, serviceName: string, streamId: string)
  {
    browser.hasEventSource &&
    ((resolver.Resolver? && resolver.resolve(serviceName, streamId).Some?) <==> browser.hasWebSocket)
  }

  /** Under those conditions each mode is available on one side exactly when it is on
      the other, and names matching engine and transport. */
  lemma ModeAgrees(resolver: WsResolver, browser: Browser, mode: string, serviceName: string, streamId: string)
    requires Matched(resolver, browser, serviceName, streamId)
    ensures CreateByMode(resolver, mode, serviceName, streamId).Some? <==> TransportByMode(mode, browser).Some?
    ensures CreateByMode(resolver, mode, serviceName, streamId).Some? ==>
              TransportFor(CreateByMode(resolver, mode, serviceName, streamId).value) == TransportByMode(mode, browser).value
  {
    Availability(resolver, mode, serviceName, streamId);
  }

  /** The two first-match searches agree over the same list of modes. */
  lemma {:induction false} FirstMatchesAgree(resolver: WsResolver, browser: Browser, modes: seq<string>,
                                             serviceName: string, streamId: string)
    requires Matched(resolver, browser, serviceName, streamId)
    ensures FirstAvailable(resolver, modes, serviceName, streamId).Some? <==> FirstTransport(modes, browser).Some?
    ensures FirstAvailable(resolver, modes, serviceName, streamId).Some? ==>
              TransportFor(FirstAvailable(resolver, modes, serviceName, streamId).value) == FirstTransport(modes, browser).value
  {
    if modes != [] {
      ModeAgrees(resolver, browser, modes[0], serviceName, streamId);
      FirstMatchesAgree(resolver, browser, modes[1..], serviceName, streamId);
    }
  }

  /** With auto-fallback on and the same mode and fallback list on both sides, the
      browser picks the transport of the engine the server picks: the browser's skipping
      of empty and repeated modes changes nothing, because an empty mode is unknown to
      both and a repeated one gives the same answer again. */
  method AgreeWhenMatched(config: Config, resolver: WsResolver, browser: Browser, serviceName: string, streamId: string)
    returns (engine: Engine, transport: Transport)
    requires config.autoFallback
    requires Matched(resolver, browser, serviceName, streamId)
    ensures engine == CreateStream(config, resolver, serviceName, streamId)
    ensures transport == TransportFor(engine)
  {
    engine := CreateStream(config, resolver, serviceName, streamId);
    var client := ClientConfig(config.defaultMode, config.fallbackOrder, "/event", DefaultEndpoints, None, 120);
    var probed;
    transport, probed := CreateChannel(client, browser);
    ModeAgrees(resolver, browser, config.defaultMode, serviceName, streamId);
    FirstMatchesAgree(resolver, browser, Candidates(client), serviceName, streamId);
    FirstMatchesAgree(resolver, browser, config.fallbackOrder, serviceName, streamId);
    assert Candidates(client)[1..] == config.fallbackOrder;
  }

  /** Without auto-fallback the two sides part ways: for mode `ws` with the null
      resolver the server answers the non-streaming engine, while a browser without
      `WebSocket` moves on to its first fallback. */
  lemma DivergeWithoutAutoFallback()
    ensures CreateStream(Config("ws", false, ["short"]), NullResolver, "svc", "id") == NoStreamEngine
    ensures FirstTransport(Candidates(ClientConfig("ws", ["short"], "/event", DefaultEndpoints, None, 120)),
                           Browser(true, false)) == Some(ShortPollingTransport)
  {
    var modes := Candidates(ClientConfig("ws", ["short"], "/event", DefaultEndpoints, None, 120));
    assert modes == ["ws", "short"];
    assert modes[1..] == ["short"];
  }

  /** The server never probes for SSE: with the shipped configuration it answers the
      SSE engine, while a browser without `EventSource` and the same modes moves on to
      short polling. */
  lemma DivergeWithoutEventSource(resolver: WsResolver)
    ensures CreateStream(DefaultConfig, resolver, "svc", "id") == SseEngine
    ensures FirstTransport(["sse", "short", "nostream"], Browser(false, false)) == Some(ShortPollingTransport)
  {
    DefaultConfigGivesSse(resolver, "svc", "id");
    var modes := ["sse", "short", "nostream"];
    assert modes[1..] == ["short", "nostream"];
  }
}
