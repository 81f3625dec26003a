/**
 * The server's choice of engine: the configured default mode first, then, when
 * auto-fallback is on, the configured fallback order, and finally the
 * non-streaming engine, which is always safe.
 */
module StreamFactory {
  import opened Wrappers

  /** What a WebSocket connection resolver hands back; its contents are not modelled. */
  datatype Connection = Connection(handle: nat)

  /** The optional resolver the factory is built with. */
  datatype WsResolver =
    | NoResolver
    | Resolver(resolve: (string, string) -> Option<Connection>)

  /** The resolver installed by default: it never yields a connection. */
  const NullResolver: WsResolver := Resolver((serviceName: string, streamId: string) => None)

  /** The transport configuration the factory reads. */
  datatype Config = Config(defaultMode: string, autoFallback: bool, fallbackOrder: seq<string>)

  /** The shipped configuration: SSE, with short polling and then no streaming as fallbacks. */
  const DefaultConfig: Config := Config("sse", true, ["short", "nostream"])

  /** The engine a factory call returns, with what it was initialised with. */
  datatype Engine =
    | NoStreamEngine
    | ShortPollingEngine(serviceName: string, streamId: string)
    | LongPollingEngine(serviceName: string, streamId: string)
    | SseEngine
    | WebSocketEngine(connection: Connection)

  /** The mode name an engine serves. */
  function EngineMode(engine: Engine): string
  {
    match engine
    case NoStreamEngine => "nostream"
    case ShortPollingEngine(_, _) => "short"
    case LongPollingEngine(_, _) => "long"
    case SseEngine => "sse"
    case WebSocketEngine(_) => "ws"
  }

  /** `createByMode`: a fresh engine for a known and available mode, None otherwise. */
  function CreateByMode(resolver: WsResolver, mode: string, serviceName: string, streamId: string): (r: Option<Engine>)
    ensures r.Some? ==> EngineMode(r.value) == mode
    ensures r.Some? && r.value.WebSocketEngine? ==>
              resolver.Resolver? && resolver.resolve(serviceName, streamId) == Some(r.value.connection)
  {
    if mode == "nostream" then Some(NoStreamEngine)
    else if mode == "short" then Some(ShortPollingEngine(serviceName, streamId))
    else if mode == "long" then Some(LongPollingEngine(serviceName, streamId))
    else if mode == "sse" then Some(SseEngine)
    else if mode == "ws" then
      if resolver.NoResolver? then None
      else
        match resolver.resolve(serviceName, streamId)
        case None => None
        case Some(connection) => Some(WebSocketEngine(connection))
    else None
  }

  /** When a mode is available: the four built-in modes always (SSE has no runtime
      probe), `ws` only through a resolver that yields a connection, nothing else. */
  lemma Availability(resolver: WsResolver, mode: string, serviceName: string, streamId: string)
    ensures CreateByMode(resolver, mode, serviceName, streamId).Some? <==>
              mode == "nostream" || mode == "short" || mode == "long" || mode == "sse" ||
              (mode == "ws" && resolver.Resolver? && resolver.resolve(serviceName, streamId).Some?)
    ensures mode == "short" ==> CreateByMode(resolver, mode, serviceName, streamId) == Some(ShortPollingEngine(serviceName, streamId))
    ensures mode == "long" ==> CreateByMode(resolver, mode, serviceName, streamId) == Some(LongPollingEngine(serviceName, streamId))
  {
  }

  /** The first mode of `modes` that yields an engine, in list order. */
  function FirstAvailable(resolver: WsResolver, modes: seq<string>, serviceName: string, streamId: string): (r: Option<Engine>)
    ensures r.None? <==> forall i :: 0 <= i < |modes| ==> CreateByMode(resolver, modes[i], serviceName, streamId).None?
    ensures r.Some? ==>
              exists k :: 0 <= k < |modes| && CreateByMode(resolver, modes[k], serviceName, streamId) == r &&
                forall j :: 0 <= j < k ==> CreateByMode(resolver, modes[j], serviceName, streamId).None?
  {
    if modes == [] then None
    else
      var first := CreateByMode(resolver, modes[0], serviceName, streamId);
      if first.Some? then
        assert CreateByMode(resolver, modes[0], serviceName, streamId) == first;
        first
      else
        var rest := FirstAvailable(resolver, modes[1..], serviceName, streamId);
        assert forall i :: 1 <= i < |modes| ==> modes[i] == modes[1..][i - 1];
        if rest.Some? then
          var k :| 0 <= k < |modes[1..]| && CreateByMode(resolver, modes[1..][k], serviceName, streamId) == rest &&
                   forall j :: 0 <= j < k ==> CreateByMode(resolver, modes[1..][j], serviceName, streamId).None?;
          assert CreateByMode(resolver, modes[k + 1], serviceName, streamId) == rest;
          rest
        else rest
  }

  /** `createStream`: the default mode, then the fallback order when auto-fallback is
      enabled, then the non-streaming engine. */
  function CreateStream(config: Config, resolver: WsResolver, serviceName: string, streamId: string): (r: Engine)
    ensures CreateByMode(resolver, config.defaultMode, serviceName, streamId).Some? ==>
              r == CreateByMode(resolver, config.defaultMode, serviceName, streamId).value
    ensures CreateByMode(resolver, config.defaultMode, serviceName, streamId).None? && !config.autoFallback ==>
              r == NoStreamEngine
    ensures CreateByMode(resolver, config.defaultMode, serviceName, streamId).None? && config.autoFallback ==>
              r == match FirstAvailable(resolver, config.fallbackOrder, serviceName, streamId)
                   case Some(e) => e
                   case None => NoStreamEngine
  {
    match CreateByMode(resolver, config.defaultMode, serviceName, streamId)
    case Some(e) => e
    case None =>
      if config.autoFallback then
        match FirstAvailable(resolver, config.fallbackOrder, serviceName, streamId)
        case Some(e) => e
        case None => NoStreamEngine
      else NoStreamEngine
  }

  /** `createStream` never fails: when neither the default nor any fallback is
      available the answer is the non-streaming engine, and any other answer is
      the engine of an available configured mode. */
  lemma CreateStreamIsTotal(config: Config, resolver: WsResolver, serviceName: string, streamId: string)
    ensures var r := CreateStream(config, resolver, serviceName, streamId);
            r == NoStreamEngine ||
            Some(r) == CreateByMode(resolver, config.defaultMode, serviceName, streamId) ||
            (config.autoFallback &&
             exists k :: 0 <= k < |config.fallbackOrder| &&
                         Some(r) == CreateByMode(resolver, config.fallbackOrder[k], serviceName, streamId))
  {
  }

  /** A factory with the null resolver (or none) never answers a WebSocket engine,
      whatever the configuration. */
  lemma NoWebSocketWithoutConnection(config: Config, resolver: WsResolver, serviceName: string, streamId: string)
    requires resolver == NullResolver || resolver == NoResolver
    ensures !CreateStream(config, resolver, serviceName, streamId).WebSocketEngine?
  {
    var r := CreateStream(config, resolver, serviceName, streamId);
    if CreateByMode(resolver, config.defaultMode, serviceName, streamId).None? && config.autoFallback {
      var first := FirstAvailable(resolver, config.fallbackOrder, serviceName, streamId);
      if first.Some? {
        var k :| 0 <= k < |config.fallbackOrder| &&
                 CreateByMode(resolver, config.fallbackOrder[k], serviceName, streamId) == first &&
                 forall j :: 0 <= j < k ==> CreateByMode(resolver, config.fallbackOrder[j], serviceName, streamId).None?;
        assert !first.value.WebSocketEngine?;
      }
    }
  }

  /** The shipped configuration yields the SSE engine. */
  lemma DefaultConfigGivesSse(resolver: WsResolver, serviceName: string, streamId: string)
    ensures CreateStream(DefaultConfig, resolver, serviceName, streamId) == SseEngine
  {
  }

  /** An unknown default mode falls through to the first available fallback. */
  lemma UnknownModeFallsBack(resolver: WsResolver)
    ensures CreateStream(Config("does-not-exist", true, ["short", "nostream"]), resolver, "svc", "id") ==
            ShortPollingEngine("svc", "id")
  {
    assert FirstAvailable(resolver, ["short", "nostream"], "svc", "id") == Some(ShortPollingEngine("svc", "id"));
  }

  /** `ws` without a resolver, fallbacks off: the non-streaming engine. */
  lemma WsWithoutResolverGivesNoStream()
    ensures CreateStream(Config("ws", false, []), NoResolver, "svc", "id") == NoStreamEngine
  {
  }

  /** `ws` with a resolver that yields nothing, fallbacks on: the first fallback. */
  lemma WsWithNullResolverFallsBack()
    ensures CreateStream(Config("ws", true, ["long", "nostream"]), NullResolver, "svc", "id") ==
            LongPollingEngine("svc", "id")
  {
    assert FirstAvailable(NullResolver, ["long", "nostream"], "svc", "id") == Some(LongPollingEngine("svc", "id"));
  }
}
