# EventTransport in Dafny

EventTransport delivers an ordered series of events from a PHP request to a browser. There are five
transports: a single JSON document (`nostream`), short polling, long polling, Server-Sent Events
(`sse`) and WebSocket (`ws`). This project models the sequential core of that system and proves
properties of the model.

## Server stream engines

Each engine is a class with the two one-way flags `started` and `finished`.

- `NoStream.NoStreamEventStream` buffers pushed events. It writes one document, once, on `finish`.
- `SseStream.SseEventStream` appends text frames to an output string.
  - Disconnection (`connection_aborted()`) is an integer argument of each call.
  - A ghost field `delivered` records what a browser's EventSource parser receives from that output.
  - The parser follows section 9.2.6 of the WHATWG HTML Living Standard ("Interpreting an event stream"), and `SseWire` models it.
- `ShortPolling.ShortPollingStream` and `LongPolling.LongPollingStream` share a `QueueStore.Store`. The store is a map from a temp-file path to what that file holds.
  - A producer instance and a consumer instance interact only through the store.
  - `waitNext` reads an abstract clock: one elapsed-time reading per check of the queue.

## Transport choice

- `StreamFactory` is the server's `createStream`/`createByMode`, with the shipped configuration and the null WebSocket resolver.
- `ClientTransport` holds the browser side from `eventtransport.js`:
  - configuration defaults and URL building;
  - `TransportResolver.createChannel`;
  - the message filters of the short- and long-poll loops, stated over a sequence of poll responses.
- `Negotiation` relates the two resolvers. It states when they agree and gives concrete inputs where they do not.

## POST-SSE

- `PostSse` models the proxy endpoint that parks `{endpoint, payload, created}` in the session under a fresh id. It also models the stream endpoint that redeems the id once and relays the upstream body.
- `TransportClient` models `EventTransportClient` from `eventtransportclient.js`: option merging, connect dispatch, the SSE prompt URL, the check of the proxy's answer, and `request` routing.

## Supporting modules

- `Json` is the decoded JSON value, with PHP and JS truthiness.
- `JsonEncode` is `json_encode` with `JSON_UNESCAPED_UNICODE`.
- `UrlEncoding` covers percent-encoding in its three flavours: `URLSearchParams`, `encodeURIComponent` and PHP `urlencode`. Each flavour has a decoder and a round-trip proof.
- `Text` covers `trim`, `ltrim`, `rtrim`, `dirname` and the decimal form of an integer.
- `Events` is the `{type, data}` queue record.

## Model

| member | source | states |
|---|---|---|
| Json.Lookup | src/Service/EventTransportPostSseProxy.php:32-39 | A member of a decoded object is missing exactly when no entry has that key; otherwise it is the value of the last entry with that key, as when PHP's json_decode meets a repeated key |
| Text.PhpTrim | src/Service/EventTransportPostSseProxy.php:38 | The trimmed endpoint neither starts nor ends with a trimmable character; an all-whitespace endpoint trims to "" |
| Text.PhpTrimKeepsTrimmed | src/Service/EventTransportPostSseProxy.php:38 | Trimming a string that is already trimmed leaves it unchanged |
| Text.PhpTrimStrips | src/Service/EventTransportPostSseProxy.php:38 | trim removes exactly the whitespace before and after a text (" /x " gives "/x") |
| Text.TrimStart | src/Service/EventTransportPostSse.php:63 | ltrim removes exactly a prefix of matching characters, and the result does not start with one |
| Text.TrimEnd | src/Service/EventTransportPostSseProxy.php:61 | rtrim removes exactly a suffix of matching characters, and the result does not end with one |
| Text.Dirname | src/Service/EventTransportPostSseProxy.php:61 | dirname is "" only for "", and is otherwise "/", "." or a proper prefix of the path that ends just before a '/' |
| Text.DirnameOfJoin | src/Service/EventTransportPostSseProxy.php:61 | The parent of dir + "/" + name is dir, for a name without '/' and a dir not ending in '/' ("/a/b.php" gives "/a") |
| Text.DirnameAtRoot | src/Service/EventTransportPostSseProxy.php:61 | A name directly under the root has the parent "/" ("/b.php" gives "/") |
| Text.DirnameOfBareName | src/Service/EventTransportPostSseProxy.php:61 | A name without any '/' has the parent "." ("b.php" gives ".") |
| Text.DirnameIgnoresTrailingSlashes | src/Service/EventTransportPostSseProxy.php:61 | Trailing slashes do not change the parent ("/a/b/" gives the parent of "/a/b", which is "/a") |
| Text.TrimEndStopsAt | src/Service/EventTransportPostSseProxy.php:61 | rtrim removes exactly a trailing run of matching characters and stops at the first character it does not match |
| Text.TrimStartStopsAt | src/Service/EventTransportPostSse.php:63 | ltrim removes exactly a leading run of matching characters and stops at the first character it does not match |
| Text.ScriptBase | src/Service/EventTransportPostSseProxy.php:61 | The site base never ends in '/' |
| Text.NatDigits | assets/eventtransport.js:196 | The decimal form of a status is non-empty, all digits, and has no leading zero |
| Text.DigitsRoundTrip | assets/eventtransport.js:196 | Reading back the decimal form of n gives n |
| Text.IntToString | assets/eventtransport.js:196 | The string form starts with '-' exactly for a negative number, and its digits read back to the number's magnitude |
| UrlEncoding.Utf8Char | src/Stream/ShortPollingEventStream.php:92 | A character takes 1 to 4 UTF-8 bytes, and exactly the ASCII characters take one byte, equal to their code |
| UrlEncoding.Encode | assets/eventtransport.js:43-46 | An encoded component never contains '&', '=', '?', '#' or a space, so it cannot break the query it is placed in |
| UrlEncoding.DecodeEncode | assets/eventtransportclient.js:70 | Percent-decoding an encoded string gives back its UTF-8 bytes, in every flavour |
| UrlEncoding.EncodeAlnumIsIdentity | src/Service/EventTransportPostSseProxy.php:63 | urlencode leaves letters and digits unchanged, so the hex stream id appears verbatim in the stream URL |
| UrlEncoding.Serialize | assets/eventtransport.js:43-46 | A serialized query contains no '?', '#' or space |
| UrlEncoding.QueryRoundTrip | assets/eventtransport.js:43-46 | Splitting a serialized query on '&' and '=' and decoding each part gives back every name/value pair, in order |
| JsonEncode.Encode | src/Stream/SseEventStream.php:56 | The encoding of any value is non-empty and contains no line break, so it fits on one SSE `data:` line |
| Events.EventJsonRoundTrip | src/Stream/ShortPollingEventStream.php:43-46 | A queued `{type, data}` record decodes back to the event that was pushed |
| Events.EventListJsonRoundTrip | src/Stream/ShortPollingEventStream.php:99-122 | A saved queue of records loads back as the same events in the same order |
| SseWire.EventFrameDispatches | src/Stream/SseEventStream.php:55-56 | An `event:`/`data:` frame makes the receiver dispatch exactly one event with that type (or "message" for an empty type) and that data, and return to idle |
| SseWire.CommentFrameIsSilent | src/Stream/SseEventStream.php:72 | A comment frame dispatches nothing and leaves the receiver idle |
| SseWire.PreambleIsSilent | src/Stream/SseEventStream.php:42 | The opening empty line dispatches nothing |
| SseWire.FrameEndLeavesIdle | src/Stream/SseEventStream.php:55-56 | Any text ending in a blank line leaves the receiver with no pending type, data or partial line |
| SseWire.RunKeepsLineStart | src/Stream/SseEventStream.php:42-101 | A receiver that starts at a line start keeps that property after any input |
| QueueStore.Store.constructor | src/Stream/ShortPollingEventStream.php:99-122 | A fresh temp directory holds no queue files |
| QueueStore.Store.Read | src/Stream/ShortPollingEventStream.php:99-111 | Reading a path yields its content exactly when the file exists |
| QueueStore.Store.Write | src/Stream/ShortPollingEventStream.php:116-122 | Saving replaces one file's content with the queue and leaves every other file as it was |
| QueueStore.Sanitize | src/Stream/ShortPollingEventStream.php:92 | The key has one character per UTF-8 byte of the input, uses only [A-Za-z0-9_-], and is unchanged when the input already does |
| QueueStore.SanitizeChar | src/Stream/ShortPollingEventStream.php:92 | A character in [A-Za-z0-9_-] is kept; any other becomes one '_' per byte of its UTF-8 encoding |
| QueueStore.SanitizeConcat | src/Stream/ShortPollingEventStream.php:92 | Sanitizing is done byte by byte, so it distributes over concatenation |
| QueueStore.QueueKey | src/Stream/ShortPollingEventStream.php:91-94 | The key of (service, stream) has one key character per UTF-8 byte of service + "_" + stream |
| QueueStore.QueuePathsStayInDirectory | src/Stream/ShortPollingEventStream.php:91-94 | `ShortQueuePath` and `LongQueuePath` (LongPollingEventStream.php:100-103) are tmpDir + "/" + a name without '/', so both queue files sit directly in the temp directory |
| QueueStore.QueueKeyStaysInDirectory | src/Stream/ShortPollingEventStream.php:91-94 | A queue key contains neither '/' nor '.', so the queue file stays in the temp directory |
| QueueStore.QueueKeyCollides | src/Stream/ShortPollingEventStream.php:91-94 | The key is not injective: ("a_b", "c") and ("a", "b_c") share one queue |
| QueueStore.ShortAndLongPathsCollide | src/Stream/LongPollingEventStream.php:100-103 | The short-poll queue of ("long", s + "_" + t) is the long-poll queue of (s, t) |
| QueueStore.LoadShort | src/Stream/ShortPollingEventStream.php:99-111 | A missing, empty or unreadable file, or one whose content decodes to no PHP array, loads as the empty queue; a list of records loads as its events |
| QueueStore.LoadLongAsWritten | src/Stream/LongPollingEventStream.php:108-117 | The long-poll load as written fails with a TypeError exactly for a file whose content decodes to a truthy non-array, and otherwise reads what the short-poll load reads |
| QueueStore.LoadLongAsWrittenThrows | src/Stream/LongPollingEventStream.php:108-117 | A file holding a truthy non-array such as `1` makes the long-poll load fail with a TypeError, where short polling reads an empty queue |
| QueueStore.LoadLongCorrected | src/Stream/LongPollingEventStream.php:108-117 | The corrected load agrees with the as-written load wherever that one succeeds, and equals the short-poll load everywhere |
| QueueStore.LoadLong | src/Stream/LongPollingEventStream.php:108-117 | The corrected long-poll load reads every file exactly as the short-poll load does: a list of records as its events, anything else as the empty queue |
| ShortPolling.ShortPollingStream.Init | src/Stream/ShortPollingEventStream.php:27-31 | An engine starts unstarted and unfinished, on the queue file tmp + "/evq_" + key + ".json" |
| ShortPolling.ShortPollingStream.Start | src/Stream/ShortPollingEventStream.php:33-36 | Starting sets `started` and nothing else |
| ShortPolling.ShortPollingStream.Push | src/Stream/ShortPollingEventStream.php:38-48 | Before finish, a push starts the engine and appends exactly `{type, data}` to the end of this queue, leaving other files alone; after finish it changes nothing |
| ShortPolling.ShortPollingStream.Finish | src/Stream/ShortPollingEventStream.php:59-71 | The first finish appends one `done` record with its payload; a later finish changes nothing |
| ShortPolling.ShortPollingStream.IsDisconnected | src/Stream/ShortPollingEventStream.php:54-57 | The producer is never disconnected |
| ShortPolling.ShortPollingStream.SendComment | src/Stream/ShortPollingEventStream.php:50-52 | A comment changes nothing |
| ShortPolling.ShortPollingStream.PollNext | src/Stream/ShortPollingEventStream.php:79-89 | A poll returns the head and stores the tail; on an empty queue it returns nothing and writes nothing |
| ShortPolling.PushAll | test/Stream/ShortPollingEventStreamTest.php:27-51 | Pushing a series appends all of it to the queue, in order |
| ShortPolling.PollAll | test/Stream/ShortPollingEventStreamTest.php:27-51 | Polling until empty returns the whole queue in FIFO order and leaves it empty |
| ShortPolling.ProduceThenConsume | test/Stream/ShortPollingEventStreamTest.php:27-85 | A separate consumer receives every pushed event in order, then the first `done`, and nothing after; a push after finish is lost |
| LongPolling.FirstPast | src/Stream/LongPollingEventStream.php:90-94 | The timeout check succeeds at the first reading strictly greater than the timeout |
| LongPolling.LongPollingStream.Init | src/Stream/LongPollingEventStream.php:27-31 | An engine starts unstarted and unfinished, on the queue file tmp + "/evq_long_" + key + ".json" |
| LongPolling.LongPollingStream.Start | src/Stream/LongPollingEventStream.php:33-36 | Starting sets `started` and nothing else |
| LongPolling.LongPollingStream.Push | src/Stream/LongPollingEventStream.php:38-48 | Before finish, a push starts the engine and appends exactly `{type, data}` to this queue; after finish it changes nothing |
| LongPolling.LongPollingStream.Finish | src/Stream/LongPollingEventStream.php:59-71 | The first finish appends one `done` record with its payload; a later finish changes nothing |
| LongPolling.LongPollingStream.IsDisconnected | src/Stream/LongPollingEventStream.php:54-57 | The producer is never disconnected |
| LongPolling.LongPollingStream.SendComment | src/Stream/LongPollingEventStream.php:50-52 | A comment changes nothing |
| LongPolling.LongPollingStream.WaitNext | src/Stream/LongPollingEventStream.php:78-98 | On a non-empty queue, a wait returns the head after one check and stores the tail. On an empty queue it returns the timeout marker at the first reading past the timeout and writes nothing |
| LongPolling.NegativeTimeoutIsImmediate | test/Stream/LongPollingEventStreamTest.php:17-38 | With a negative timeout an empty queue times out at the first check |
| LongPolling.PushAll | test/Stream/LongPollingEventStreamTest.php:17-38 | Pushing a series appends all of it to the queue, in order |
| LongPolling.WaitAll | test/Stream/LongPollingEventStreamTest.php:17-38 | Waiting until the queue is empty returns the whole queue in FIFO order and leaves it empty |
| LongPolling.ProduceThenWait | test/Stream/LongPollingEventStreamTest.php:41-80 | A separate consumer receives every pushed event, then the first `done` only, then a timeout |
| NoStream.DonePayloadRoundTrip | src/Stream/NoStreamEventStream.php:80-86 | The final document `{type: done, events, data}` reads back as the buffered events and the payload |
| NoStream.NoStreamEventStream.constructor | src/Stream/NoStreamEventStream.php:13-17 | A new stream has an empty buffer, no output and neither flag set |
| NoStream.NoStreamEventStream.Start | src/Stream/NoStreamEventStream.php:19-30 | Starting sets `started` and outputs nothing |
| NoStream.NoStreamEventStream.Push | src/Stream/NoStreamEventStream.php:35-48 | Before finish, a push appends `{type, data}` to the buffer and outputs nothing; after finish it changes nothing |
| NoStream.NoStreamEventStream.IsDisconnected | src/Stream/NoStreamEventStream.php:61-64 | The stream is never disconnected |
| NoStream.NoStreamEventStream.SendComment | src/Stream/NoStreamEventStream.php:53-56 | A comment changes nothing |
| NoStream.NoStreamEventStream.Finish | src/Stream/NoStreamEventStream.php:69-87 | The first finish outputs one document with the buffer and its payload; a later finish outputs nothing |
| NoStream.ResponseBody | test/Stream/NoStreamEventStreamTest.php:10-68 | A whole request with pushes, two finishes and a late push outputs exactly one document: every pushed event and the first payload |
| SseStream.Delivered | src/Stream/SseEventStream.php:55-56 | For a pushed type without CR or LF, the event an EventSource receives carries the JSON text of the data, under that type or "message" |
| SseStream.DeliveredAll | src/Stream/SseEventStream.php:55-56 | A series of pushed events is received one for one, in order |
| SseStream.SseEventStream.constructor | src/Stream/SseEventStream.php:13-14 | A new stream has no output, has delivered nothing, and has neither flag set |
| SseStream.SseEventStream.Start | src/Stream/SseEventStream.php:19-44 | The first start outputs exactly "\n"; later starts output nothing |
| SseStream.SseEventStream.IsDisconnected | src/Stream/SseEventStream.php:80-85 | Disconnected exactly when `connection_aborted()` is 1 |
| SseStream.SseEventStream.Emit | src/Stream/SseEventStream.php:55-72 | Output only grows by the frame, and the delivered events follow the receiver run over it |
| SseStream.SseEventStream.EmitEvent | src/Stream/SseEventStream.php:55-56 | An event frame appended to the output delivers exactly one event with that type and data |
| SseStream.SseEventStream.Push | src/Stream/SseEventStream.php:49-59 | Before finish: a push auto-starts the stream (outputting "\n" once), then appends the frame unless the client is disconnected; for a type without CR or LF that frame delivers exactly that event. After finish it outputs nothing |
| SseStream.SseEventStream.SendComment | src/Stream/SseEventStream.php:65-75 | Before finish a comment auto-starts and appends `": " + text + "\n\n"` unless disconnected, which delivers nothing when the text has no CR or LF; after finish it outputs nothing |
| SseStream.SseEventStream.Finish | src/Stream/SseEventStream.php:90-108 | The first finish auto-starts, appends one `done` frame unless disconnected, and sets `finished` either way; a later finish outputs nothing |
| SseStream.HeartbeatThenPush | test/Stream/SseEventStreamTest.php:19-44 | For a heartbeat text and a type without CR or LF, a heartbeat comment then a push on an open stream delivers exactly the pushed event |
| SseStream.PushAll | test/Stream/SseEventStreamTest.php:19-44 | When no type and no heartbeat contains CR or LF, pushing a series with heartbeats between them delivers the series, in order |
| SseStream.StreamBody | test/Stream/SseEventStreamTest.php:19-63 | When no pushed type and no heartbeat contains CR or LF, an EventSource reading a whole response receives every pushed event in order, then `done`, and nothing from a late push |
| StreamFactory.Availability | src/Service/EventStreamFactory.php:63-108 | A mode is available exactly when it is nostream, short, long or sse, or ws with a resolver that yields a connection; short and long engines get the given identity |
| StreamFactory.CreateByMode | src/Service/EventStreamFactory.php:63-108 | An engine built for a mode serves that mode; a WebSocket engine holds the connection its resolver returned |
| StreamFactory.FirstAvailable | src/Service/EventStreamFactory.php:46-53 | The fallback search returns the first available mode of the list, and nothing only when none is available |
| StreamFactory.CreateStream | src/Service/EventStreamFactory.php:38-57 | An available default mode wins; otherwise the fallbacks are tried only with auto-fallback on; otherwise the non-streaming engine |
| StreamFactory.CreateStreamIsTotal | src/Service/EventStreamFactory.php:55-56 | The factory always answers: the non-streaming engine, the default mode's engine, or a fallback's engine when auto-fallback is on |
| StreamFactory.NoWebSocketWithoutConnection | src/Service/NullWebSocketConnectionResolver.php:17-20 | With no resolver or the null resolver the factory never answers the WebSocket engine |
| StreamFactory.DefaultConfigGivesSse | src/Config/EventTransportConfig.php:12-24 | The shipped configuration resolves to the SSE engine |
| StreamFactory.UnknownModeFallsBack | test/Service/EventStreamFactoryTest.php:49-67 | Mode "does-not-exist" with fallbacks short, nostream gives short polling for the given identity |
| StreamFactory.WsWithoutResolverGivesNoStream | test/Service/EventStreamFactoryTest.php:69-87 | Mode ws without a resolver and without fallbacks gives the non-streaming engine |
| StreamFactory.WsWithNullResolverFallsBack | test/Service/EventStreamFactoryTest.php:89-111 | Mode ws with the null resolver and fallbacks long, nostream gives long polling |
| ClientTransport.MakeConfig | assets/eventtransport.js:23-39 | Each falsy option takes its default; each truthy one is kept |
| ClientTransport.ConfigDefaults | assets/eventtransport.js:23-39 | No options give nostream, fallbacks short, long, nostream, "/event", the four endpoints, no wsUrl and 120 ms |
| ClientTransport.ConfigKeepsTruthyOptions | assets/eventtransport.js:23-39 | A configuration with only truthy options is rebuilt unchanged from its own options, while an interval of 0 becomes 120 |
| ClientTransport.StreamQuery | assets/eventtransport.js:43-46 | The service/stream query contains no '?' or '#' |
| ClientTransport.SplitsIntoStream | assets/eventtransport.js:41-47 | A path without '?' followed by the query splits back into the path and a query that decodes to exactly service=serviceName, stream=streamId |
| ClientTransport.StreamQueryDecodes | assets/eventtransport.js:43-46 | The query decodes to exactly two pairs, service then stream, with the given values |
| ClientTransport.HttpUrlCarriesStream | assets/eventtransport.js:41-47 | `BuildHttpUrl` gives base + the mode's endpoint (or "") then '?' then a query carrying exactly the service and stream |
| ClientTransport.BuildWebSocketUrl | assets/eventtransport.js:49-57 | There is no WebSocket URL exactly when wsUrl is null or "" (falsy) |
| ClientTransport.WebSocketUrlCarriesStream | assets/eventtransport.js:49-57 | With a non-empty wsUrl the WebSocket URL is wsUrl then '?' then the same service/stream query |
| ClientTransport.TransportByMode | assets/eventtransport.js:469-495 | nostream, short and long always give a transport, sse only with EventSource, ws only with WebSocket, anything else none |
| ClientTransport.FirstTransport | assets/eventtransport.js:450-463 | The first-match search returns the transport of the first mode that yields one, and nothing only when no mode does |
| ClientTransport.FirstTransportAt | assets/eventtransport.js:450-463 | When mode i is the first to yield a transport, the search returns that one |
| ClientTransport.CreateChannel | assets/eventtransport.js:450-467 | The channel is the first-match transport over mode then fallbacks, or the non-streaming transport. Modes are probed at most once each, never empty, and only from the candidates |
| ClientTransport.ShortPollStopsCons | assets/eventtransport.js:195-211 | The short-poll loop stops within a run exactly when its first response ends it or the rest of the run does |
| ClientTransport.LongPollStopsCons | assets/eventtransport.js:277-299 | The long-poll loop stops within a run exactly when its first response ends it or the rest of the run does |
| ClientTransport.PollingClient.constructor | assets/eventtransport.js:155-158 | A new polling transport is not running and has emitted nothing |
| ClientTransport.PollingClient.LoopPoll | assets/eventtransport.js:181-217 | The loop emits exactly the filtered messages and the error, in order, and is still running afterwards exactly when no response stopped it |
| ClientTransport.PollingClient.LoopLongPoll | assets/eventtransport.js:264-302 | The loop emits exactly the filtered messages and the error, in order, and is still running afterwards exactly when no response stopped it |
| ClientTransport.ShortPollEmissionsShape | assets/eventtransport.js:195-211 | Of `ShortPollEmissions`, the reference for the short-poll loop: every emitted message has a type other than "empty"; every emission but the last is a message that is not `done`; at most one emission per response |
| ClientTransport.LongPollEmissionsShape | assets/eventtransport.js:277-299 | Of `LongPollEmissions`, the reference for the long-poll loop: every emitted message is non-null and not a timeout; every emission but the last is a message that is not `done`; at most one emission per response |
| ClientTransport.ShortPollAnswers | src/Stream/ShortPollingEventStream.php:135-141 | The poll endpoint answers once per poll: the popped event's `{type, data}` record, or `{"type":"empty"}` when the queue was empty |
| ClientTransport.LongPollAnswers | src/Stream/LongPollingEventStream.php:81-94 | The long-poll endpoint answers once per wait: the popped event's `{type, data}` record, or `{"type":"timeout"}` when the wait timed out |
| ClientTransport.Popped | src/Stream/ShortPollingEventStream.php:79-89 | The events taken off the queue are exactly those of the polls that got one, at most one per poll, and all of them in poll order when every poll got one |
| ClientTransport.PoppedAppend | src/Stream/ShortPollingEventStream.php:79-89 | One more poll adds its event, if it got one, after all earlier ones: the events come in poll order |
| ClientTransport.Messages | assets/eventtransport.js:201 | Each delivered event becomes one message carrying its queue record |
| ClientTransport.RecordType | src/Stream/ShortPollingEventStream.php:43-46 | The `type` member of a queue record is the pushed event name |
| ClientTransport.FiltersOnRecords | assets/eventtransport.js:200-202 | On queue records the short-poll filter admits exactly non-empty names other than "empty", and the long-poll filter names other than "timeout"; the endpoints' own sentinels are never emitted |
| ClientTransport.ShortPollDeliversEvents | assets/eventtransport.js:185-216 | Short polling against the poll endpoint emits exactly the dequeued events, in FIFO order, when no event is named "" or "empty" and only the last may be `done` |
| ClientTransport.LongPollDeliversEvents | assets/eventtransport.js:267-301 | Long polling against waitNext emits exactly the dequeued events, in FIFO order, when no event is named "timeout" and only the last may be `done` |
| ClientTransport.ShortAndLongFilterDiffer | assets/eventtransport.js:200-291 | An event pushed with an empty name or the name "empty" is dropped by short polling but emitted by long polling |
| Negotiation.TransportFor | assets/eventtransport.js:469-495 | The browser transport for a server engine is WebSocket exactly for the WebSocket engine |
| Negotiation.ModeAgrees | src/Service/EventStreamFactory.php:63-108 | When the browser has EventSource, and has WebSocket exactly when the server's resolver yields a connection, each mode is available on both sides or on neither, with matching transports |
| Negotiation.FirstMatchesAgree | assets/eventtransport.js:450-463 | Under those conditions the server's fallback search and the browser's first-match search agree on every list of modes |
| Negotiation.AgreeWhenMatched | src/Service/EventStreamFactory.php:38-57 | With auto-fallback on and the same modes on both sides, createChannel returns the transport of the engine createStream builds |
| Negotiation.DivergeWithoutAutoFallback | src/Service/EventStreamFactory.php:46-56 | Mode ws with fallbacks off and the null resolver gives the non-streaming engine, while a browser without WebSocket picks short polling |
| Negotiation.DivergeWithoutEventSource | src/Service/EventStreamFactory.php:83-88 | The server answers SSE under the shipped configuration without probing, while a browser without EventSource picks short polling |
| PostSse.SchemeCases | src/Service/EventTransportPostSseProxy.php:59 | HTTPS absent, "", "0" or "off" gives http; "on", "1" and even "OFF" give https |
| PostSse.StreamUrlCarriesId | src/Service/EventTransportPostSseProxy.php:58-64 | `StreamUrl`, the stream URL the proxy hands out, splits into site base + "/eventtransportpostsse.php" and "id=" + urlencode(id), and the encoded id decodes back to the id |
| PostSse.Validate | src/Service/EventTransportPostSseProxy.php:31-43 | A body is rejected as invalid JSON exactly when it does not decode to an array. Otherwise it is accepted exactly when trim((string) endpoint) is non-empty and the payload (defaulting to []) is an array, and the record is that trimmed endpoint, that payload and the current time; any other rejection is "Missing endpoint or payload" |
| PostSse.EndpointIsTrimmed | src/Service/EventTransportPostSseProxy.php:38-43 | An endpoint with whitespace around it (" /x ") is parked without it ("/x") |
| PostSse.BlankEndpointIsRejected | src/Service/EventTransportPostSseProxy.php:38-43 | An endpoint of whitespace only is rejected as missing, whatever the payload |
| PostSse.ListBodyIsRejected | src/Service/EventTransportPostSseProxy.php:38-43 | A JSON list decodes to an array but has no endpoint, so it is rejected as missing endpoint |
| PostSse.PayloadDefaultsToEmpty | src/Service/EventTransportPostSseProxy.php:38-43 | A body with only an endpoint is accepted with the empty payload |
| PostSse.ProxyReply | src/Service/EventTransportPostSseProxy.php:66-78 | The reply's `ok` says whether the body was accepted; an accepted reply carries the id and the stream URL, a rejected one the error and no stream |
| PostSse.Session.constructor | src/Service/EventTransportPostSseProxy.php:48-50 | A new session has no parked POST-SSE records |
| PostSse.Proxy | src/Service/EventTransportPostSseProxy.php:31-70 | The proxy answers the encoded reply; on success it parks exactly one record under the new id and leaves every other id alone; on an error the session is unchanged |
| PostSse.ErrorFrameDispatchesError | src/Service/EventTransportPostSse.php:35-41 | `ErrorFrame`, the error response, makes an EventSource dispatch exactly one `error` event carrying `{"error":"Invalid or expired stream id"}` |
| PostSse.UpstreamRequest | src/Service/EventTransportPostSse.php:58-72 | The upstream URL is the site base, '/', and the endpoint without leading slashes. Its headers are Accept, plus the session cookie exactly when the session id is non-empty |
| PostSse.Client.constructor | src/Service/EventTransportPostSse.php:26 | Nothing has been sent to the browser yet |
| PostSse.Client.Forward | src/Service/EventTransportPostSse.php:81-91 | A chunk is echoed unchanged and its byte length returned, unless the client has aborted: then 0 is returned and nothing is output |
| PostSse.Client.Transfer | src/Service/EventTransportPostSse.php:95 | The transfer outputs the relayed chunks: each chunk in turn until the first refused one |
| PostSse.RelayIsVerbatim | src/Service/EventTransportPostSse.php:81-91 | Of `Relayed`, what the browser receives from the transfer: if the client never aborts, the browser receives the upstream body byte for byte |
| PostSse.Serve | src/Service/EventTransportPostSse.php:26-103 | An unknown or empty id leaves the session as it was and outputs only the error frame. A parked id is removed before streaming, the upstream request is built from its record, and the output is "\n" then the relayed body. The result is always "" |
| PostSse.RedeemTwice | src/Service/EventTransportPostSse.php:43-45 | A stream id is single use: the second request with it gets the error frame, and the id is gone from the session |
| PostSse.Handoff | src/Service/EventTransportPostSse.php:43-63 | Proxy then stream on a fresh session: an accepted body reaches the upstream at its endpoint with its payload and the relayed body is streamed; a rejected one yields the error frame; a replay yields the error frame; nothing is left parked |
| TransportClient.MergeOptions | assets/eventtransportclient.js:7-12 | Object.assign of the page's options onto the defaults: every option the page passes overrides its default and every missing one keeps it |
| TransportClient.PutLookup | assets/eventtransportclient.js:7-12 | After obj[key] = value, key reads value and every other member reads as before |
| TransportClient.AssignLookup | assets/eventtransportclient.js:7-12 | After Object.assign(target, source), a key the source has reads the source's value and any other key keeps the target's |
| TransportClient.StringItemsRoundTrip | assets/eventtransportclient.js:10 | An events list written as a JSON list of strings reads back unchanged |
| TransportClient.DefaultOptions | assets/eventtransportclient.js:7-12 | No options give endpoint null, transport auto, no events and payload null |
| TransportClient.SseUrl | assets/eventtransportclient.js:68-72 | Without a string prompt the URL is the endpoint (the string "null" for a null one); the code throws exactly when the endpoint is null and a prompt is present |
| TransportClient.SseUrlCarriesPrompt | assets/eventtransportclient.js:68-72 | The prompt is joined with '&' when the endpoint has '?', otherwise with '?' as the sole query separator, and the encoded prompt decodes back to the prompt |
| TransportClient.AcceptedStream | assets/eventtransportclient.js:135-140 | An EventSource is opened exactly when the answer is truthy with truthy `ok` and `stream`, and then on that `stream` |
| TransportClient.EventTransportClient.constructor | assets/eventtransportclient.js:6-19 | The client holds the merged options and has no transport, EventSource, WebSocket or traffic yet |
| TransportClient.EventTransportClient.ConnectSse | assets/eventtransportclient.js:64-105 | SSE becomes active first; the EventSource is opened on the prompt URL, or the call rejects, opening nothing, when building the URL throws or the EventSource constructor throws on it |
| TransportClient.EventTransportClient.ConnectWs | assets/eventtransportclient.js:175-197 | A WebSocket on the endpoint becomes active unless its constructor throws; a throw rejects and changes nothing |
| TransportClient.EventTransportClient.ConnectPostSse | assets/eventtransportclient.js:113-173 | The proxy is asked once. A failed fetch, a non-JSON answer or an answer without ok and stream reports one error and opens nothing; an accepted answer opens the stream URL and reports nothing, unless the EventSource constructor throws on it, which reports one "postsse connection error" and opens nothing |
| TransportClient.EventTransportClient.Connect | assets/eventtransportclient.js:27-58 | Explicit transports dispatch to their connector with that connector's full effect (EventSource, WebSocket, proxy request and callbacks), a throwing EventSource or WebSocket constructor included, and rest only sets rest. Auto mode tries WebSocket only for a "ws…" endpoint, falls to SSE only when that throws, and never ends in rest. Only postsse posts to the proxy or calls back |
| TransportClient.EventTransportClient.Request | assets/eventtransportclient.js:205-228 | A request goes over an open WebSocket when ws is active, is POSTed when rest is active (its answer reported as a message, or, when the fetch or its JSON decoding fails, the call rejects with no callback), and is ignored otherwise; it rejects only in that failed-fetch case; it never changes the transport, the open objects or the proxy requests |
| TransportClient.ProxyReplyCheck | assets/eventtransportclient.js:135-140 | The client opens the proxy's stream URL exactly when the proxy accepted the body, and never on a proxy error |
| TransportClient.ProxyAcceptsClientBody | assets/eventtransportclient.js:121-124 | The body the client sends with a trimmed endpoint and an object or falsy payload is accepted by the proxy with that endpoint and payload ({} for a falsy one) |
| TransportClient.ClientBodyFields | assets/eventtransportclient.js:121-124 | Of `ProxyRequestBody`: the proxy reads the endpoint string (a null endpoint is sent as `"endpoint":null`, which `??` reads as missing) and the payload or {} |
| TransportClient.NullEndpointIsRejected | assets/eventtransportclient.js:121-124 | With a null endpoint the proxy rejects the request as missing endpoint |
| TransportClient.CallbackNames | assets/eventtransportclient.js:80-104 | Every callback the listeners route for one dispatched type is called with that type's name |
| TransportClient.Matching | assets/eventtransportclient.js:96-104 | The custom listeners for one type are at most the listed ones, all with that name |
| TransportClient.MatchingCount | assets/eventtransportclient.js:96-104 | One custom listener fires per occurrence of the type in the events list |
| TransportClient.ListenerCounts | assets/eventtransportclient.js:80-104 | A dispatched type reaches the callback once for "message", once for "done" or "error", plus once per occurrence in the custom list, so a repeated or built-in name is reported twice |

## Left out

- src/Stream/WebSocketEventStream.php is not part of this model. It is a placeholder around a connection object defined elsewhere, and the factory sees it only as an available-or-not `ws` engine.
- The interfaces under src/Api and the plugin wiring in src/EventTransportPlugin.php are not part of this model.
- HTTP headers, `ini_set` and `flush` are left out. Output buffering is left out too: `ob_end_clean` in the SSE engine and the stream endpoint discards whatever was buffered before the stream starts, and the model has no such earlier output. `connection_aborted()` is a per-call integer argument.
- Queue files are an abstract store from path to content. `sys_get_temp_dir` is a constructor argument, and JSON text is not parsed. A stored list is assumed to hold `{type, data}` records. Content that decodes to no PHP array is one opaque value that is only truthy or falsy. A file holding a JSON object is not modelled: PHP decodes it to an array that is not a list, which both loaders would return as the queue. An empty file is not distinguished from a missing one.
- The `LOCK_EX` write and concurrent producers are left out. Load-then-save is not atomic in the source, and the model is sequential, so no producer runs while a consumer is waiting.
- `microtime` and `usleep` in `waitNext` are replaced by a sequence of elapsed-time readings, one per check. The caller must supply a reading past the timeout. Fractional seconds are reals, with no floating-point rounding.
- `sendComment` in the polling and non-streaming engines is a method with no frame, so it changes nothing.
- LongPolling.LongPollingStream.Push, LongPolling.LongPollingStream.Finish and LongPolling.LongPollingStream.WaitNext: they load the queue with the corrected `QueueStore.LoadLong`. On a file whose content decodes to a truthy non-array the source throws a TypeError; the model reads the empty queue and overwrites the file. The as-written behaviour is `QueueStore.LoadLongAsWritten` (see Findings).
- JsonEncode.Encode: every `JObj` is written as an object with all its members, in order. A PHP array cannot hold a repeated key, and one keyed 0..n-1 in order is written as a list, so a `Json` object with a repeated key, or with the keys "0".."n-1" in order, is encoded differently from `json_encode` of the array PHP would hold. No PHP array produces such a value, and the model does not exclude them.
- TransportClient.EventTransportClient.Request: `send` on a WebSocket that is not yet open throws in the browser; the model records the message as sent.
- JSON numbers are integers only: floating-point numbers in event data or payloads are not modelled.
- `json_encode` never fails in the model. PHP's `json_encode` returns false for a value nested deeper than 512 levels (and for invalid UTF-8, which a Dafny string cannot hold); that failure path is not modelled.
- The SSE `id:` and `retry:` fields, and the reconnection behaviour of EventSource, are left out: the engines never send them.
- LongPolling.LongPollingStream.WaitNext: the timeout is tested with `>` on reals. PHP's float subtraction of two `microtime` values is not modelled.
- The cURL transfer is a sequence of `(chunk, connection_aborted())` pairs. The request options and `http_build_query` of the payload are not modelled; the upstream request carries the payload as a Json value.
- `session_start`, `session_write_close`, `session_name` and `session_id` are state on the `Session` object. `random_bytes` and `time()` are arguments of `Proxy`. An id equal to an existing key overwrites that record, as in the source.
- PostSse.Client.Forward: the byte count is the length of the chunk's UTF-8 encoding, which is what `strlen` measures when the chunk is UTF-8 text.
- In the browser: `fetch`, `EventSource`, `WebSocket`, `setTimeout` and promise scheduling become inputs.
  - The poll loops are stated over a given sequence of responses.
  - The existence of `EventSource`/`WebSocket` is a `Browser` value.
  - The outcome of a proxy fetch is a `ProxyAnswer`.
  - A WebSocket constructor throwing is a boolean.
  - An EventSource constructor throwing (a `SyntaxError` on a URL it cannot parse) is an optional error message.
  - A REST `fetch` whose request or JSON decoding fails is an absent answer.
- SseStream.Delivered, SseStream.SseEventStream.Push, SseStream.SseEventStream.SendComment, SseStream.HeartbeatThenPush, SseStream.PushAll and SseStream.StreamBody: delivery is promised only for event types, comment texts and heartbeats without CR or LF. src/Stream/SseEventStream.php:55 and :71 write the type and the comment text without escaping, so a line break in them ends the `event:` or comment line early. The rest then parses as further fields, or as data, and the events received differ from the ones pushed. The model states no delivery for such input.
- ClientTransport.ShortPollAnswers, ClientTransport.LongPollAnswers, ClientTransport.ShortPollDeliversEvents and ClientTransport.LongPollDeliversEvents: the page is taken to receive the `Json` value the server encoded. `json_encode` writes an empty PHP array, the model's empty `JObj`, as `[]`, and `res.json()` reads that back as an empty list. So event data holding an empty object reaches the page as an empty list, not as the object these members state.
- `res.json()` and `JSON.parse` of event data are not modelled. A poll or proxy response is taken in its decoded form, and a listener's argument is given as the dispatched type name only.
- TransportClient.EventTransportClient.ConnectSse: the EventSource is recorded as opened on the URL string. JS's `String()` conversion of a non-string endpoint other than null is not modelled.
- TransportClient.EventTransportClient.ConnectWs: the promise settles only in `onopen`, and later socket events are not modelled. Its rejection is the constructor throwing.
- In eventtransportclient.js, `connect` returns `this._connectSSE()` without `await`, so the surrounding `try` never catches an SSE failure. The model reports that as a rejected `Connect`.
- The `send` and `close` methods of the transport classes, and `close` on the page client, are left out. They only forward to a browser object or clear the `running` flag. The poll loops run over a given sequence of responses, so a `close()` from outside between two polls is not modelled.
- `NoStreamTransport.connect` and the `connect` bodies of `SseTransport`/`WebSocketTransport` are outside the modelled loop logic: they open a browser object and forward its callbacks.

## Findings

| source | as written | input that shows it | evidently intended | confidence | as-written member | corrected member |
|---|---|---|---|---|---|---|
| src/Stream/LongPollingEventStream.php:116 | `json_decode($json, true) ?: []` returns any truthy decode result from a method declared to return `array` | a queue file whose content is `1` (or `"x"`, or `true`) | a file that does not hold a list reads as the empty queue, as short polling does at src/Stream/ShortPollingEventStream.php:110 | not executed | QueueStore.LoadLongAsWrittenThrows | QueueStore.LoadLongCorrected |
