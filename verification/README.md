# Verified model of the tc-otel bridge

tc-otel takes log, metric, trace and diagnostic messages off Beckhoff's ADS/AMS protocol and hands them on as
OpenTelemetry data. This project models the parts of it where correctness is hardest to see, and proves what they promise.

- `ConnectionManager`, `Dispatcher`, `Observer`, `Notifier`: the stateful protocols. Each is a class whose methods are proved
  equal to functions on its state. Connection manager and dispatcher are also transition systems: a run is any list of steps of
  any number of threads, so a statement about all runs is one about all interleavings. Locked sections and single atomic
  operations are one step each, and atomics are sequentially consistent.
- `Wire`, `Values`, `Logs`, `Telemetry`, `Parser`: the message parser. What a parser means is a function of the bytes that
  remain; the readers move a cursor and are proved to compute it. `V1Writer`, `LogWriter` and `TelemetryWriter` hold the encoders,
  written from the layouts in `crates/tc-otel-ads/src/protocol.rs` and the comments of the parser, each of which puts a message in front of
  the bytes that follow it. `Limits` bounds what the parser lets through.
- `PushMetrics`, `AggregateMetrics`, `Symbols`, `Ams`, `Router`, `Diagnostics`, `Poller`: the binary codecs and the code
  around them.
- `Formatter`, `Durations`: message templates and duration texts.
- `Bytes`, `Utf8`: integers in little-endian order and UTF-8.

Strings are their UTF-8 bytes, floats their bits, clock readings natural numbers that do not decrease, hash maps maps whose
iteration order is arbitrary. Where the code and its documentation disagree the model follows the code:

- The formatter documents first-appearance numbering without a limit; past 16 distinct keys the code numbers differently
  (`Formatter.ScannerRefinesIff`).
- The removal of idle IPs never happens (`ConnectionManager.TableOnlyGrows`).
- An LTIME count is multiplied by 100 in 64 bits; the model wraps around (`Durations.LtimeReadsBackIff`).
- A dispatcher whose invoke ids come round while a request is still out can close that request's channel
  (`Dispatcher.ListenersSafeIff`).
- Subscribing to a symbol that has a subscription leaves the old one behind (`Notifier.Notifier.Subscribe`); reconciling
  never does this.
- A subscription whose attributes stay the same keeps its old definition and address when a wish for the same symbol
  comes with new ones (`Notifier.TargetIsWishIff`).
- The limit of 64 context variables is only looked at where a scope starts (`Limits.LargestIsRead`).
- Accepted metrics can be lost to a broken v2 entry after them, and accepted span events to a broken v1, v2 or metric
  entry (`Parser.FailsIff`, `Parser.BrokenTailLosesIff`).

`dafny verify dfyconfig.toml` checks the whole project.

## Model

| member | source | states |
|---|---|---|
| `Parser.RoundTrip` | crates/tc-otel-ads/src/parser.rs:48-229 | Every list of encodable messages (v1 logs, v2 logs with typed arguments and grouped context, traced logs, registrations, metrics with histograms, all four span events) that encodes to at most 1 MiB parses to exactly those messages, split by kind and in order; zero padding or the legacy terminator after them is ignored. |
| `Parser.RoundTripFrom` | crates/tc-otel-ads/src/parser.rs:61-228 | From any accumulated state, and whatever follows, parsing encoded messages is accepting them in order and going on with what follows. |
| `Parser.StepReadsBack` | crates/tc-otel-ads/src/parser.rs:72-219 | One turn of the loop on an encoded message accepts that message and leaves exactly what follows it. |
| `Parser.Resync` | crates/tc-otel-ads/src/parser.rs:92-134 | A v2 frame with an accurate non-zero length and an invalid level byte is as good as absent when what follows starts with a byte of the skip set: both buffers parse alike, error cases included. |
| `Parser.BrokenFrameIsSkippedIff` | crates/tc-otel-ads/src/parser.rs:92-134 | For every v2 frame of accurate length that fails to parse, and from any accumulated state: what follows is parsed as if the frame were not there exactly when it starts with 0..6 or 0xFF; otherwise it is lost and the outcome is the error, or what was accepted so far. |
| `Parser.BrokenTracedIsSkippedIff` | crates/tc-otel-ads/src/parser.rs:163-191 | From any state, a broken traced entry is stepped over by its declared length if and only if no log entry and no registration was accepted and at least three bytes were unread at the error; otherwise what was accepted is returned. It never makes the parser fail. |
| `Parser.BadLevelFails` | crates/tc-otel-ads/src/parser.rs:354-358 | A v2 frame whose level byte is above 5 fails whatever the rest of it holds. |
| `Parser.MessagesAreBounded` | crates/tc-otel-ads/src/parser.rs:62-228 | Whatever the buffer, nothing accepted is taken back or reordered, and at most a third as many messages come out as there are bytes. |
| `Limits.ParsedIsWithinLimits` | crates/tc-otel-ads/src/parser.rs:11-30 | Whatever bytes arrive: more than 1 MiB is refused, and every message returned has a valid level, at most 32 arguments or attributes, at most 64 context variables in v1 and 318 in v2, at most 100 buckets with one more count, and span events with texts and lists within their limits. |
| `Limits.TraceWithin` | crates/tc-otel-ads/src/parser.rs:577-880 | Every span event that can be read is one that can be written; since those read back, the reader's results are exactly the encodable events. |
| `Limits.LargestIsRead` | crates/tc-otel-ads/src/parser.rs:386-406 | A v2 entry with 318 context variables is read, so the bound is met and the documented 64 is not kept. |
| `Parser.Step` | crates/tc-otel-ads/src/parser.rs:62-219 | Every turn that continues leaves at least three bytes fewer, although the declared length can move the cursor back into what was read. |
| `Parser.FailureLosesNoLogs` | crates/tc-otel-ads/src/parser.rs:72-219 | An error on a buffer of permitted size means that no log entry and no registration had been accepted; otherwise everything accepted is returned. |
| `Parser.FailsIff` | crates/tc-otel-ads/src/parser.rs:62-228 | For every buffer and every state: parsing fails, and loses all that was accepted, if and only if it ends at a message of kind 1, 2 or 4 to 8 that can be neither read nor stepped over, no log entry and no registration was accepted, and the lists that kind looks at are empty: none for v2, metrics for v1 and metrics, metrics and span events for span events. |
| `Parser.BrokenTailLosesIff` | crates/tc-otel-ads/src/parser.rs:73-219 | For every list of encodable messages before such a broken one: they are lost under exactly that condition on the list, and otherwise all of them are returned. |
| `Parser.MetricLostToBrokenLog` | crates/tc-otel-ads/src/parser.rs:128-131 | For every encodable metric: followed by a truncated v2 header it is accepted, and then lost to the error. |
| `Parser.TraceLostToBrokenLog` | crates/tc-otel-ads/src/parser.rs:128-131 | The same for every encodable span event. |
| `Parser.ParseBuffer` | crates/tc-otel-ads/src/parser.rs:48-229 | The loop over the cursor computes the parsing function of the bytes, for every buffer, without reading out of bounds, and terminates. |
| `Parser.TurnV2` | crates/tc-otel-ads/src/parser.rs:92-134 | A v2 entry, with the recovery by declared length. |
| `Parser.TurnTraced` | crates/tc-otel-ads/src/parser.rs:163-191 | A traced entry, with its own recovery rule, which tests what was left when the error showed. |
| `Parser.TurnOther` | crates/tc-otel-ads/src/parser.rs:73-219 | v1 entries, registrations, metrics and span events, each with its rule for a partial result or an error. |
| `Parser.SkipBrokenV2` | crates/tc-otel-ads/src/parser.rs:110-127 | Recovery succeeds exactly when the declared end lies inside the buffer on a byte of the skip set, and then stands there. |
| `Parser.SkipBrokenTraced` | crates/tc-otel-ads/src/parser.rs:178-188 | Recovery follows the declared length of the header wherever it leads, past the end included. |
| `LogWriter.KeyInjective` | crates/tc-otel-ads/src/parser.rs:403 | Context keys of different scope or name are different, so no two variables of an entry can fall together. |
| `LogWriter.KeyText` | crates/tc-otel-ads/src/parser.rs:403 | A context key is the text scope_, the decimal number of the scope, an underscore and the name. |
| `LogWriter.LastVarWins` | crates/tc-otel-ads/src/parser.rs:386-406 | A context variable that is not set again has its value in the parsed context. |
| `LogWriter.CollectedAreVars` | crates/tc-otel-ads/src/parser.rs:386-406 | The parsed context holds nothing that was not sent. |
| `LogWriter.BodyReadsBack` | crates/tc-otel-ads/src/parser.rs:353-406 | A v2 body of up to 32 typed arguments and any grouped context that the limit of 64 lets through is read back: arguments numbered from 1, context collected, rest untouched. |
| `LogWriter.ArgumentsReadBack` | crates/tc-otel-ads/src/parser.rs:374-384 | Arguments are read back under their numbers, from any point of the loop. |
| `LogWriter.ScopesReadBack` | crates/tc-otel-ads/src/parser.rs:386-406 | Context is read back scope by scope; the limit is checked only where a scope starts. |
| `LogWriter.V2ReadsBack` | crates/tc-otel-ads/src/parser.rs:342-430 | An encoded v2 entry is read back whatever follows, and the cursor lands exactly behind it. |
| `LogWriter.TracedReadsBack` | crates/tc-otel-ads/src/parser.rs:438-534 | The same with trace and span id. |
| `V1Writer.V1ReadsBack` | crates/tc-otel-ads/src/parser.rs:245-340 | An encoded v1 entry, with its tagged items and end marker, is read back whatever follows, as long as the parser's limits on distinct arguments and variables are kept. |
| `V1Writer.ItemsReadBack` | crates/tc-otel-ads/src/parser.rs:283-321 | The items are gathered in order, later ones replacing earlier ones of the same number or key. |
| `V1Writer.TaggedReadsBack` | crates/tc-otel-ads/src/parser.rs:1296-1511 | Every encodable value is read back from its 16-bit type code, enums with a 16-bit underlying type included. |
| `TelemetryWriter.RegistrationReadsBack` | crates/tc-otel-ads/src/parser.rs:536-565 | An encoded registration is read back whatever follows. |
| `TelemetryWriter.MetricReadsBack` | crates/tc-otel-ads/src/parser.rs:1024-1154 | An encoded metric, with bounds and counts exactly when it is a histogram, is read back and the cursor lands behind it. |
| `TelemetryWriter.HistogramReadsBack` | crates/tc-otel-ads/src/parser.rs:1089-1122 | Bounds, one more count than bounds, total and sum are read back. |
| `TelemetryWriter.TraceReadsBack` | crates/tc-otel-ads/src/parser.rs:577-880 | Every encodable span event is read back whatever follows, under every combination of its flags. |
| `TelemetryWriter.BeginReadsBack` | crates/tc-otel-ads/src/parser.rs:598-682 | Optional traceparent and namespace are read exactly when their flag is set. |
| `TelemetryWriter.AttributeReadsBack` | crates/tc-otel-ads/src/parser.rs:683-760 | The first byte of the span id comes from the header; all four value types are read back. |
| `TelemetryWriter.EventReadsBack` | crates/tc-otel-ads/src/parser.rs:761-841 | Up to four inline attributes, with type ids of their own, are read back in order. |
| `TelemetryWriter.EndReadsBack` | crates/tc-otel-ads/src/parser.rs:842-874 | Status and message are read back. |
| `Logs.FileTimeExact` | crates/tc-otel-ads/src/parser.rs:1239-1259 | A FILETIME after 1970 is converted without loss; an earlier one gives the current time. |
| `Logs.DcTaskTimeExact` | crates/tc-otel-ads/src/parser.rs:1266-1282 | A positive task time is converted without loss; any other gives the current time. |
| `Logs.ParseV1` | crates/tc-otel-ads/src/parser.rs:245-340 | The v1 reader, with its tagged items up to the end marker or the end of the buffer, computes the v1 parsing function and keeps the cursor in bounds. |
| `Logs.ReadItems` | crates/tc-otel-ads/src/parser.rs:283-321 | The item loop of v1 terminates and stops at the limits of 32 arguments and 64 context variables. |
| `Logs.ParseV2` | crates/tc-otel-ads/src/parser.rs:342-430 | The v2 reader computes the v2 parsing function; after success the cursor is where the declared length puts it. |
| `Logs.ParseTraced` | crates/tc-otel-ads/src/parser.rs:438-534 | The same for traced entries. |
| `Logs.JumpTo` | crates/tc-otel-ads/src/parser.rs:408-410 | What remains after the jump is what lies behind the declared end, nothing if that is past the buffer. |
| `Logs.ReadArguments` | crates/tc-otel-ads/src/parser.rs:374-384 | The argument loop computes its function, failing at the 33rd argument. |
| `Logs.ReadScopes` | crates/tc-otel-ads/src/parser.rs:386-406 | The nested context loops compute their function. |
| `Telemetry.ParseRegistration` | crates/tc-otel-ads/src/parser.rs:536-565 | The registration reader computes its parsing function and keeps the cursor in bounds. |
| `Telemetry.ParseMetric` | crates/tc-otel-ads/src/parser.rs:1024-1154 | The metric reader computes its parsing function, ending where the declared length says. |
| `Telemetry.ParseTrace` | crates/tc-otel-ads/src/parser.rs:577-880 | The span event reader computes its parsing function and keeps the cursor in bounds. |
| `Values.PutTyped` | crates/tc-otel-ads/src/parser.rs:1514-1727 | Every encodable value of every type id is read back as the JSON value it stands for, whatever follows; floats that JSON cannot hold become null. |
| `Values.NullIffExponentFull32` | crates/tc-otel-ads/src/parser.rs:1528-1534 | A REAL becomes null if and only if its exponent bits are all ones. |
| `Values.NullIffExponentFull64` | crates/tc-otel-ads/src/parser.rs:1535-1541 | The same for LREAL. |
| `Values.OtherTypesAreNull` | crates/tc-otel-ads/src/parser.rs:1514-1727 | A type code outside the table gives null and takes no bytes. |
| `Values.OtherIdsAreNull` | crates/tc-otel-ads/src/parser.rs:1157-1170 | The same for the one-byte type ids of v2, which run to 17 and from 100 to 106. |
| `Values.OtherEnumsAreNull` | crates/tc-otel-ads/src/parser.rs:1680-1707 | An enum is null if and only if its underlying type is not an unsigned integer. |
| `Values.ReadValueWithType` | crates/tc-otel-ads/src/parser.rs:1514-1727 | The value reader computes the value function for every type code and keeps the cursor in bounds. |
| `Values.ReadTagged` | crates/tc-otel-ads/src/parser.rs:1296-1511 | The v1 value reader, whose type codes are 16-bit, computes the same function. |
| `Values.ChunkUnits` | crates/tc-otel-ads/src/parser.rs:1708-1721 | A WSTRING is cut into its 16-bit units. |
| `Wire.Reader.ReadBytes` | crates/tc-otel-ads/src/parser.rs:1192-1203 | A read takes exactly the next bytes or, if there are too few, fails without moving; the cursor stays in bounds. |
| `Wire.Reader.ReadText` | crates/tc-otel-ads/src/parser.rs:1219-1237 | A length byte and as many bytes, decoded lossily. |
| `Utf8.LossyIsValid` | crates/tc-otel-ads/src/parser.rs:1233-1236 | Whatever bytes arrive, lossy decoding yields well-formed text. |
| `Utf8.ValidIffUntouched` | crates/tc-otel-ads/src/parser.rs:1233-1236 | Lossy decoding changes a string exactly when it is not well-formed. |
| `Utf8.ValidIff` | crates/tc-otel-ads/src/parser.rs:1233-1236 | Well-formed bytes are exactly the UTF-8 encodings of sequences of Unicode scalar values. |
| `Utf8.BrokenIsLongest` | crates/tc-otel-ads/src/parser.rs:1233-1236 | One replacement character stands for the longest run of bytes that can begin a character, and for one byte if none can. |
| `Durations.TimeReadsBack` | crates/tc-otel-ads/src/parser.rs:1577-1602 | The text of every TIME value, read as a duration literal, gives the value back, zero and the suffixes m and ms included. |
| `Durations.LtimeReadsBackIff` | crates/tc-otel-ads/src/parser.rs:1603-1641 | The text of an LTIME value gives the value back exactly when its product with 100 fits 64 bits. |
| `Durations.TimeOfDayReadsBack` | crates/tc-otel-ads/src/parser.rs:1642-1660 | Every time of day can be read back from its text, with or without milliseconds. |
| `Durations.ReadPartsOfText` | crates/tc-otel-ads/src/parser.rs:1577-1641 | Every text made of numbers with units is read back to its total. |
| `Durations.RenderTime` | crates/tc-otel-ads/src/parser.rs:1577-1602 | Pushing the components one by one writes the non-zero ones in order, or zero seconds. |
| `Durations.RenderLtime` | crates/tc-otel-ads/src/parser.rs:1603-1641 | The same with seven components. |
| `ConnectionManager.EveryRunKeepsTheLimits` | crates/tc-otel-ads/src/connection_manager.rs:143-202 | In every interleaving of any number of attempts and drops: free and held permits add up to the maximum, the active count is the number of admitted connections and within the maximum, each IP's count is its admitted and unreleased permits and within its limit, and no decrement underflows. |
| `ConnectionManager.DropNeverUnderflows` | crates/tc-otel-ads/src/connection_manager.rs:327-343 | When a permit is dropped, its IP's count and the active count are not zero and the semaphore is not full. |
| `ConnectionManager.EveryWindowWithinRate` | crates/tc-otel-ads/src/connection_manager.rs:163-191 | In every run and for every IP, every half-open second holds at most the permitted number of admissions. |
| `ConnectionManager.RateRefusalIff` | crates/tc-otel-ads/src/connection_manager.rs:179-186 | An attempt below its IP's connection limit is refused for its rate if and only if exactly the permitted number of admissions lies in the second before it. |
| `ConnectionManager.AcquireDecides` | crates/tc-otel-ads/src/connection_manager.rs:143-202 | In every state that any run reaches, an uninterrupted attempt is refused for shutdown if and only if shutdown was called, else for the maximum iff all permits are out, else for its IP iff that IP has its limit of admitted connections (reported with their number), else for its rate iff the last second of the log holds the permitted number of its admissions, and otherwise gets a permit. |
| `ConnectionManager.EverySectionDecides` | crates/tc-otel-ads/src/connection_manager.rs:143-202 | The same for attempts that others interrupt, section by section: the shutdown check, the semaphore and the lock decide by exactly these counts in the state they meet, and an admission is logged with its IP and time. |
| `ConnectionManager.AdmitDecides` | crates/tc-otel-ads/src/connection_manager.rs:163-191 | In every run the locked section refuses and admits exactly by the number of the IP's admitted connections and of its admissions in the last second. |
| `ConnectionManager.ShuttingDownIff` | crates/tc-otel-ads/src/connection_manager.rs:143-148 | In every run the shutdown flag is set if and only if shutdown was called. |
| `ConnectionManager.StampsAreTheLastSecond` | crates/tc-otel-ads/src/connection_manager.rs:97-101 | The kept timestamps are a suffix of the IP's whole admission history, and pruning them gives exactly the admissions of the last second. |
| `ConnectionManager.ShutdownAdmitsNoNewcomer` | crates/tc-otel-ads/src/connection_manager.rs:143-148 | After shutdown only attempts that were already past the shutdown check can be admitted, in every continuation. |
| `ConnectionManager.TotalsAreExact` | crates/tc-otel-ads/src/connection_manager.rs:143-202 | In every run each decided attempt is counted once, as accepted or as rejected. |
| `ConnectionManager.TableOnlyGrows` | crates/tc-otel-ads/src/connection_manager.rs:327-343 | The branch that removes an idle IP never fires: in every run and every continuation of it the table only grows. |
| `ConnectionManager.AloneIsARun` | crates/tc-otel-ads/src/connection_manager.rs:143-202 | The acquire method of the object is the interleaved protocol run by one thread without interruption. |
| `ConnectionManager.DropAloneIsARun` | crates/tc-otel-ads/src/connection_manager.rs:327-343 | The same for dropping a permit. |
| `ConnectionManager.ConnectionManager.TryAcquire` | crates/tc-otel-ads/src/connection_manager.rs:143-202 | Acquire changes the shared state and answers as the acquire function says, rejections included. |
| `ConnectionManager.ConnectionManager.AdmitLocked` | crates/tc-otel-ads/src/connection_manager.rs:163-191 | The locked section: per-IP limit first, then pruning and the rate limit, then the new timestamp. |
| `ConnectionManager.ConnectionManager.PruneTimestamps` | crates/tc-otel-ads/src/connection_manager.rs:97-101 | The loop keeps exactly the timestamps younger than a second. |
| `ConnectionManager.ConnectionManager.DropPermit` | crates/tc-otel-ads/src/connection_manager.rs:327-343 | Dropping gives back the IP slot, the active count and the semaphore permit. |
| `ConnectionManager.ConnectionManager.Shutdown` | crates/tc-otel-ads/src/connection_manager.rs:228-231 | Shutdown sets the flag and nothing else. |
| `Dispatcher.EveryRunCorrelates` | crates/tc-otel-ads/src/dispatcher.rs:421-481 | In every interleaving of sends, publish failures, timeouts and frames: no pending entry outlives its request, a request that returns a reply returns a response carrying its own invoke id, and no waiter is resolved twice. |
| `Dispatcher.FinishedIsFinal` | crates/tc-otel-ads/src/dispatcher.rs:459-480 | What a request returned is not revised in any continuation. |
| `Dispatcher.SameIdIff` | crates/tc-otel-ads/src/dispatcher.rs:434 | In every run two requests share an invoke id if and only if a multiple of 2^32 requests lies between them. |
| `Dispatcher.LateResponseReachesNoOther` | crates/tc-otel-ads/src/dispatcher.rs:421-481 | In every run in which no id comes round while its request is outstanding, however many requests there were: a response to a request whose id has not been drawn again, on either transport, changes no other request and is handed to no other waiter. |
| `Dispatcher.ResolvedIdIff` | crates/tc-otel-ads/src/dispatcher.rs:434-481 | In every run, wraps included: a response given to one request carries the id of another if and only if a multiple of 2^32 requests lies between the two; less than 2^32 apart they are the same request. |
| `Dispatcher.OnlyHolder` | crates/tc-otel-ads/src/dispatcher.rs:447-478 | Under the id of a request that is at most one turn of the counter old, only that request can be registered. |
| `Dispatcher.NoWrapLosesNone` | crates/tc-otel-ads/src/dispatcher.rs:421-481 | If no id comes round while its request is outstanding, no waiter is ever closed by another request and every listening one is registered under its id. |
| `Dispatcher.ListenersSafeIff` | crates/tc-otel-ads/src/dispatcher.rs:447-478 | The requests in flight all keep their listeners under every further schedule if and only if none of them shares its id with one that can still get its reply. |
| `Dispatcher.WrapIsReachable` | crates/tc-otel-ads/src/dispatcher.rs:434-478 | A run from the initial state after which that condition fails: one slow request and 2^32 - 1 failing ones. |
| `Dispatcher.ReplyReachesItsWaiter` | crates/tc-otel-ads/src/dispatcher.rs:748-776 | A reply for a registered waiter is delivered to it on either transport and changes no other request. |
| `Dispatcher.FrameFate` | crates/tc-otel-ads/src/dispatcher.rs:724-776 | For every header and payload, on either transport: a request goes to the sink and touches no waiter; a response goes to the waiter under its id, which is removed, and is dropped if there is none; over MQTT a response for another address is dropped and the sender's route is learned exactly if it is foreign and unknown; a short frame changes nothing. |
| `Dispatcher.RequestOutcomes` | crates/tc-otel-ads/src/dispatcher.rs:421-481 | From any state with a route and a free id: a request that is sent ends with the reply that comes in under its id, or with a timeout, and either way pending map and routes are as before. |
| `Dispatcher.NoRouteIff` | crates/tc-otel-ads/src/dispatcher.rs:429-434 | A request fails at once if and only if its target has no route, and then leaves the shared state alone. |
| `Dispatcher.AmsDispatcher.HandleIncomingMqtt` | crates/tc-otel-ads/src/dispatcher.rs:724-776 | Learns the sender's route if absent, hands requests to the sink, drops responses for others, resolves and removes the waiter of the rest. |
| `Dispatcher.AmsDispatcher.HandleIncomingTcp` | crates/tc-otel-ads/src/dispatcher.rs:602-625 | The same for a TCP frame, without routes and without the address check. |
| `Dispatcher.AmsDispatcher.LearnRoute` | crates/tc-otel-ads/src/dispatcher.rs:102-114 | Says that nothing changed exactly when nothing did. |
| `Dispatcher.AmsDispatcher.LearnRouteIfAbsent` | crates/tc-otel-ads/src/dispatcher.rs:116-126 | Never replaces a route. |
| `Dispatcher.AmsDispatcher.ForgetRoute` | crates/tc-otel-ads/src/dispatcher.rs:128-130 | Removes the route and returns it. |
| `Dispatcher.AmsDispatcher.AllocateInvokeId` | crates/tc-otel-ads/src/dispatcher.rs:434 | Returns the counter and moves it on, wrapping at 2^32. |
| `Ams.ParseOfLayout` | crates/tc-otel-ads/src/ams.rs:103-133 | A header is read back from its 32 bytes whatever payload follows. |
| `Ams.LayoutOfParse` | crates/tc-otel-ads/src/ams.rs:103-148 | The header format has no slack: parsing and laying out gives the same 32 bytes. |
| `Ams.Serialize` | crates/tc-otel-ads/src/ams.rs:135-148 | The nine writes into the buffer produce the wire layout. |
| `Ams.WriteRoundTrip` | crates/tc-otel-ads/src/ams.rs:175-215 | A write request is read back exactly when its data length fits 32 bits, and then whatever follows. |
| `Router.DispatchAnswers` | crates/tc-otel-ads/src/router.rs:74-229 | The reply to any frame parses to swapped addresses, response flags, the same command and invoke id; its length field is its payload length unless a read asked for 2^32 - 8 bytes or more. |
| `Router.AnswerFitsIff` | crates/tc-otel-ads/src/router.rs:98-109 | The length field holds the reply length if and only if the command is not such a read. |
| `Router.AnswerReads` | crates/tc-otel-ads/src/router.rs:85-226 | The reply's payload as a client reads it: result 0 for device info, read, write and read-state and 0x701 for everything else, then state 5, or the device name and version, or as many zero bytes as the read asked for, or nothing. |
| `Router.ReadRequestAsks` | crates/tc-otel-ads/src/router.rs:99-103 | The length a read reply takes from the frame is the one the read request carries. |
| `Router.RequestIsAnswered` | crates/tc-otel-ads/src/router.rs:74-229 | End to end, for every command and payload: the router's reply to a frame built for a waiting request passes the dispatcher's filter, changes no other request, and makes that request return the router's payload. |
| `Observer.CorrelationWindow` | crates/tc-otel-ads/src/diagnostics_observer.rs:67-122 | After any frames at non-decreasing times, a response yields an event exactly when the last known read of its key was not consumed and survived the last sweep: always within 30 s, never after 40 s. |
| `Observer.RequestEventIff` | crates/tc-otel-ads/src/diagnostics_observer.rs:67-77 | Whatever is pending, a request yields an event if and only if it is a write to 0xF200:0x100 with at least 12 bytes, and then it is the reset of the exceed counter. |
| `Observer.StashesIff` | crates/tc-otel-ads/src/diagnostics.rs:503-539 | A request is kept for its response if and only if it is a read of the exceed counter, of task statistics or of real-time usage, with the size and port it names. |
| `Observer.RunAgrees` | crates/tc-otel-ads/src/diagnostics_observer.rs:67-122 | In every run an entry of the map is the last unconsumed read of its key, and an entry is missing only if that read is older than the TTL. |
| `Observer.OverflowIsFresh` | crates/tc-otel-ads/src/diagnostics_observer.rs:84-95 | When an insert leaves more than MAX_PENDING entries, all of them are within the TTL. |
| `Observer.ResponsesAreReads` | crates/tc-otel-ads/src/diagnostics_observer.rs:67-109 | Whatever was fed before, only known reads are pending and a response is decoded as a read, so the write-response decoder is never reached. |
| `Observer.DiagnosticsObserver.FeedFrame` | crates/tc-otel-ads/src/diagnostics_observer.rs:67-109 | Feeding a frame changes the map and answers as the feed function says. |
| `Observer.DiagnosticsObserver.GcNow` | crates/tc-otel-ads/src/diagnostics_observer.rs:118-122 | Keeps exactly the entries within the TTL. |
| `Observer.DiagnosticsObserver.MaybeGc` | crates/tc-otel-ads/src/diagnostics_observer.rs:111-116 | Sweeps only when the interval has passed. |
| `Diagnostics.StashedAreKnownReads` | crates/tc-otel-ads/src/diagnostics.rs:503-539 | A request that yields no event of its own is kept for its response only if it is a known read. |
| `Diagnostics.ReadEventIff` | crates/tc-otel-ads/src/diagnostics.rs:589-621 | A read response yields an event if and only if it reports success and holds the data it announces, of the length that belongs to the read. |
| `Diagnostics.ExceedCounterReadsBack` | crates/tc-otel-ads/src/diagnostics.rs:602-606 | The exceed counter is read back from its reply. |
| `Diagnostics.TaskStatsReadBack` | crates/tc-otel-ads/src/diagnostics.rs:607-613 | Task statistics are read back from their 16 bytes, cycle counter before type marker, with the port of the request. |
| `Diagnostics.RtUsageReadsBack` | crates/tc-otel-ads/src/diagnostics.rs:614-618 | Real-time usage is read back from its 24 bytes. |
| `Poller.OneEventPerPoll` | crates/tc-otel-ads/src/diagnostics_poller.rs:152-270 | For every target and counter start with at most 2^32 polls: feeding one tick's polls and well-formed answers in any order within the TTL yields exactly one event per poll, task statistics with the polled port, and leaves none pending. |
| `Poller.ReadFrameParses` | crates/tc-otel-ads/src/diagnostics_poller.rs:152-182 | A poll frame parses to a read request with the right addresses, invoke id and a 12-byte body. |
| `Poller.ReadsAreDue` | crates/tc-otel-ads/src/diagnostics_poller.rs:187-270 | The plan holds, in this order, one read of the exceed counter on the lowest task port (the real-time port without tasks) if that is switched on, one of the usage on the real-time port if that is, and one of the statistics of every task port. |
| `Poller.BuildPollsForTarget` | crates/tc-otel-ads/src/diagnostics_poller.rs:187-270 | The loop plans the polls of the plan function and moves the counter by their number. |
| `Poller.MinPort` | crates/tc-otel-ads/src/diagnostics_poller.rs:199-204 | The exceed counter is read on the smallest task port, or the real-time port if there is none. |
| `Notifier.Notifier.Reconcile` | crates/tc-otel-client/src/notify.rs:158-218 | From any consistent state, for any iteration order and any backend behaviour: the tables stay consistent on every path, and the backend watches every subscription at its own address with its own attributes; a missing config changes nothing; even on an error every subscription is the old or the wanted one; on success what was subscribed with the wanted attributes is untouched and everything else is exactly the wanted subscription, the report lists exactly the differences, the calls are as many as reported, and a backend that held no other handles before holds none after; a reliable backend means success. |
| `Notifier.TargetIsWishIff` | crates/tc-otel-client/src/notify.rs:172-215 | A successful reconciliation always gives every symbol the wanted attributes; the subscriptions are the wanted ones in full, address and definition included, if and only if those that stay already were. |
| `Notifier.Notifier.ReconcileTwice` | crates/tc-otel-client/src/notify.rs:158-218 | Whatever an earlier run left behind, a later successful one reaches the wanted state, and another one then succeeds with an empty report and no backend call. |
| `Notifier.Notifier.RemovePass` | crates/tc-otel-client/src/notify.rs:172-205 | The first pass keeps what is right, removes the rest and notes what changed; a failure leaves old subscriptions only. |
| `Notifier.Notifier.AddPass` | crates/tc-otel-client/src/notify.rs:207-215 | The second pass subscribes what is left and sorts it into added and changed. |
| `Notifier.Notifier.Subscribe` | crates/tc-otel-client/src/notify.rs:129-143 | The backend is asked for exactly the attributes of the definition at the address of the symbol, and the tables hold both under the handle it returns; the tables stay mutually inverse if and only if the backend failed or the symbol had no subscription before. |
| `Notifier.Notifier.Unsubscribe` | crates/tc-otel-client/src/notify.rs:145-152 | The local tables forget the handle whether or not the backend call works. |
| `Notifier.InsertKeepsInverseIff` | crates/tc-otel-client/src/notify.rs:132-141 | With a fresh handle the two tables stay inverse exactly when the symbol was free. |
| `Notifier.RemoveKeepsInverse` | crates/tc-otel-client/src/notify.rs:145-149 | Removing a handle keeps the tables inverse and drops one symbol. |
| `Notifier.BuildWishes` | crates/tc-otel-client/src/notify.rs:164-171 | The desired map is built, or refused as a whole if one entry has no config. |
| `Notifier.LastWishWins` | crates/tc-otel-client/src/notify.rs:164-171 | Of several entries for a symbol the last one counts. |
| `Notifier.WishesAreAskedFor` | crates/tc-otel-client/src/notify.rs:164-171 | Nothing is wanted that the list does not ask for. |
| `Notifier.FromDef` | crates/tc-otel-client/src/notify.rs:45-61 | Attributes exist exactly for a definition with a config, and the cycle time is the minimum period, but at least 10 ms. |
| `AggregateMetrics.AcceptedLength` | crates/tc-otel-ads/src/diagnostics_push.rs:352-563 | An accepted frame is exactly as long as 52 bytes, the optional trace context, name, unit, the optional namespace and the slots; offsets and times are there exactly when their flag is set, with one element per sample. |
| `AggregateMetrics.AcceptedIff` | crates/tc-otel-ads/src/diagnostics_push.rs:352-474 | A frame is accepted if and only if version and type fit, its format is possible, not both stamp flags are set, its labels lie inside it and are well-formed text, and exactly the announced slots follow them. |
| `AggregateMetrics.PossibleIff` | crates/tc-otel-ads/src/diagnostics_push.rs:377-396 | Which sample sizes go with which schema; a statistics schema needs a non-empty mask and eight bytes for each of its bits. |
| `AggregateMetrics.PopCountIsSum` | crates/tc-otel-ads/src/diagnostics_push.rs:389-394 | The number of statistics is the sum of the eight bits of the mask. |
| `AggregateMetrics.FlagBits` | crates/tc-otel-ads/src/diagnostics.rs:97-126 | Trace context, cycle offsets, namespace and times are bits 0, 2, 3 and 4 of the flags. |
| `AggregateMetrics.AggregateReadsBack` | crates/tc-otel-ads/src/diagnostics_push.rs:352-563 | Every aggregate, of all six body schemas and under every legal combination of flags, is read back from its encoding and refused with any trailing byte. |
| `AggregateMetrics.SampleReadsBack` | crates/tc-otel-ads/src/diagnostics_push.rs:502-539 | Each kind of sample is read back from its slot, zero-padded strings included. |
| `AggregateMetrics.SlotsLength` | crates/tc-otel-ads/src/diagnostics_push.rs:446-474 | The slots can be read exactly when count times stride bytes are there, and fill the three vectors accordingly. |
| `AggregateMetrics.DecodeMetricAggregate` | crates/tc-otel-ads/src/diagnostics_push.rs:352-563 | The decoder, working with offsets, computes the field-by-field meaning of every frame, without reading out of bounds. |
| `AggregateMetrics.DecodeSlots` | crates/tc-otel-ads/src/diagnostics_push.rs:487-541 | The slot loop, indexing by stride, reads the slots one after the other. |
| `AggregateMetrics.DecodeSample` | crates/tc-otel-ads/src/diagnostics_push.rs:502-539 | One slot by schema. |
| `PushMetrics.DescriptorReadsBack` | crates/tc-otel-ads/src/diagnostics_push.rs:222-335 | On an encoded descriptor followed by any bytes the descriptor and the rest come back: up to 8 attributes, bounds only for kind 2. |
| `PushMetrics.BatchReadsBack` | crates/tc-otel-ads/src/diagnostics_push.rs:151-218 | Every batch of descriptors and samples is read back from its encoding and refused with any trailing byte. |
| `PushMetrics.DecodeMetricBatch` | crates/tc-otel-ads/src/diagnostics_push.rs:151-218 | The decoder, working with offsets, computes the field-by-field meaning of every frame, without reading out of bounds. |
| `PushMetrics.ParseDescriptor` | crates/tc-otel-ads/src/diagnostics_push.rs:222-335 | The descriptor parser computes the field-by-field meaning and the number of bytes it took. |
| `Symbols.ParsersAgree` | crates/tc-otel-ads/src/symbol.rs:99-208 | For every list of symbols with NUL-free UTF-8 strings of at most 65535 bytes, both parsers return exactly that list from the serialised table. |
| `Symbols.EntriesAgreeIff` | crates/tc-otel-ads/src/symbol.rs:99-152 | On any bytes that both parsers accept as an entry they read the same symbol if and only if each string of declared length holds no zero and is followed by one. |
| `Symbols.EntryAcceptedIff` | crates/tc-otel-ads/src/symbol.rs:99-152 | Exactly which bytes each of the two parsers takes for an entry, by the declared lengths and the strings. |
| `Symbols.LeftoverBytes` | crates/tc-otel-ads/src/symbol.rs:191-208 | What is left after the last entry is overlooked by the first parser up to three bytes, by the second up to 29, and refused beyond. |
| `Symbols.TableReadsBack` | crates/tc-otel-ads/src/symbol.rs:187-208 | The first parser returns the serialised list. |
| `Symbols.NodesReadBack` | crates/tc-otel-client/src/browse.rs:133-193 | The second parser returns the serialised list up to the announced number of symbols. |
| `Symbols.GetIsLastNamed` | crates/tc-otel-client/src/browse.rs:93-97 | Looking up a name gives what a linear scan finds as the last node of that name. |
| `Symbols.ParseTable` | crates/tc-otel-ads/src/symbol.rs:187-208 | The loop computes the table function on arbitrary bytes, in bounds, and terminates. |
| `Symbols.ParseEntry` | crates/tc-otel-ads/src/symbol.rs:99-152 | One entry by its header and terminated strings, on arbitrary bytes. |
| `Symbols.ParseUpload` | crates/tc-otel-client/src/browse.rs:133-196 | The loop computes the node list and its index on arbitrary bytes, in bounds, and terminates. |
| `Symbols.ParseNode` | crates/tc-otel-client/src/browse.rs:149-174 | The checks on the declared lengths keep every slice inside the buffer. |
| `Symbols.GetNode` | crates/tc-otel-client/src/browse.rs:149-174 | An accepted entry is at least 32 bytes long, so the cursor always advances. |
| `Symbols.Serialize` | crates/tc-otel-ads/src/symbol.rs:155-183 | Appending field by field writes the entry layout in front of whatever follows. |
| `Formatter.ScannerRefinesIff` | crates/tc-otel-core/src/formatter.rs:22-113 | The scanner writes, for all arguments and contexts, what the documentation asks for if and only if every name beyond the first 16 distinct keys stands at its first appearance and before any number beyond them. |
| `Formatter.SixteenKeysAreSafe` | crates/tc-otel-core/src/formatter.rs:22-113 | With at most 16 distinct keys the output is the documented one: numbers by index, names by rank of first appearance and then by context, anything else verbatim. |
| `Formatter.NumberNamesArgument` | crates/tc-otel-core/src/formatter.rs:49-51 | A hole with a number, however many zeros or a plus sign stand in front, names the argument one further; 2^64 - 1 wraps to argument 0, and a larger number is not one. |
| `Formatter.NumericArgIff` | crates/tc-otel-core/src/formatter.rs:49 | A key names an argument by number if and only if it is a decimal number below 2^64, with any zeros and an optional plus sign in front. |
| `Formatter.NumberHoleIsArgument` | crates/tc-otel-core/src/formatter.rs:49-55 | A template that is one such hole writes that argument, or itself if there is none. |
| `Formatter.NamesByPosition` | crates/tc-otel-core/src/formatter.rs:63-88 | A template of different names, however many, writes for each the argument of its position, else the context value of its name, else the name in its braces. |
| `Formatter.CrowdedParts` | crates/tc-otel-core/src/formatter.rs:64-79 | A template with 17 distinct names, the last one twice, on which the scanner and the documentation differ. |
| `Formatter.EmptyMapsKeepTemplate` | crates/tc-otel-core/src/formatter.rs:22-113 | Without arguments and context the output is the template, for every template. |
| `Formatter.TokensCover` | crates/tc-otel-core/src/formatter.rs:42-110 | Cutting a template into text and holes loses nothing. |
| `Formatter.NoHoles` | crates/tc-otel-core/src/formatter.rs:27-29 | The shortcut for templates without a brace returns what the scanner would. |
| `Formatter.FormatWithContext` | crates/tc-otel-core/src/formatter.rs:22-113 | The single pass over the bytes with its 16-slot array computes the scanner function of the tokens. |
| `Formatter.TakeHole` | crates/tc-otel-core/src/formatter.rs:46-88 | One hole: the value to write, if any, and the new table. |
| `Formatter.FindSeen` | crates/tc-otel-core/src/formatter.rs:57-68 | The table is searched from the front. |
| `Formatter.MemchrBrace` | crates/tc-otel-core/src/formatter.rs:152-161 | The first closing brace from a position on. |
| `Formatter.ExtractPlaceholders` | crates/tc-otel-core/src/formatter.rs:116-139 | Lists exactly the non-empty keys of the holes, in order. |

## Left out

- Sockets, MQTT event loops, TCP dialling and reconnection, channels with dropping sends and timers; of each only the step on shared state is modelled.
- The texts of errors; in the push and symbol decoders also their kinds, since those decoders are modelled as accepting or refusing.
- The `spans` of a parse result, which no message fills; the limit on string lengths, which a length byte cannot exceed; the entry point for a single v1 entry.
- `decode_batch` for task diagnostics, whose header and samples have fixed sizes.
- The payload parser of device notifications (crates/tc-otel-client/src/notify.rs:475-522) and the dispatch of samples.
- Topic names and the info XML of the MQTT broker (crates/tc-otel-ads/src/dispatcher.rs:667-690).
- Registry lookups and the enrichment of log entries in `dispatch_write_sync` (crates/tc-otel-ads/src/router.rs:231-314).
- The dead parser `parse_span_from_reader` and the dead `dispatch_write`.
- Exporter, receiver, caches, configuration, health metrics and the web interface.
- What a float means, the replacement of broken UTF-16, and the calendar text of DATE and DATE_AND_TIME, which a library writes.
- How a JSON value is written into a message; the formatter takes the written text of each value.
- The current time that stands in for an unset clock is the constant `Now`.
- ConnectionManager.TotalsAreExact: the statistics counters are raised in the step that decides an attempt, not in one of their own, because nothing reads them in between.
- Dispatcher.EveryRunCorrelates: a request's future runs to its end; a future dropped in the middle is not modelled.
- Notifier.Notifier.Reconcile: the two locks are taken as one, because the notifier is modelled for one caller at a time.
- Symbols.Serialize: lengths that do not fit their field are cut as in the source; the round trip is claimed for those that fit.
