# TradingViewAPI protocol engine, modelled in Dafny

This project models the core of `TradingViewAPI`. That class is a Kotlin
client for TradingView's streaming quote service. It does four things:

- It opens a websocket and greets the server with a handshake: auth token,
  quote session, field list and resubscriptions.
- It splits each text frame into `~m~<length>~m~<payload>` envelopes.
- It answers pings and merges `qsd` field deltas into per-ticker snapshots.
- It resumes callers waiting in `getOrRetrieveTicker` once a snapshot has
  every required field, and reconnects with an exponential backoff.

Modules, one per file:

| file | module | what it holds |
|---|---|---|
| `wrappers.dfy` | `Wrappers` | `Option` and `Result` |
| `json_values.dfy` | `JsonValues` | the JSON element tree the client reads and writes, and `content` |
| `framing.dfy` | `Framing` | the envelope writer (`sendMessage`) and reader (`splitAndProcessMessage`'s regex scan), with their proofs |
| `commands.dfy` | `Commands` | the command objects: `set_auth_token`, `quote_create_session`, `quote_set_fields` and `quote_add_symbols` |
| `ticker_store.dfy` | `TickerStore` | snapshots, the merge of a delta, and the required-field test |
| `callbacks.dfy` | `Callbacks` | the per-ticker callback table: a one-shot waiter or a listener |
| `backoff.dfy` | `Backoff` | the reconnect delay and the watchdog's overdue test |
| `dispatch.dfy` | `Dispatch` | the client as a state machine: one function per operation, from a `State` to the next |
| `protocol.dfy` | `Protocol` | properties that span several operations, or that tie the state machine to the wire format |
| `client.dfy` | `Client` | class `TradingViewApi`: the Kotlin fields as mutable fields, and methods that update them in place |

Each method of `TradingViewApi` ensures that the object ends in the state
the matching `Dispatch` function computes. Every property proved of
`Dispatch` and `Protocol` therefore holds of the object.

Where the code behaves in a surprising way, the model follows the code:

- An envelope's length counts `String.length` units, which are UTF-16 code
  units, not bytes. The reader also takes the declared number of characters
  with `substring`. Text that does not match `~m~<digits>~m~` is skipped.
  Only a match whose declared length overflows `toInt()`, or runs past the
  end of the text, throws.
- The regex scan resumes right after each prefix, not after the payload. So
  a payload that itself contains an envelope is delivered twice: whole, and
  then the inner payload (`Framing.NestedEnvelopeDeliveredTwice`).
- An error quote (`s == "error"`) for a ticker with a callback makes that
  callback rethrow `InvalidTickerException`. The exception leaves
  `processMessage`, and the read loop ends. The pending waiter is neither
  resumed nor failed. An error quote for a ticker without a callback is
  silently dropped.
- `shutdown()` does not stop reconnection. Closing the session ends the read
  loop, and the connection coroutine then waits out the backoff delay and
  calls `connect()`, which clears `isShuttingDown`.
- `ready` is set by the first handshake and is never reset.
- A second `getOrRetrieveTicker` for a ticker that is still pending replaces
  the first caller's waiter. The first caller is never resumed
  (`Protocol.LaterRetrievalReplacesWaiter`).
- The delay `2^tries * 1000` is computed in `double` and converted to `Long`.
  The product is exact until it exceeds the largest double, from about 1014
  attempts on, where it becomes infinity. `toLong()` saturates at
  `Long.MAX_VALUE` for every value above that bound, infinity included. So the
  delay is the integer product capped at `Long.MAX_VALUE`, and the cap applies
  from attempt 54 on.
- `registerTicker` does not add the ticker to `subscribedTickers`; only its
  first quote does. A retrieval still waiting for its first quote when the
  connection drops is therefore not resubscribed by the next handshake, and
  its caller stays suspended until someone subscribes to that ticker again.
  The model follows the code: `Dispatch.GetOrRetrieve` leaves the ticker map
  unchanged, and `Dispatch.Handshake` replays only the ticker map's keys.
- The default `requiredFields` of `getOrRetrieveTicker` is
  `defaultTickerFields` (line 153). The model has no default arguments; a
  caller gets that default by passing `cfg.tickerFields`, which the constructor
  sets to the default list.
- `connect()` increments `connectionTries` before its first attempt (line 88).
  A fresh client therefore counts attempt 2 when its first session opens, and
  if that connection is lost before the handshake it waits 4000 ms, not 2000
  (`Protocol.FreshClientBackoff`). Only a connection that reached the handshake,
  which resets the counter to 1, waits 2000 ms.
- `shutdownSession()` reads the `session` getter. Before any session was
  opened, that getter throws. The model reports this as `ok == false`: the
  maps are not cleared, and the reconnecting coroutine ends.

## Model

| member | source | states |
|---|---|---|
| JsonValues.Content | src/main/kotlin/net/perfectdreams/tradingviewscraper/TradingViewAPI.kt:276-283 | `content` is defined exactly for primitives and null, and a string's content is the string; arrays and objects throw |
| Framing.Decimal | src/main/kotlin/net/perfectdreams/tradingviewscraper/TradingViewAPI.kt:351 | the length written into an envelope is a non-empty run of digits, without a leading zero, whose value is the payload length |
| Framing.Frame | src/main/kotlin/net/perfectdreams/tradingviewscraper/TradingViewAPI.kt:351 | `sendMessage`'s envelope: `~m~`, the payload length in decimal, `~m~`, then the payload; its layout is proved by `Framing.FrameLayout` and its inverse by `Framing.DecodeFrame` |
| Framing.Frames | src/main/kotlin/net/perfectdreams/tradingviewscraper/TradingViewAPI.kt:351 | back-to-back envelopes take at least 7 characters each |
| Framing.PrefixAt | src/main/kotlin/net/perfectdreams/tradingviewscraper/TradingViewAPI.kt:28 | a match of `~m~(\d+)~m~` found at index j starts with `~m~` at j and ends at least 7 characters later, inside the text |
| Framing.DigitRun | src/main/kotlin/net/perfectdreams/tradingviewscraper/TradingViewAPI.kt:28 | the greedy digit run of the regex stays inside the text |
| Framing.NextPrefix | src/main/kotlin/net/perfectdreams/tradingviewscraper/TradingViewAPI.kt:218 | the next match found starts at or after the search position and lies inside the text |
| Framing.NextPrefixLeftmost | src/main/kotlin/net/perfectdreams/tradingviewscraper/TradingViewAPI.kt:218 | the match found is a match, and no match starts between the search position and it; when none is found, no match starts anywhere after the search position |
| Framing.FindAll | src/main/kotlin/net/perfectdreams/tradingviewscraper/TradingViewAPI.kt:218 | every match it yields starts at or after the search position and lies inside the text, so it yields at most one match per 7 characters |
| Framing.FindAllFirst | src/main/kotlin/net/perfectdreams/tradingviewscraper/TradingViewAPI.kt:218 | no match starts before the first one it yields, and none at all when it yields none |
| Framing.FindAllComplete | src/main/kotlin/net/perfectdreams/tradingviewscraper/TradingViewAPI.kt:218 | no match starts between the end of one match it yields and the start of the next |
| Framing.FindAllLast | src/main/kotlin/net/perfectdreams/tradingviewscraper/TradingViewAPI.kt:218 | no match starts after the end of the last match it yields |
| Framing.FindAllMatches | src/main/kotlin/net/perfectdreams/tradingviewscraper/TradingViewAPI.kt:218-220 | every match `findAll` yields is a regex match at its own position, and each ends before the next begins |
| Framing.DecodeIsExtraction | src/main/kotlin/net/perfectdreams/tradingviewscraper/TradingViewAPI.kt:218-225 | splitting succeeds exactly when every match's payload is in bounds and its length fits an Int; the messages are then, match by match and in order, the declared number of characters after each prefix |
| Framing.DecodeFrom | src/main/kotlin/net/perfectdreams/tradingviewscraper/TradingViewAPI.kt:218-225 | the scan of `splitAndProcessMessage` from a position: each match contributes the declared number of characters after it, the scan resumes after the prefix, and it fails on the first match whose length is not an Int or runs past the end (its guarantees are `Framing.DecodeErrors` and `Framing.DecodeIsExtraction`) |
| Framing.DecodeErrors | src/main/kotlin/net/perfectdreams/tradingviewscraper/TradingViewAPI.kt:218-225 | no further match means no further messages; the scan fails with `LengthNotInt` only for a declared length above Int.MAX_VALUE, and with `PastEnd` only when fewer characters remain than the match declares |
| Framing.Decode | src/main/kotlin/net/perfectdreams/tradingviewscraper/TradingViewAPI.kt:218-225 | the whole frame splits exactly when every match is in bounds, and then into the payloads of the matches, in order |
| Framing.Payloads | src/main/kotlin/net/perfectdreams/tradingviewscraper/TradingViewAPI.kt:224 | one message per match, in order, each being the substring its prefix announces |
| Framing.NoPrefixNoMessages | src/main/kotlin/net/perfectdreams/tradingviewscraper/TradingViewAPI.kt:218-225 | text in which the regex matches nowhere yields no messages and no error |
| Framing.SplitMessages | src/main/kotlin/net/perfectdreams/tradingviewscraper/TradingViewAPI.kt:214-225 | the message-collecting loop returns exactly the decoded messages, and fails (length not an Int, payload past the end) exactly where the Kotlin code throws |
| Framing.DecodeFromShift | src/main/kotlin/net/perfectdreams/tradingviewscraper/TradingViewAPI.kt:218-224 | the scan only looks forward: text in front of the scan position does not change what is split from there on |
| Framing.FrameLayout | src/main/kotlin/net/perfectdreams/tradingviewscraper/TradingViewAPI.kt:351 | an envelope is `~m~`, the length digits, `~m~` and the payload, and is 6 characters longer than its payload and its digits together |
| Framing.DecodeOneFrame | src/main/kotlin/net/perfectdreams/tradingviewscraper/TradingViewAPI.kt:218-225 | splitting an envelope followed by more text yields its payload followed by what the rest yields |
| Framing.DecodeFrames | src/main/kotlin/net/perfectdreams/tradingviewscraper/TradingViewAPI.kt:351 | round trip: splitting back-to-back envelopes of payloads without `~m~` yields exactly those payloads, in order |
| Framing.DecodeFrame | src/main/kotlin/net/perfectdreams/tradingviewscraper/TradingViewAPI.kt:351 | round trip: one envelope of a payload without `~m~` splits into exactly that payload |
| Framing.NestedEnvelopeDeliveredTwice | src/main/kotlin/net/perfectdreams/tradingviewscraper/TradingViewAPI.kt:218-225 | because the scan resumes after the prefix, an envelope whose payload is itself an envelope is delivered twice: whole, then the inner payload |
| Commands.MessageFields | src/main/kotlin/net/perfectdreams/tradingviewscraper/TradingViewAPI.kt:342-348 | a command object reads back its method `m` and its parameter list `p` |
| Commands.Authenticated | src/main/kotlin/net/perfectdreams/tradingviewscraper/TradingViewAPI.kt:342-348 | an authenticated command carries its method, and its parameters are the session id followed by the method's own data |
| Commands.AuthToken | src/main/kotlin/net/perfectdreams/tradingviewscraper/TradingViewAPI.kt:316-325 | `set_auth_token` whose only parameter is the token (it carries no session id) |
| Commands.CreateQuoteSession | src/main/kotlin/net/perfectdreams/tradingviewscraper/TradingViewAPI.kt:327-331 | `quote_create_session` whose only parameter is the session id |
| Commands.Strings | src/main/kotlin/net/perfectdreams/tradingviewscraper/TradingViewAPI.kt:335-336 | each field name becomes one JSON string, in order |
| Commands.SetQuoteFields | src/main/kotlin/net/perfectdreams/tradingviewscraper/TradingViewAPI.kt:333-340 | `quote_set_fields` with the session id followed by every field name, in order |
| Commands.AddSymbol | src/main/kotlin/net/perfectdreams/tradingviewscraper/TradingViewAPI.kt:192-203 | `quote_add_symbols` with the session id, the ticker and `{"flags":["force_permission"]}` |
| Commands.AddSymbolNamesTicker | src/main/kotlin/net/perfectdreams/tradingviewscraper/TradingViewAPI.kt:192-203 | the ticker and the session id can be read back from the subscribe command |
| Commands.DefaultFieldsShape | src/main/kotlin/net/perfectdreams/tradingviewscraper/TradingViewAPI.kt:40-81 | the default field list has 36 entries; `is_tradable` and `volume` appear twice |
| TickerStore.Merge | src/main/kotlin/net/perfectdreams/tradingviewscraper/TradingViewAPI.kt:291-302 | the new snapshot's keys are the delta's and the old snapshot's; the delta's values win; every other old value is kept |
| TickerStore.MergeFirst | src/main/kotlin/net/perfectdreams/tradingviewscraper/TradingViewAPI.kt:291-302 | with no earlier snapshot the new snapshot is the delta |
| TickerStore.MergeIdempotent | src/main/kotlin/net/perfectdreams/tradingviewscraper/TradingViewAPI.kt:291-302 | applying the same delta twice changes nothing more |
| TickerStore.MergeTwice | src/main/kotlin/net/perfectdreams/tradingviewscraper/TradingViewAPI.kt:291-302 | two deltas in a row equal one combined delta in which the later values win |
| TickerStore.MergeKeepsFields | src/main/kotlin/net/perfectdreams/tradingviewscraper/TradingViewAPI.kt:291-302 | a snapshot that has all the required fields keeps them through any later delta |
| TickerStore.MergeExample | src/main/kotlin/net/perfectdreams/tradingviewscraper/TradingViewAPI.kt:291-302 | `{lp: 9, ch: 1}` updated by `{lp: 10}` is `{lp: 10, ch: 1}` |
| TickerStore.HasFields | src/main/kotlin/net/perfectdreams/tradingviewscraper/TradingViewAPI.kt:170 | the `anyKeyMissing` test: a snapshot has the required fields exactly when every field in the list is one of its keys |
| TickerStore.MissingFields | src/main/kotlin/net/perfectdreams/tradingviewscraper/TradingViewAPI.kt:176 | the list of missing fields, which the source computes only for a debug log message: a field is in it exactly when it is required and absent |
| TickerStore.NothingMissing | src/main/kotlin/net/perfectdreams/tradingviewscraper/TradingViewAPI.kt:170-176 | a diagnostic: the logged list of missing fields is empty exactly when every required field is present |
| Callbacks.WaiterGating | src/main/kotlin/net/perfectdreams/tradingviewscraper/TradingViewAPI.kt:165-179 | a waiter resumes its caller and removes itself exactly when every required field is present; otherwise nothing happens; no other ticker's entry is touched |
| Callbacks.ListenerAlwaysCalled | src/main/kotlin/net/perfectdreams/tradingviewscraper/TradingViewAPI.kt:183-190 | a listener is handed every snapshot and stays registered |
| Callbacks.NoCallbackNoEffect | src/main/kotlin/net/perfectdreams/tradingviewscraper/TradingViewAPI.kt:310 | with no callback for the ticker, invoking does nothing |
| Callbacks.Invoke | src/main/kotlin/net/perfectdreams/tradingviewscraper/TradingViewAPI.kt:310 | invoking a ticker's callback emits at most one event, only when the ticker has a callback, and only with the snapshot it was handed; it never adds an entry, never touches another ticker's entry, and leaves a listener installed |
| Backoff.ReconnectDelay | src/main/kotlin/net/perfectdreams/tradingviewscraper/TradingViewAPI.kt:129 | the delay never exceeds Long.MAX_VALUE, and is at least one second unless it is capped |
| Backoff.FirstDelays | src/main/kotlin/net/perfectdreams/tradingviewscraper/TradingViewAPI.kt:129 | attempts 1, 2, 3 and 4 wait 2000, 4000, 8000 and 16000 ms |
| Backoff.DelayDoubles | src/main/kotlin/net/perfectdreams/tradingviewscraper/TradingViewAPI.kt:129 | below the cap, each further attempt doubles the delay |
| Backoff.DelayMonotone | src/main/kotlin/net/perfectdreams/tradingviewscraper/TradingViewAPI.kt:129 | more attempts never mean a shorter delay |
| Backoff.DelaySaturates | src/main/kotlin/net/perfectdreams/tradingviewscraper/TradingViewAPI.kt:129 | from 54 attempts on, the delay is Long.MAX_VALUE |
| Backoff.PingOverdue | src/main/kotlin/net/perfectdreams/tradingviewscraper/TradingViewAPI.kt:264 | the watchdog's test: more than `pingInterval` milliseconds since the last ping (its effect is stated by `Dispatch.WatchdogRound` and `Protocol.HandshakeRestartsWatchdog`) |
| Dispatch.Defaults | src/main/kotlin/net/perfectdreams/tradingviewscraper/TradingViewAPI.kt:20-23 | the configuration of a client built with the default arguments: token `unauthorized_user_token`, ping interval 20000 ms, the default field list; the constructor's contract states that a client built with those arguments has this configuration |
| Dispatch.InitialValid | src/main/kotlin/net/perfectdreams/tradingviewscraper/TradingViewAPI.kt:35-39 | a fresh client's ticker order and ticker map agree |
| Dispatch.QuoteOf | src/main/kotlin/net/perfectdreams/tradingviewscraper/TradingViewAPI.kt:281-284 | the quote is read exactly when `p` is an array whose second item is an object with string-like `s` and `n` and an object `v`, and it is made of exactly those; anything else throws |
| Dispatch.Classify | src/main/kotlin/net/perfectdreams/tradingviewscraper/TradingViewAPI.kt:235-280 | `~h~` payloads are pings whatever follows; payloads not wrapped in braces are ignored; a braced payload that does not parse is unparsable; a parsed object with `session_id` is a greeting, and without it but with `m` equal to `qsd` it is the quote `QuoteOf` reads; a parsed object with neither `session_id` nor `m`, or whose `m` is a primitive other than `qsd`, or a parsed value that is not an object, is ignored; an object whose `m` is an array or an object is unparsable (its `content` throws); conversely a greeting or a quote is only ever such an object |
| Dispatch.Replay | src/main/kotlin/net/perfectdreams/tradingviewscraper/TradingViewAPI.kt:256-258 | one subscribe command per known ticker, in insertion order |
| Dispatch.HandshakeCommands | src/main/kotlin/net/perfectdreams/tradingviewscraper/TradingViewAPI.kt:246-248 | three commands: `set_auth_token` with the token, `quote_create_session` with the session id, and `quote_set_fields` with the session id and every configured field, in order |
| Dispatch.ReplayAppend | src/main/kotlin/net/perfectdreams/tradingviewscraper/TradingViewAPI.kt:256-258 | one more ticker adds its subscribe command at the end |
| Dispatch.ApplyQuote | src/main/kotlin/net/perfectdreams/tradingviewscraper/TradingViewAPI.kt:280-311 | error quote: the state is unchanged, and it fails exactly when the ticker has a callback; otherwise: no failure, the ticker's snapshot becomes the merge of the delta into its old one (other snapshots unchanged), a new ticker is appended to the order, the ticker's callback is invoked with the merged snapshot and its table and events become the state's, and nothing else changes (nothing is sent); the ticker-order invariant is kept |
| Dispatch.Absorb | src/main/kotlin/net/perfectdreams/tradingviewscraper/TradingViewAPI.kt:291-310 | the delta is merged into the ticker's snapshot, a new ticker is appended to the order, then the ticker's callback is invoked with the merged snapshot; nothing else changes and the ticker-order invariant is kept |
| Dispatch.Pong | src/main/kotlin/net/perfectdreams/tradingviewscraper/TradingViewAPI.kt:236-240 | a ping records its time and is echoed; nothing else changes, and the ticker-order invariant is kept |
| Dispatch.Handshake | src/main/kotlin/net/perfectdreams/tradingviewscraper/TradingViewAPI.kt:245-258 | auth, create session and set fields are sent, then one subscribe per known ticker; the client is ready, its attempt count is 1 and its ping time is now; nothing else changes (tickers, callbacks, events, shutdown flag, session, call counter) |
| Dispatch.HandleMessage | src/main/kotlin/net/perfectdreams/tradingviewscraper/TradingViewAPI.kt:235-314 | handling a payload only appends to the send and event logs, never forgets a ticker or readiness, and keeps the ticker-order invariant |
| Dispatch.HandleMessages | src/main/kotlin/net/perfectdreams/tradingviewscraper/TradingViewAPI.kt:231-232 | the same for the payloads of one frame, handled in order up to the first that throws |
| Dispatch.HandleText | src/main/kotlin/net/perfectdreams/tradingviewscraper/TradingViewAPI.kt:205-233 | a frame that cannot be split fails with its framing error before any payload is handled; a frame with no envelope changes nothing |
| Dispatch.Connect | src/main/kotlin/net/perfectdreams/tradingviewscraper/TradingViewAPI.kt:86-88 | connecting clears the shutdown flag and counts one more attempt; nothing else changes |
| Dispatch.ShutdownSession | src/main/kotlin/net/perfectdreams/tradingviewscraper/TradingViewAPI.kt:141-144 | the shutdown flag is set; the session is closed, and the call succeeds, exactly when one was opened; nothing else changes |
| Dispatch.Shutdown | src/main/kotlin/net/perfectdreams/tradingviewscraper/TradingViewAPI.kt:146-150 | the shutdown flag is set and a `Close` is sent exactly when a session was opened; after that successful close every ticker and callback is forgotten; if the close throws, they are kept; nothing else changes (ping time, session, call counter, events, readiness, attempts) |
| Dispatch.ConnectionLost | src/main/kotlin/net/perfectdreams/tradingviewscraper/TradingViewAPI.kt:129-134 | the delay is computed from the attempts so far; with a session, the client sends `Close`, reconnects and counts one more attempt; without one, the coroutine ends with the client marked shutting down; nothing else changes |
| Dispatch.WatchdogRound | src/main/kotlin/net/perfectdreams/tradingviewscraper/TradingViewAPI.kt:260-273 | the watchdog stops exactly when shutting down or when the last ping is overdue; a round that keeps watching, or that finds the client already shutting down, changes nothing; an overdue round sets the flag, sends `Close` when there is a session, and changes nothing else |
| Dispatch.ReadLoop | src/main/kotlin/net/perfectdreams/tradingviewscraper/TradingViewAPI.kt:102-123 | reading frames only appends to the logs, never forgets a ticker, and keeps the ticker-order invariant |
| Dispatch.Lifetime | src/main/kotlin/net/perfectdreams/tradingviewscraper/TradingViewAPI.kt:100-134 | a connection whose session opened always ends in a scheduled reconnect |
| Dispatch.GetOrRetrieve | src/main/kotlin/net/perfectdreams/tradingviewscraper/TradingViewAPI.kt:153-181 | not ready: it waits and nothing changes; a known ticker is returned at once and nothing changes; otherwise exactly one subscribe is sent, the caller suspends under a fresh call number, its waiter replaces the ticker's callback, and nothing else changes (tickers, order, readiness, attempts, ping time) |
| Dispatch.OnTickerUpdate | src/main/kotlin/net/perfectdreams/tradingviewscraper/TradingViewAPI.kt:183-190 | the ticker's callback becomes the listener (replacing any waiter); nothing else changes, and the ticker-order invariant is kept |
| Protocol.PingEcho | src/main/kotlin/net/perfectdreams/tradingviewscraper/TradingViewAPI.kt:236-240 | a frame holding one ping is answered with that same payload, so the reply's envelope is the envelope received |
| Protocol.GreetingStartsHandshake | src/main/kotlin/net/perfectdreams/tradingviewscraper/TradingViewAPI.kt:241-258 | a braced payload that parses to an object with `session_id` runs the handshake and nothing else |
| Protocol.QuotePayloadApplied | src/main/kotlin/net/perfectdreams/tradingviewscraper/TradingViewAPI.kt:275-311 | a braced `qsd` object whose `p[1]` holds `s`, `n` and an object `v` is applied as the quote made of those three |
| Protocol.UnparsablePayloadFails | src/main/kotlin/net/perfectdreams/tradingviewscraper/TradingViewAPI.kt:241-242 | a braced payload the parser rejects makes `processMessage` throw, and nothing changes |
| Protocol.OtherPayloadIgnored | src/main/kotlin/net/perfectdreams/tradingviewscraper/TradingViewAPI.kt:235-241 | a payload that is neither a ping nor braced changes nothing |
| Protocol.OtherObjectIgnored | src/main/kotlin/net/perfectdreams/tradingviewscraper/TradingViewAPI.kt:241-280 | a parsed object without `session_id` whose `m` is absent or a primitive other than `qsd` changes nothing and does not fail; one whose `m` is an array or an object fails with `Malformed` and changes nothing |
| Protocol.QuoteCompletedIgnored | src/main/kotlin/net/perfectdreams/tradingviewscraper/TradingViewAPI.kt:241-280 | the server's `quote_completed` notice leaves the state unchanged and does not stop the read loop |
| Protocol.FramesDelivered | src/main/kotlin/net/perfectdreams/tradingviewscraper/TradingViewAPI.kt:205-233 | a frame of back-to-back envelopes hands exactly their payloads, in order, to `processMessage` |
| Protocol.HandshakeCommandsShape | src/main/kotlin/net/perfectdreams/tradingviewscraper/TradingViewAPI.kt:246-258 | the handshake sends 3 + n commands: auth token, create session and set fields, then the subscriptions in ticker order; every command after the first carries the session id |
| Protocol.ReplayCoversTickers | src/main/kotlin/net/perfectdreams/tradingviewscraper/TradingViewAPI.kt:256-258 | the handshake resubscribes exactly the known tickers, each once |
| Protocol.RetrievalResumedByCompleteQuote | src/main/kotlin/net/perfectdreams/tradingviewscraper/TradingViewAPI.kt:153-181 | a retrieval of an unknown ticker suspends; the next quote for it resumes the caller with the snapshot, and removes the waiter, exactly when every required field is present; otherwise the waiter stays and nothing is emitted |
| Protocol.LaterRetrievalReplacesWaiter | src/main/kotlin/net/perfectdreams/tradingviewscraper/TradingViewAPI.kt:163-165 | two pending retrievals of one ticker: a complete quote resumes only the second call |
| Protocol.RetrievalAfterQuoteIsCached | src/main/kotlin/net/perfectdreams/tradingviewscraper/TradingViewAPI.kt:157-159 | once a quote has arrived, retrieving its ticker returns the merged snapshot and changes nothing |
| Protocol.IncompleteThenCompleteQuote | src/main/kotlin/net/perfectdreams/tradingviewscraper/TradingViewAPI.kt:165-179 | a retrieval whose first quote lacks a required field stays suspended and its waiter stays; a later quote that completes the merged snapshot resumes it with that merged snapshot and removes the waiter |
| Protocol.ListenerSeesMergedSnapshot | src/main/kotlin/net/perfectdreams/tradingviewscraper/TradingViewAPI.kt:183-190 | a listener is handed the merged snapshot of each update to its ticker, and stays installed |
| Protocol.HandshakeRestartsWatchdog | src/main/kotlin/net/perfectdreams/tradingviewscraper/TradingViewAPI.kt:245-273 | after a handshake at time t, a watchdog round within the ping interval of t changes nothing, and a later one closes the session and stops |
| Protocol.HandshakeResetsBackoff | src/main/kotlin/net/perfectdreams/tradingviewscraper/TradingViewAPI.kt:250 | after a handshake, a lost connection waits 2000 ms and counts attempt 2 |
| Protocol.BackoffWithoutHandshake | src/main/kotlin/net/perfectdreams/tradingviewscraper/TradingViewAPI.kt:88 | from the counter value 1 that a handshake leaves, that connection waits 2000 ms when lost, and the following attempts lost before their own handshake wait 4000 and then 8000 ms |
| Protocol.FreshClientBackoff | src/main/kotlin/net/perfectdreams/tradingviewscraper/TradingViewAPI.kt:86-88 | a fresh client's connections that never reach a handshake wait 4000, 8000 and 16000 ms, since `connect()` counts an attempt before the first one |
| Protocol.ShutdownDoesNotPreventReconnect | src/main/kotlin/net/perfectdreams/tradingviewscraper/TradingViewAPI.kt:146-150 | after `shutdown()` clears the maps, the lost connection is still followed by a reconnect that clears the shutdown flag |
| Protocol.CloseEndsReadLoop | src/main/kotlin/net/perfectdreams/tradingviewscraper/TradingViewAPI.kt:110-115 | a close frame shuts the session down, and no later frame is read |
| Protocol.FailureEndsReadLoop | src/main/kotlin/net/perfectdreams/tradingviewscraper/TradingViewAPI.kt:121-123 | a frame whose handling throws ends the read loop; no later frame is read |
| Protocol.ErrorQuoteLeavesWaiter | src/main/kotlin/net/perfectdreams/tradingviewscraper/TradingViewAPI.kt:286-289 | an error quote for a ticker with a pending waiter fails with InvalidTicker, changes no state and leaves the waiter registered |
| Protocol.ReadLoopOfSendableFrames | src/main/kotlin/net/perfectdreams/tradingviewscraper/TradingViewAPI.kt:103-109 | reading one text frame of envelopes handles their payloads in order |
| Client.TradingViewApi.constructor | src/main/kotlin/net/perfectdreams/tradingviewscraper/TradingViewAPI.kt:20-84 | a new client has no tickers and no callbacks, is not ready, counts 1 attempt, satisfies the ticker-order invariant, and built with the default token and ping interval has the configuration `Dispatch.Defaults` |
| Client.TradingViewApi.Connect | src/main/kotlin/net/perfectdreams/tradingviewscraper/TradingViewAPI.kt:86-88 | the object ends in the state `Dispatch.Connect` gives, and the ticker-order invariant is kept |
| Client.TradingViewApi.ShutdownSession | src/main/kotlin/net/perfectdreams/tradingviewscraper/TradingViewAPI.kt:141-144 | the object and the success flag are those `Dispatch.ShutdownSession` gives, and the ticker-order invariant is kept |
| Client.TradingViewApi.Shutdown | src/main/kotlin/net/perfectdreams/tradingviewscraper/TradingViewAPI.kt:146-150 | the object and the success flag are those `Dispatch.Shutdown` gives, and the ticker-order invariant is kept |
| Client.TradingViewApi.GetTicker | src/main/kotlin/net/perfectdreams/tradingviewscraper/TradingViewAPI.kt:152 | a snapshot is returned exactly for a known ticker, and it is that ticker's |
| Client.TradingViewApi.GetOrRetrieveTicker | src/main/kotlin/net/perfectdreams/tradingviewscraper/TradingViewAPI.kt:153-181 | the object and the result are those `Dispatch.GetOrRetrieve` gives, and the ticker-order invariant is kept |
| Client.TradingViewApi.OnTickerUpdate | src/main/kotlin/net/perfectdreams/tradingviewscraper/TradingViewAPI.kt:183-190 | the object ends in the state `Dispatch.OnTickerUpdate` gives, and the ticker-order invariant is kept |
| Client.TradingViewApi.HandleQuote | src/main/kotlin/net/perfectdreams/tradingviewscraper/TradingViewAPI.kt:280-311 | the object and the failure are those `Dispatch.ApplyQuote` gives, and the ticker-order invariant is kept |
| Client.TradingViewApi.Resubscriptions | src/main/kotlin/net/perfectdreams/tradingviewscraper/TradingViewAPI.kt:256-258 | the loop builds one subscribe command per known ticker, in insertion order |
| Client.TradingViewApi.Handshake | src/main/kotlin/net/perfectdreams/tradingviewscraper/TradingViewAPI.kt:245-258 | the object ends in the state `Dispatch.Handshake` gives, and the ticker-order invariant is kept |
| Client.TradingViewApi.ProcessMessage | src/main/kotlin/net/perfectdreams/tradingviewscraper/TradingViewAPI.kt:235-314 | the object and the failure are those `Dispatch.HandleMessage` gives, and the ticker-order invariant is kept |
| Client.TradingViewApi.SplitAndProcessMessage | src/main/kotlin/net/perfectdreams/tradingviewscraper/TradingViewAPI.kt:205-233 | the object and the failure are those `Dispatch.HandleText` gives, and the ticker-order invariant is kept |
| Client.TradingViewApi.WatchdogRound | src/main/kotlin/net/perfectdreams/tradingviewscraper/TradingViewAPI.kt:261-273 | the object and the stop flag are those `Dispatch.WatchdogRound` gives, and the ticker-order invariant is kept |
| Client.TradingViewApi.ConnectionLost | src/main/kotlin/net/perfectdreams/tradingviewscraper/TradingViewAPI.kt:129-134 | the object and the delay are those `Dispatch.ConnectionLost` gives, and the ticker-order invariant is kept |
| Client.TradingViewApi.RunConnection | src/main/kotlin/net/perfectdreams/tradingviewscraper/TradingViewAPI.kt:100-134 | the object and the delay are those `Dispatch.Lifetime` gives, and the ticker-order invariant is kept |

## Left out

- Websocket I/O, the HTTP client and its headers (lines 92-98) are left out. The socket is replaced by the `sent` log, which records what is written, and by the sequence of frames a connection receives.
- Coroutines and threads are left out. That includes the `GlobalScope.launch` calls and the 25 ms polling loops that wait for `ready` (lines 137-138 and 154-155). `GetOrRetrieve` returns `NotReady` where the caller keeps waiting. A suspended caller is named by a call number, and its resumption is recorded as an event.
- Interleavings between the read loop, the watchdog and API calls are left out. Each operation is modelled as an atomic step.
- The watchdog's 5-second sleep and its repetition are left out. One round is modelled (`WatchdogRound`).
- JSON text is not modelled. Parsing is the parameter `parse`, and a command is kept as its JSON tree, not printed with `toString()`. So the length written in a command's envelope is not modelled.
- The random session id (line 37) is left out. It is a constructor parameter instead.
- Logging is left out.
- The clock is left out. `System.currentTimeMillis()` is the `now` parameter, or the time a text frame was read.
- Dispatch.HandleText: uses one clock reading for every payload of a frame. The Kotlin code reads the clock once per ping or greeting.
- Dispatch.Connect: does not model the 32-bit wrap-around of `connectionTries` (an Int). Reaching it would take 2^31 attempts with no handshake.
- Client.TradingViewApi.Connect: does not model the 32-bit wrap-around of `connectionTries`, for the same reason.
- A listener's user function is assumed to return normally. If it threw, the exception would end the read loop just as an error quote does.
- Frame types other than text and close are not distinguished. Binary, ping and pong frames are all `OtherFrame`.
- Closing a session that is already closed is assumed not to throw. The model records another `Close`.
- Client.TradingViewApi.Handshake: appends the three handshake commands and the resubscriptions in one step, and sets the attempt count, `ready` and the ping time together. The Kotlin code sends the commands one after another and sets those fields between the third command and the first resubscription; no other step of the model runs in between, so the final state is the same.
