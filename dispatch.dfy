/**
 * The client's behaviour as a state machine: what one payload, one text
 * frame, a lost connection, a shutdown or an API call does to the client's
 * state and to the log of what it has written to the socket.
 *
 * The socket is replaced by the `sent` log, the clock by a `now` argument,
 * the JSON parser by a `parse` argument, and resumed coroutines and user
 * callbacks by the `events` log.
 */
module Dispatch {
  import opened Wrappers
  import opened JsonValues
  import opened Framing
  import opened Commands
  import opened TickerStore
  import opened Callbacks
  import opened Backoff

  /** What the client writes to its websocket. */
  datatype Outgoing =
    | Raw(payload: string)   // a text payload, sent as Frame(payload)
    | Command(body: Json)    // a command object, sent as the envelope of its JSON text
    | Close                  // the session is closed

  /**
   * What a client fixes at construction: its parameters, its session id and
   * the field list it asks for (`defaultTickerFields`, see `Defaults`).
   */
  datatype Config = Config(authToken: string, sessionId: string, pingInterval: int, tickerFields: seq<string>)

  /** A client built with the constructor's defaults for the token and the ping interval. */
  function Defaults(sessionId: string): (cfg: Config)
    ensures cfg.authToken == "unauthorized_user_token" && cfg.pingInterval == 20000
    ensures cfg.sessionId == sessionId && cfg.tickerFields == DefaultTickerFields
  {
    Config("unauthorized_user_token", sessionId, 20000, DefaultTickerFields)
  }

  datatype State = State(
    tickers: map<string, Snapshot>,  // subscribedTickers
    order: seq<string>,              // the order in which subscribedTickers' keys were first inserted
    callbacks: Table,                // tickerCallbacks
    ready: bool,
    shuttingDown: bool,              // isShuttingDown
    tries: nat,                      // connectionTries
    lastPing: int,                   // lastPingReceivedAt
    hasSession: bool,                // a websocket session has been opened at least once
    nextCall: nat,                   // number of the next suspended getOrRetrieveTicker call
    sent: seq<Outgoing>,
    events: seq<Event>)

  /** A freshly constructed client. */
  const Initial: State := State(map[], [], map[], false, false, 1, 0, false, 0, [], [])

  /** `order` lists the subscribed tickers, each once, as a LinkedHashMap iterates them. */
  ghost predicate Valid(st: State)
  {
    (forall i, j :: 0 <= i < j < |st.order| ==> st.order[i] != st.order[j]) &&
    (forall k :: k in st.tickers <==> k in st.order)
  }

  lemma InitialValid()
    ensures Valid(Initial)
  {
  }

  // ---------------------------------------------------------------------
  // Reading a payload

  predicate StartsWith(s: string, prefix: string)
  {
    |prefix| <= |s| && s[..|prefix|] == prefix
  }

  predicate EndsWith(s: string, suffix: string)
  {
    |suffix| <= |s| && s[|s| - |suffix|..] == suffix
  }

  /** The `p[1]` object of a `qsd` message: status `s`, ticker `n` and the field delta `v`. */
  datatype Quote = Quote(status: string, ticker: string, values: Snapshot)

  datatype Inbound =
    | Ping                  // starts with `~h~`
    | SessionStart          // an object with a `session_id` key
    | QuoteData(q: Quote)   // an object whose `m` is "qsd"
    | Ignored               // anything else
    | Unparsable            // the parser or an element accessor throws

  /** A string-valued entry of an object, as `data[key]!!.content`. */
  function ContentOf(fields: map<string, Json>, key: string): Option<string>
  {
    if key in fields then Content(fields[key]) else None
  }

  /**
   * `json["p"]!!.jsonArray[1].jsonObject` and its `s`, `n` and `v`, each of
   * which must be there: any of them missing or of the wrong kind throws.
   */
  function QuoteOf(fields: map<string, Json>): (r: Inbound)
    ensures r.QuoteData? || r == Unparsable
    ensures r.QuoteData? <==>
      "p" in fields && fields["p"].JArray? && |fields["p"].items| >= 2 && fields["p"].items[1].JObject? &&
      var data := fields["p"].items[1].fields;
      ContentOf(data, "s").Some? && ContentOf(data, "n").Some? && "v" in data && data["v"].JObject?
    ensures r.QuoteData? ==>
      var data := fields["p"].items[1].fields;
      r.q == Quote(ContentOf(data, "s").value, ContentOf(data, "n").value, data["v"].fields)
  {
    if "p" !in fields || !fields["p"].JArray? || |fields["p"].items| < 2 || !fields["p"].items[1].JObject? then Unparsable
    else
      var data := fields["p"].items[1].fields;
      var s := ContentOf(data, "s");
      var n := ContentOf(data, "n");
      if s.None? || n.None? || "v" !in data || !data["v"].JObject? then Unparsable
      else QuoteData(Quote(s.value, n.value, data["v"].fields))
  }

  /** The payload looks like a JSON object: it starts with `{` and ends with `}`. */
  predicate Braced(payload: string)
  {
    StartsWith(payload, "{") && EndsWith(payload, "}")
  }

  /** The branches of `processMessage`, in the order it tests them. */
  function Classify(payload: string, parse: string -> Option<Json>): (r: Inbound)
    ensures StartsWith(payload, "~h~") ==> r == Ping
    ensures !StartsWith(payload, "~h~") && !Braced(payload) ==> r == Ignored
    ensures r.SessionStart? ==>
      parse(payload).Some? && parse(payload).value.JObject? && "session_id" in parse(payload).value.fields
    ensures r.QuoteData? ==>
      !StartsWith(payload, "~h~") && parse(payload).Some? && parse(payload).value.JObject? &&
      "session_id" !in parse(payload).value.fields && ContentOf(parse(payload).value.fields, "m") == Some("qsd")
    ensures !StartsWith(payload, "~h~") && Braced(payload) && parse(payload).None? ==> r == Unparsable
    ensures !StartsWith(payload, "~h~") && Braced(payload) && parse(payload).Some? && parse(payload).value.JObject? ==>
      var fields := parse(payload).value.fields;
      ("session_id" in fields ==> r == SessionStart) &&
      ("session_id" !in fields && ContentOf(fields, "m") == Some("qsd") ==> r == QuoteOf(fields)) &&
      ("session_id" !in fields && ("m" !in fields || (Content(fields["m"]).Some? && Content(fields["m"]).value != "qsd")) ==>
        r == Ignored) &&
      ("session_id" !in fields && "m" in fields && Content(fields["m"]).None? ==> r == Unparsable)
    ensures !StartsWith(payload, "~h~") && Braced(payload) && parse(payload).Some? && !parse(payload).value.JObject? ==>
      r == Ignored
  {
    if StartsWith(payload, "~h~") then Ping
    else if Braced(payload) then
      match parse(payload)
      case None => Unparsable
      case Some(j) =>
        if !j.JObject? then Ignored
        else if "session_id" in j.fields then SessionStart
        else if "m" in j.fields then
          match Content(j.fields["m"])
          case None => Unparsable
          case Some(m) => if m == "qsd" then QuoteOf(j.fields) else Ignored
        else Ignored
    else Ignored
  }

  // ---------------------------------------------------------------------
  // Handling one payload

  /** Why the read loop stops: an exception escapes `splitAndProcessMessage`. */
  datatype ReadError =
    | InvalidTicker(ticker: string)   // the callback for an errored ticker rethrows InvalidTickerException
    | Malformed(payload: string)      // parsing or an element accessor threw
    | BadFrame(error: FrameError)     // the frame could not be split

  datatype Outcome = Outcome(state: State, failure: Option<ReadError>)

  /** The three commands of the handshake, in the order they are sent. */
  function HandshakeCommands(cfg: Config): (r: seq<Outgoing>)
    ensures |r| == 3 && r[0].Command? && r[1].Command? && r[2].Command?
    ensures MethodOf(r[0].body) == Some("set_auth_token") && ParamsOf(r[0].body) == Some([JString(cfg.authToken)])
    ensures MethodOf(r[1].body) == Some("quote_create_session") && SessionOf(r[1].body) == Some(cfg.sessionId)
    ensures MethodOf(r[2].body) == Some("quote_set_fields") &&
      ParamsOf(r[2].body) == Some([JString(cfg.sessionId)] + Strings(cfg.tickerFields))
  {
    [Command(AuthToken(cfg.authToken)),
     Command(CreateQuoteSession(cfg.sessionId)),
     Command(SetQuoteFields(cfg.sessionId, cfg.tickerFields))]
  }

  /** One `quote_add_symbols` per ticker of `order`, in that order. */
  function Replay(sessionId: string, order: seq<string>): (r: seq<Outgoing>)
    ensures |r| == |order|
    ensures forall i :: 0 <= i < |order| ==> r[i] == Command(AddSymbol(sessionId, order[i]))
  {
    if order == [] then [] else [Command(AddSymbol(sessionId, order[0]))] + Replay(sessionId, order[1..])
  }

  /** Subscribing to one more ticker adds its command at the end. */
  lemma ReplayAppend(sessionId: string, order: seq<string>, t: string)
    ensures Replay(sessionId, order + [t]) == Replay(sessionId, order) + [Command(AddSymbol(sessionId, t))]
  {
    var lhs := Replay(sessionId, order + [t]);
    var rhs := Replay(sessionId, order) + [Command(AddSymbol(sessionId, t))];
    assert |lhs| == |rhs|;
    forall i | 0 <= i < |lhs|
      ensures lhs[i] == rhs[i]
    {
      assert (order + [t])[i] == if i < |order| then order[i] else t;
    }
  }

  /** `subscribedTickers[n]`: the ticker's snapshot, or null when it has none. */
  function Lookup(tickers: map<string, Snapshot>, n: string): Option<Snapshot>
  {
    if n in tickers then Some(tickers[n]) else None
  }

  /** A delta that is not an error: merge it into the ticker's snapshot, then invoke the ticker's callback. */
  function Absorb(st: State, q: Quote): (r: State)
    ensures r.tickers == st.tickers[q.ticker := Merge(Lookup(st.tickers, q.ticker), q.values)]
    ensures r.order == if q.ticker in st.tickers then st.order else st.order + [q.ticker]
    ensures var inv := Invoke(st.callbacks, q.ticker, r.tickers[q.ticker]);
      r.callbacks == inv.table && r.events == st.events + inv.events
    ensures r.(tickers := st.tickers, order := st.order, callbacks := st.callbacks, events := st.events) == st
    ensures Valid(st) ==> Valid(r)
  {
    var snapshot := Merge(Lookup(st.tickers, q.ticker), q.values);
    var inv := Invoke(st.callbacks, q.ticker, snapshot);
    st.(tickers := st.tickers[q.ticker := snapshot],
        order := if q.ticker in st.tickers then st.order else st.order + [q.ticker],
        callbacks := inv.table,
        events := st.events + inv.events)
  }

  /** A `qsd` delta: the error branch, or the merge followed by the ticker's callback. */
  function ApplyQuote(st: State, q: Quote): (r: Outcome)
    ensures r.state.sent == st.sent && r.state.ready == st.ready && r.state.tries == st.tries
    ensures q.status == "error" ==> r.state == st && (r.failure == Some(InvalidTicker(q.ticker)) <==> q.ticker in st.callbacks)
    ensures q.status == "error" ==> (r.failure.None? <==> q.ticker !in st.callbacks)
    ensures q.status != "error" ==> r.failure.None?
    ensures q.status != "error" ==> r.state.tickers.Keys == st.tickers.Keys + {q.ticker}
    ensures q.status != "error" ==> r.state.tickers[q.ticker] == Merge(Lookup(st.tickers, q.ticker), q.values)
    ensures forall k :: k in st.tickers && k != q.ticker ==> r.state.tickers[k] == st.tickers[k]
    ensures forall k :: k != q.ticker ==> (k in r.state.callbacks <==> k in st.callbacks)
    ensures q.status != "error" ==>
      r.state.order == if q.ticker in st.tickers then st.order else st.order + [q.ticker]
    ensures q.status != "error" ==>
      var inv := Invoke(st.callbacks, q.ticker, r.state.tickers[q.ticker]);
      r.state.callbacks == inv.table && r.state.events == st.events + inv.events
    ensures r.state.(tickers := st.tickers, order := st.order, callbacks := st.callbacks, events := st.events) == st
    ensures Valid(st) ==> Valid(r.state)
  {
    if q.status == "error" then
      if q.ticker in st.callbacks then Outcome(st, Some(InvalidTicker(q.ticker))) else Outcome(st, None)
    else Outcome(Absorb(st, q), None)
  }

  /**
   * What reading never undoes: the socket and event logs only get longer,
   * a subscribed ticker stays subscribed and a ready client stays ready.
   */
  predicate Grows(st: State, st': State)
  {
    st.sent <= st'.sent && st.events <= st'.events &&
    st.tickers.Keys <= st'.tickers.Keys && (st.ready ==> st'.ready) && (st.hasSession ==> st'.hasSession)
  }

  /** A ping: note when it arrived and echo the payload back. */
  function Pong(st: State, payload: string, now: int): (r: State)
    ensures r.sent == st.sent + [Raw(payload)] && r.lastPing == now
    ensures r.(sent := st.sent, lastPing := st.lastPing) == st
    ensures Valid(st) ==> Valid(r)
  {
    st.(lastPing := now, sent := st.sent + [Raw(payload)])
  }

  /**
   * The `session_id` greeting: authenticate, create the quote session, ask
   * for the default fields, reset the attempt counter, become ready, and
   * subscribe again to every ticker already known.
   */
  function Handshake(cfg: Config, st: State, now: int): (r: State)
    ensures r.sent == st.sent + HandshakeCommands(cfg) + Replay(cfg.sessionId, st.order)
    ensures r.ready && r.tries == 1 && r.lastPing == now
    ensures r.tickers == st.tickers && r.order == st.order && r.callbacks == st.callbacks && r.events == st.events
    ensures r.(sent := st.sent, ready := st.ready, tries := st.tries, lastPing := st.lastPing) == st
    ensures Valid(st) ==> Valid(r)
  {
    st.(sent := st.sent + HandshakeCommands(cfg) + Replay(cfg.sessionId, st.order),
        tries := 1, ready := true, lastPing := now)
  }

  /** `processMessage(payload)` at time `now`. */
  function HandleMessage(cfg: Config, st: State, payload: string, parse: string -> Option<Json>, now: int): (r: Outcome)
    ensures Grows(st, r.state)
    ensures Valid(st) ==> Valid(r.state)
  {
    match Classify(payload, parse)
    case Ping => Outcome(Pong(st, payload, now), None)
    case SessionStart => Outcome(Handshake(cfg, st, now), None)
    case QuoteData(q) => ApplyQuote(st, q)
    case Ignored => Outcome(st, None)
    case Unparsable => Outcome(st, Some(Malformed(payload)))
  }

  /** The payloads of one frame, in order, stopping at the first that throws. */
  function HandleMessages(cfg: Config, st: State, payloads: seq<string>, parse: string -> Option<Json>, now: int): (r: Outcome)
    ensures Grows(st, r.state)
    ensures Valid(st) ==> Valid(r.state)
    decreases |payloads|
  {
    if payloads == [] then Outcome(st, None)
    else
      var o := HandleMessage(cfg, st, payloads[0], parse, now);
      if o.failure.Some? then o else HandleMessages(cfg, o.state, payloads[1..], parse, now)
  }

  /** `splitAndProcessMessage(raw)`: split the whole frame first, then handle its payloads. */
  function HandleText(cfg: Config, st: State, raw: string, parse: string -> Option<Json>, now: int): (r: Outcome)
    ensures Decode(raw).Failure? ==> r.state == st && r.failure == Some(BadFrame(Decode(raw).error))
    ensures Decode(raw) == Success([]) ==> r == Outcome(st, None)
    ensures Grows(st, r.state)
    ensures Valid(st) ==> Valid(r.state)
  {
    match Decode(raw)
    case Failure(e) => Outcome(st, Some(BadFrame(e)))
    case Success(payloads) => HandleMessages(cfg, st, payloads, parse, now)
  }

  // ---------------------------------------------------------------------
  // Connection lifecycle

  /** `connect()`: clear the shutdown flag and count one more attempt. */
  function Connect(st: State): (r: State)
    ensures r.tries == st.tries + 1 && !r.shuttingDown
    ensures r.(tries := st.tries, shuttingDown := st.shuttingDown) == st
    ensures Valid(st) ==> Valid(r)
  {
    st.(shuttingDown := false, tries := st.tries + 1)
  }

  /** The result of `shutdownSession()`: `ok` is false when it threw because no session was ever opened. */
  datatype Closing = Closing(state: State, ok: bool)

  /** `shutdownSession()`: set the flag, then close the session (which throws if there is none). */
  function ShutdownSession(st: State): (r: Closing)
    ensures r.ok <==> st.hasSession
    ensures r.state.shuttingDown
    ensures r.state.sent == st.sent + (if st.hasSession then [Close] else [])
    ensures r.state.(shuttingDown := st.shuttingDown, sent := st.sent) == st
    ensures Valid(st) ==> Valid(r.state)
  {
    var flagged := st.(shuttingDown := true);
    if st.hasSession then Closing(flagged.(sent := flagged.sent + [Close]), true) else Closing(flagged, false)
  }

  /** `shutdown()`: close the session, then forget every ticker and callback. */
  function Shutdown(st: State): (r: Closing)
    ensures r.ok <==> st.hasSession
    ensures r.state.shuttingDown
    ensures r.ok ==> r.state.tickers == map[] && r.state.order == [] && r.state.callbacks == map[]
    ensures !r.ok ==> r.state.tickers == st.tickers && r.state.order == st.order && r.state.callbacks == st.callbacks
    ensures r.state.ready == st.ready && r.state.tries == st.tries && r.state.events == st.events
    ensures r.state.sent == st.sent + (if st.hasSession then [Close] else [])
    ensures r.state.(shuttingDown := st.shuttingDown, sent := st.sent, tickers := st.tickers,
                     order := st.order, callbacks := st.callbacks) == st
    ensures Valid(st) ==> Valid(r.state)
  {
    var c := ShutdownSession(st);
    if c.ok then Closing(c.state.(tickers := map[], order := [], callbacks := map[]), true) else c
  }

  /**
   * What follows the end of the read loop (line 129 onwards): the delay is
   * computed from the attempts so far, the session is shut down, and after
   * the delay `connect()` runs again. With no session ever opened the
   * shutdown throws and the reconnecting coroutine ends: None.
   */
  datatype Reconnection = Reconnection(state: State, delay: Option<nat>)

  function ConnectionLost(st: State): (r: Reconnection)
    ensures st.hasSession ==> r.delay == Some(ReconnectDelay(st.tries))
    ensures st.hasSession ==> r.state.tries == st.tries + 1 && !r.state.shuttingDown && r.state.sent == st.sent + [Close]
    ensures !st.hasSession ==> r.delay.None? && r.state.shuttingDown && r.state.tries == st.tries && r.state.sent == st.sent
    ensures r.state.tickers == st.tickers && r.state.callbacks == st.callbacks && r.state.ready == st.ready
    ensures st.hasSession ==> r.state == st.(tries := st.tries + 1, shuttingDown := false, sent := st.sent + [Close])
    ensures !st.hasSession ==> r.state == st.(shuttingDown := true)
    ensures Valid(st) ==> Valid(r.state)
  {
    var delay := ReconnectDelay(st.tries);
    var c := ShutdownSession(st);
    if c.ok then Reconnection(Connect(c.state), Some(delay)) else Reconnection(c.state, None)
  }

  /**
   * One round of the keepalive watchdog at time `now`: it stops when the
   * client is shutting down, and shuts the session down (and stops) when
   * the last ping is overdue. `stop` is whether its loop ends.
   */
  datatype Watch = Watch(state: State, stop: bool)

  function WatchdogRound(cfg: Config, st: State, now: int): (r: Watch)
    ensures r.stop <==> st.shuttingDown || PingOverdue(now, st.lastPing, cfg.pingInterval)
    ensures r.state.shuttingDown <==> r.stop
    ensures !st.shuttingDown && PingOverdue(now, st.lastPing, cfg.pingInterval) && st.hasSession ==> r.state.sent == st.sent + [Close]
    ensures r.state.tickers == st.tickers && r.state.callbacks == st.callbacks && r.state.tries == st.tries
    ensures st.shuttingDown || !r.stop ==> r.state == st
    ensures !st.shuttingDown && r.stop ==>
      r.state == st.(shuttingDown := true, sent := st.sent + (if st.hasSession then [Close] else []))
    ensures Valid(st) ==> Valid(r.state)
  {
    if st.shuttingDown then Watch(st, true)
    else if PingOverdue(now, st.lastPing, cfg.pingInterval) then Watch(ShutdownSession(st).state, true)
    else Watch(st, false)
  }

  /** A websocket frame as the read loop sees it; a text frame carries the time it was read. */
  datatype Incoming =
    | TextFrame(raw: string, receivedAt: int)
    | CloseFrame
    | OtherFrame

  /**
   * The read loop of one connection over the frames it receives: text is
   * split and handled, a close frame shuts the session down and ends the
   * loop, other frames are skipped, and an exception ends the loop.
   */
  function ReadLoop(cfg: Config, st: State, frames: seq<Incoming>, parse: string -> Option<Json>): (r: State)
    ensures Grows(st, r)
    ensures Valid(st) ==> Valid(r)
    decreases |frames|
  {
    if frames == [] then st
    else match frames[0]
      case TextFrame(raw, now) =>
        var o := HandleText(cfg, st, raw, parse, now);
        if o.failure.Some? then o.state else ReadLoop(cfg, o.state, frames[1..], parse)
      case CloseFrame => ShutdownSession(st).state
      case OtherFrame => ReadLoop(cfg, st, frames[1..], parse)
  }

  /**
   * One connection from the moment its session is open: read the frames,
   * then wait the backoff delay and connect again.
   */
  function Lifetime(cfg: Config, st: State, frames: seq<Incoming>, parse: string -> Option<Json>): (r: Reconnection)
    ensures r.delay.Some?
    ensures Valid(st) ==> Valid(r.state)
  {
    ConnectionLost(ReadLoop(cfg, st.(hasSession := true), frames, parse))
  }

  // ---------------------------------------------------------------------
  // The public API

  datatype Retrieval =
    | NotReady                    // the handshake has not happened yet; the caller keeps waiting
    | Cached(snapshot: Snapshot)  // returned at once
    | Suspended(call: nat)        // the caller is suspended until Resumed(call, _) is emitted

  datatype Retrieve = Retrieve(state: State, result: Retrieval)

  /** `getOrRetrieveTicker(tickerId, requiredFields)`. */
  function GetOrRetrieve(cfg: Config, st: State, tickerId: string, required: seq<string>): (r: Retrieve)
    ensures r.result.NotReady? <==> !st.ready
    ensures r.result.Cached? <==> st.ready && tickerId in st.tickers
    ensures r.result.Cached? ==> r.result.snapshot == st.tickers[tickerId]
    ensures !r.result.Suspended? ==> r.state == st
    ensures r.result.Suspended? ==>
      r.state.sent == st.sent + [Command(AddSymbol(cfg.sessionId, tickerId))] &&
      r.state.callbacks == st.callbacks[tickerId := Waiter(required, r.result.call)] &&
      r.state.tickers == st.tickers && r.result.call == st.nextCall && r.state.nextCall > r.result.call
    ensures r.result.Suspended? ==>
      r.state == st.(sent := r.state.sent, callbacks := r.state.callbacks, nextCall := st.nextCall + 1)
    ensures Valid(st) ==> Valid(r.state)
  {
    if !st.ready then Retrieve(st, NotReady)
    else if tickerId in st.tickers then Retrieve(st, Cached(st.tickers[tickerId]))
    else
      Retrieve(st.(sent := st.sent + [Command(AddSymbol(cfg.sessionId, tickerId))],
                   callbacks := st.callbacks[tickerId := Waiter(required, st.nextCall)],
                   nextCall := st.nextCall + 1),
               Suspended(st.nextCall))
  }

  /** `onTickerUpdate(tickerId, callback)`: install (or replace) the ticker's listener. */
  function OnTickerUpdate(st: State, tickerId: string, handle: nat): (r: State)
    ensures tickerId in r.callbacks && r.callbacks[tickerId] == Listener(handle)
    ensures forall k :: k != tickerId ==> (k in r.callbacks <==> k in st.callbacks)
    ensures r.(callbacks := st.callbacks) == st
    ensures Valid(st) ==> Valid(r)
  {
    st.(callbacks := st.callbacks[tickerId := Listener(handle)])
  }
}
