/**
 * The client object itself: its mutable fields and the methods that update
 * them in place. Each method is proved to leave the object in the state the
 * corresponding `Dispatch` function describes, so every property proved of
 * the state machine holds of the object.
 */
module Client {
  import opened Wrappers
  import opened JsonValues
  import opened Framing
  import opened Commands
  import opened TickerStore
  import opened Callbacks
  import opened Backoff
  import Dispatch

  class TradingViewApi {
    const authToken: string
    const sessionId: string
    const pingInterval: int
    const tickerFields: seq<string>

    var subscribedTickers: map<string, Snapshot>
    var tickerOrder: seq<string>        // insertion order of subscribedTickers' keys
    var tickerCallbacks: Table
    var ready: bool
    var isShuttingDown: bool
    var connectionTries: nat
    var lastPingReceivedAt: int
    var hasSession: bool                // a websocket session has been stored
    var nextCall: nat
    var sent: seq<Dispatch.Outgoing>    // everything written to the socket, in order
    var events: seq<Event>              // every resumed retrieval and listener call, in order

    function Config(): Dispatch.Config
    {
      Dispatch.Config(authToken, sessionId, pingInterval, tickerFields)
    }

    /** The object's fields as a state of the protocol state machine. */
    function Model(): Dispatch.State
      reads this
    {
      Dispatch.State(subscribedTickers, tickerOrder, tickerCallbacks, ready, isShuttingDown,
                     connectionTries, lastPingReceivedAt, hasSession, nextCall, sent, events)
    }

    ghost predicate Valid()
      reads this
    {
      Dispatch.Valid(Model())
    }

    /** A new client; its session id is chosen by the caller. */
    constructor(authToken: string, sessionId: string, pingInterval: int)
      ensures Model() == Dispatch.Initial && Valid()
      ensures Config() == Dispatch.Config(authToken, sessionId, pingInterval, DefaultTickerFields)
      ensures authToken == "unauthorized_user_token" && pingInterval == 20000 ==> Config() == Dispatch.Defaults(sessionId)
    {
      this.authToken := authToken;
      this.sessionId := sessionId;
      this.pingInterval := pingInterval;
      this.tickerFields := DefaultTickerFields;
      subscribedTickers := map[];
      tickerOrder := [];
      tickerCallbacks := map[];
      ready := false;
      isShuttingDown := false;
      connectionTries := 1;
      lastPingReceivedAt := 0;
      hasSession := false;
      nextCall := 0;
      sent := [];
      events := [];
    }

    /** `connect()`, up to the launch of the connection coroutine. */
    method Connect()
      modifies this
      requires Valid()
      ensures Valid()
      ensures Model() == Dispatch.Connect(old(Model()))
    {
      isShuttingDown := false;
      connectionTries := connectionTries + 1;
    }

    /** `shutdownSession()`; `ok` is false when there was no session to close. */
    method ShutdownSession() returns (ok: bool)
      modifies this
      requires Valid()
      ensures Valid()
      ensures Dispatch.Closing(Model(), ok) == Dispatch.ShutdownSession(old(Model()))
    {
      isShuttingDown := true;
      if hasSession {
        sent := sent + [Dispatch.Close];
        ok := true;
      } else {
        ok := false;
      }
    }

    /** `shutdown()`. */
    method Shutdown() returns (ok: bool)
      modifies this
      requires Valid()
      ensures Valid()
      ensures Dispatch.Closing(Model(), ok) == Dispatch.Shutdown(old(Model()))
    {
      ok := ShutdownSession();
      if ok {
        subscribedTickers := map[];
        tickerOrder := [];
        tickerCallbacks := map[];
      }
    }

    /** `getTicker(tickerId)`. */
    function GetTicker(tickerId: string): (r: Option<Snapshot>)
      reads this
      ensures r.Some? <==> tickerId in subscribedTickers
      ensures r.Some? ==> r.value == subscribedTickers[tickerId]
    {
      Dispatch.Lookup(subscribedTickers, tickerId)
    }

    /** `getOrRetrieveTicker(tickerId, requiredFields)`, up to the point where it suspends. */
    method GetOrRetrieveTicker(tickerId: string, requiredFields: seq<string>) returns (r: Dispatch.Retrieval)
      modifies this
      requires Valid()
      ensures Valid()
      ensures Dispatch.Retrieve(Model(), r) == Dispatch.GetOrRetrieve(Config(), old(Model()), tickerId, requiredFields)
    {
      if !ready {
        return Dispatch.NotReady;
      }
      var ticker := GetTicker(tickerId);
      if ticker.Some? {
        return Dispatch.Cached(ticker.value);
      }
      sent := sent + [Dispatch.Command(AddSymbol(sessionId, tickerId))];
      tickerCallbacks := tickerCallbacks[tickerId := Waiter(requiredFields, nextCall)];
      r := Dispatch.Suspended(nextCall);
      nextCall := nextCall + 1;
    }

    /** `onTickerUpdate(tickerId, callback)`, the callback being named by `handle`. */
    method OnTickerUpdate(tickerId: string, handle: nat)
      modifies this
      requires Valid()
      ensures Valid()
      ensures Model() == Dispatch.OnTickerUpdate(old(Model()), tickerId, handle)
    {
      tickerCallbacks := tickerCallbacks[tickerId := Listener(handle)];
    }

    /** The `qsd` branch of `processMessage`. */
    method HandleQuote(q: Dispatch.Quote) returns (failure: Option<Dispatch.ReadError>)
      modifies this
      requires Valid()
      ensures Valid()
      ensures Dispatch.Outcome(Model(), failure) == Dispatch.ApplyQuote(old(Model()), q)
    {
      if q.status == "error" {
        if q.ticker in tickerCallbacks {
          return Some(Dispatch.InvalidTicker(q.ticker));
        }
        return None;
      }
      var current := GetTicker(q.ticker);
      var snapshot := Merge(current, q.values);
      if current.None? {
        tickerOrder := tickerOrder + [q.ticker];
      }
      subscribedTickers := subscribedTickers[q.ticker := snapshot];
      var invocation := Invoke(tickerCallbacks, q.ticker, snapshot);
      tickerCallbacks := invocation.table;
      events := events + invocation.events;
      failure := None;
    }

    /** The `session_id` branch of `processMessage`: the handshake and the resubscriptions. */
    method Handshake(now: int)
      modifies this
      requires Valid()
      ensures Valid()
      ensures Model() == Dispatch.Handshake(Config(), old(Model()), now)
    {
      ghost var before := Model();
      var replay := Resubscriptions();
      // sendAuthToken, createQuoteSession and setQuoteFields, then one registerTicker per ticker
      sent := sent + Dispatch.HandshakeCommands(Config()) + replay;
      connectionTries, ready, lastPingReceivedAt := 1, true, now;
      assert Model() == before.(sent := before.sent + Dispatch.HandshakeCommands(Config()) + Dispatch.Replay(sessionId, before.order),
                                tries := 1, ready := true, lastPing := now);
    }

    /** The `registerTicker` command for every subscribed ticker, in insertion order. */
    method Resubscriptions() returns (replay: seq<Dispatch.Outgoing>)
      ensures replay == Dispatch.Replay(sessionId, tickerOrder)
    {
      replay := [];
      var i := 0;
      while i < |tickerOrder|
        invariant 0 <= i <= |tickerOrder|
        invariant replay == Dispatch.Replay(sessionId, tickerOrder[..i])
      {
        assert tickerOrder[..i + 1] == tickerOrder[..i] + [tickerOrder[i]];
        Dispatch.ReplayAppend(sessionId, tickerOrder[..i], tickerOrder[i]);
        replay := replay + [Dispatch.Command(AddSymbol(sessionId, tickerOrder[i]))];
        i := i + 1;
      }
      assert tickerOrder[..i] == tickerOrder;
    }

    /** `processMessage(payload)`, run at time `now`. */
    method ProcessMessage(payload: string, parse: string -> Option<Json>, now: int)
      returns (failure: Option<Dispatch.ReadError>)
      modifies this
      requires Valid()
      ensures Valid()
      ensures Dispatch.Outcome(Model(), failure) == Dispatch.HandleMessage(Config(), old(Model()), payload, parse, now)
    {
      match Dispatch.Classify(payload, parse)
      case Ping =>
        lastPingReceivedAt := now;
        sent := sent + [Dispatch.Raw(payload)];
        failure := None;
      case SessionStart =>
        Handshake(now);
        failure := None;
      case QuoteData(q) =>
        failure := HandleQuote(q);
      case Ignored =>
        failure := None;
      case Unparsable =>
        failure := Some(Dispatch.Malformed(payload));
    }

    /** `splitAndProcessMessage(rawContent)`: split the frame, then handle each payload until one throws. */
    method SplitAndProcessMessage(rawContent: string, parse: string -> Option<Json>, now: int)
      returns (failure: Option<Dispatch.ReadError>)
      modifies this
      requires Valid()
      ensures Valid()
      ensures Dispatch.Outcome(Model(), failure) == Dispatch.HandleText(Config(), old(Model()), rawContent, parse, now)
    {
      var split := SplitMessages(rawContent);
      if split.Failure? {
        return Some(Dispatch.BadFrame(split.error));
      }
      var messages := split.value;
      ghost var start := Model();
      failure := None;
      var i := 0;
      while i < |messages| && failure.None?
        invariant 0 <= i <= |messages|
        invariant Valid()
        invariant Dispatch.HandleMessages(Config(), start, messages, parse, now)
          == if failure.Some? then Dispatch.Outcome(Model(), failure)
             else Dispatch.HandleMessages(Config(), Model(), messages[i..], parse, now)
        decreases |messages| - i
      {
        assert messages[i..][0] == messages[i] && messages[i..][1..] == messages[i + 1..];
        failure := ProcessMessage(messages[i], parse, now);
        i := i + 1;
      }
    }

    /** One round of the keepalive watchdog at time `now`; `stop` ends its loop. */
    method WatchdogRound(now: int) returns (stop: bool)
      modifies this
      requires Valid()
      ensures Valid()
      ensures Dispatch.Watch(Model(), stop) == Dispatch.WatchdogRound(Config(), old(Model()), now)
    {
      if isShuttingDown {
        return true;
      }
      if PingOverdue(now, lastPingReceivedAt, pingInterval) {
        var _ := ShutdownSession();
        return true;
      }
      stop := false;
    }

    /** The end of the connection coroutine: compute the delay, shut down, reconnect (or give up). */
    method ConnectionLost() returns (delay: Option<nat>)
      modifies this
      requires Valid()
      ensures Valid()
      ensures Dispatch.Reconnection(Model(), delay) == Dispatch.ConnectionLost(old(Model()))
    {
      var wait := ReconnectDelay(connectionTries);
      var ok := ShutdownSession();
      if ok {
        Connect();
        delay := Some(wait);
      } else {
        delay := None;
      }
    }

    /**
     * The connection coroutine once the socket is open: store the session,
     * read frames until a close frame or an exception, then reconnect.
     */
    method RunConnection(frames: seq<Dispatch.Incoming>, parse: string -> Option<Json>) returns (delay: Option<nat>)
      modifies this
      requires Valid()
      ensures Valid()
      ensures Dispatch.Reconnection(Model(), delay) == Dispatch.Lifetime(Config(), old(Model()), frames, parse)
    {
      hasSession := true;
      ghost var start := Model();
      var i := 0;
      var stop := false;
      while i < |frames| && !stop
        invariant 0 <= i <= |frames|
        invariant Valid()
        invariant Dispatch.ReadLoop(Config(), start, frames, parse)
          == if stop then Model() else Dispatch.ReadLoop(Config(), Model(), frames[i..], parse)
        decreases |frames| - i
      {
        assert frames[i..][0] == frames[i] && frames[i..][1..] == frames[i + 1..];
        match frames[i] {
          case TextFrame(raw, now) =>
            var failure := SplitAndProcessMessage(raw, parse, now);
            stop := failure.Some?;
          case CloseFrame =>
            var _ := ShutdownSession();
            stop := true;
          case OtherFrame =>
        }
        i := i + 1;
      }
      delay := ConnectionLost();
    }
  }
}
