/**
 * Properties of the client's protocol that span several steps or tie the
 * state machine to the wire format: what a ping frame makes the client
 * send back, what the handshake sends, how a suspended retrieval is
 * resumed, and how reconnect delays follow a handshake.
 */
module Protocol {
  import opened Wrappers
  import opened JsonValues
  import opened Framing
  import opened Commands
  import opened TickerStore
  import opened Callbacks
  import opened Backoff
  import opened Dispatch

  /** A text frame holding one sendable ping is answered by the very same envelope. */
  lemma PingEcho(cfg: Config, st: State, p: string, parse: string -> Option<Json>, now: int)
    requires StartsWith(p, "~h~") && Sendable(p)
    ensures HandleText(cfg, st, Frame(p), parse, now) == Outcome(Pong(st, p, now), None)
    ensures Pong(st, p, now).sent == st.sent + [Raw(p)]
  {
    DecodeFrame(p);
    assert Classify(p, parse) == Ping;
    var o := HandleMessage(cfg, st, p, parse, now);
    assert o == Outcome(Pong(st, p, now), None);
    assert [p][1..] == [];
    assert HandleMessages(cfg, st, [p], parse, now) == HandleMessages(cfg, o.state, [], parse, now);
  }

  /** A JSON object with a `session_id` key, however else it looks, starts the handshake and nothing more. */
  lemma GreetingStartsHandshake(cfg: Config, st: State, payload: string, parse: string -> Option<Json>, now: int,
                                fields: map<string, Json>)
    requires !StartsWith(payload, "~h~") && Braced(payload)
    requires parse(payload) == Some(JObject(fields)) && "session_id" in fields
    ensures HandleMessage(cfg, st, payload, parse, now) == Outcome(Handshake(cfg, st, now), None)
  {
    assert Classify(payload, parse) == SessionStart;
  }

  /**
   * A `qsd` object whose `p[1]` holds a status `s`, a ticker `n` and a delta
   * object `v` is applied as that quote.
   */
  lemma QuotePayloadApplied(cfg: Config, st: State, payload: string, parse: string -> Option<Json>, now: int,
                            fields: map<string, Json>, rest: seq<Json>, data: map<string, Json>,
                            status: string, ticker: string, values: Snapshot)
    requires !StartsWith(payload, "~h~") && Braced(payload)
    requires parse(payload) == Some(JObject(fields)) && "session_id" !in fields
    requires "m" in fields && fields["m"] == JString("qsd")
    requires "p" in fields && fields["p"] == JArray(rest) && |rest| >= 2 && rest[1] == JObject(data)
    requires "s" in data && data["s"] == JString(status) && "n" in data && data["n"] == JString(ticker)
    requires "v" in data && data["v"] == JObject(values)
    ensures HandleMessage(cfg, st, payload, parse, now) == ApplyQuote(st, Quote(status, ticker, values))
  {
    assert ContentOf(fields, "m") == Some("qsd");
    assert QuoteOf(fields) == QuoteData(Quote(status, ticker, values));
    assert Classify(payload, parse) == QuoteData(Quote(status, ticker, values));
  }

  /** Text that looks like an object but does not parse stops the frame with the payload as the error. */
  lemma UnparsablePayloadFails(cfg: Config, st: State, payload: string, parse: string -> Option<Json>, now: int)
    requires !StartsWith(payload, "~h~") && Braced(payload) && parse(payload).None?
    ensures HandleMessage(cfg, st, payload, parse, now) == Outcome(st, Some(Malformed(payload)))
  {
    assert Classify(payload, parse) == Unparsable;
  }

  /** A payload that is neither a ping nor braced is skipped: nothing changes. */
  lemma OtherPayloadIgnored(cfg: Config, st: State, payload: string, parse: string -> Option<Json>, now: int)
    requires !StartsWith(payload, "~h~") && !Braced(payload)
    ensures HandleMessage(cfg, st, payload, parse, now) == Outcome(st, None)
  {
    assert Classify(payload, parse) == Ignored;
  }

  /**
   * A JSON object without `session_id` whose `m` is absent, or is a
   * primitive other than "qsd" (`quote_completed`, for one), is skipped:
   * nothing changes and the read loop goes on. An `m` that is an array or
   * an object has no `content`, and the payload ends the read loop.
   */
  lemma OtherObjectIgnored(cfg: Config, st: State, payload: string, parse: string -> Option<Json>, now: int)
    requires !StartsWith(payload, "~h~") && Braced(payload)
    requires parse(payload).Some? && parse(payload).value.JObject?
    requires "session_id" !in parse(payload).value.fields
    ensures var fields := parse(payload).value.fields;
      ("m" !in fields || (Content(fields["m"]).Some? && Content(fields["m"]).value != "qsd")) ==>
        HandleMessage(cfg, st, payload, parse, now) == Outcome(st, None)
    ensures var fields := parse(payload).value.fields;
      "m" in fields && Content(fields["m"]).None? ==>
        HandleMessage(cfg, st, payload, parse, now) == Outcome(st, Some(Malformed(payload)))
  {
  }

  /** The server's `quote_completed` notice, parsed as an object, changes nothing. */
  lemma QuoteCompletedIgnored(cfg: Config, st: State, parse: string -> Option<Json>, now: int)
    requires parse("{x}") == Some(JObject(map["m" := JString("quote_completed")]))
    ensures HandleMessage(cfg, st, "{x}", parse, now) == Outcome(st, None)
  {
    assert StartsWith("{x}", "{") && EndsWith("{x}", "}");
    assert "{x}"[..3] != "~h~" by { assert "{x}"[0] == '{'; }
    OtherObjectIgnored(cfg, st, "{x}", parse, now);
  }

  /** Frames built by the sender are handed to `processMessage` one payload at a time, in order. */
  lemma FramesDelivered(cfg: Config, st: State, ps: seq<string>, parse: string -> Option<Json>, now: int)
    requires forall i :: 0 <= i < |ps| ==> Sendable(ps[i])
    ensures HandleText(cfg, st, Frames(ps), parse, now) == HandleMessages(cfg, st, ps, parse, now)
  {
    DecodeFrames(ps);
  }

  /**
   * The handshake sends the auth token, creates the quote session, sets the
   * fields and subscribes to every known ticker in order; every command
   * after the first carries the client's session id as its first parameter.
   */
  lemma HandshakeCommandsShape(cfg: Config, order: seq<string>)
    ensures var cmds := HandshakeCommands(cfg) + Replay(cfg.sessionId, order);
      |cmds| == 3 + |order| &&
      (forall i :: 0 <= i < |cmds| ==> cmds[i].Command?) &&
      MethodOf(cmds[0].body) == Some("set_auth_token") &&
      ParamsOf(cmds[0].body) == Some([JString(cfg.authToken)]) &&
      MethodOf(cmds[1].body) == Some("quote_create_session") &&
      MethodOf(cmds[2].body) == Some("quote_set_fields") &&
      ParamsOf(cmds[2].body) == Some([JString(cfg.sessionId)] + Strings(cfg.tickerFields))
    ensures var cmds := HandshakeCommands(cfg) + Replay(cfg.sessionId, order);
      forall i :: 1 <= i < |cmds| ==> SessionOf(cmds[i].body) == Some(cfg.sessionId)
    ensures var cmds := HandshakeCommands(cfg) + Replay(cfg.sessionId, order);
      forall i :: 3 <= i < |cmds| ==> SymbolOf(cmds[i].body) == Some(order[i - 3])
  {
    var cmds := HandshakeCommands(cfg) + Replay(cfg.sessionId, order);
    forall i | 3 <= i < |cmds|
      ensures SymbolOf(cmds[i].body) == Some(order[i - 3])
      ensures SessionOf(cmds[i].body) == Some(cfg.sessionId)
    {
      assert cmds[i] == Replay(cfg.sessionId, order)[i - 3];
      AddSymbolNamesTicker(cfg.sessionId, order[i - 3]);
    }
  }

  /**
   * With `order` and the ticker map in step, the handshake resubscribes to
   * exactly the tickers the client holds, each of them once.
   */
  lemma ReplayCoversTickers(sessionId: string, st: State)
    requires Valid(st)
    ensures forall k :: k in st.tickers <==> Command(AddSymbol(sessionId, k)) in Replay(sessionId, st.order)
    ensures var cmds := Replay(sessionId, st.order);
      forall i, j :: 0 <= i < j < |cmds| ==> cmds[i] != cmds[j]
  {
    var cmds := Replay(sessionId, st.order);
    forall k
      ensures k in st.tickers <==> Command(AddSymbol(sessionId, k)) in cmds
    {
      if k in st.tickers {
        var i :| 0 <= i < |st.order| && st.order[i] == k;
        assert cmds[i] == Command(AddSymbol(sessionId, k));
      }
      if Command(AddSymbol(sessionId, k)) in cmds {
        var i :| 0 <= i < |cmds| && cmds[i] == Command(AddSymbol(sessionId, k));
        AddSymbolNamesTicker(sessionId, k);
        AddSymbolNamesTicker(sessionId, st.order[i]);
        assert st.order[i] == k;
      }
    }
    forall i, j | 0 <= i < j < |cmds|
      ensures cmds[i] != cmds[j]
    {
      AddSymbolNamesTicker(sessionId, st.order[i]);
      AddSymbolNamesTicker(sessionId, st.order[j]);
    }
  }

  /**
   * A retrieval that has to wait is resumed by the first quote for its
   * ticker that has every required field, and that quote removes the waiter;
   * a quote missing a field leaves the waiter in place and resumes nothing.
   */
  lemma RetrievalResumedByCompleteQuote(cfg: Config, st: State, t: string, required: seq<string>, q: Quote)
    requires st.ready && t !in st.tickers
    requires q.ticker == t && q.status != "error"
    ensures var r := GetOrRetrieve(cfg, st, t, required);
      r.result == Suspended(st.nextCall) &&
      var o := ApplyQuote(r.state, q);
      o.failure.None? &&
      (HasFields(q.values, required) <==>
        (t !in o.state.callbacks && o.state.events == st.events + [Resumed(st.nextCall, q.values)]))
    ensures var r := GetOrRetrieve(cfg, st, t, required);
      var o := ApplyQuote(r.state, q);
      !HasFields(q.values, required) ==>
        o.state.callbacks == r.state.callbacks && o.state.events == st.events
  {
    var r := GetOrRetrieve(cfg, st, t, required);
    var snapshot := Merge(Lookup(r.state.tickers, t), q.values);
    assert snapshot == q.values;
    WaiterGating(r.state.callbacks, t, snapshot);
    var inv := Invoke(r.state.callbacks, t, snapshot);
    if HasFields(q.values, required) {
      assert inv.table == r.state.callbacks - {t};
    } else {
      assert inv.events == [];
      assert st.events + [] == st.events;
    }
  }

  /**
   * A second retrieval of a ticker that is still pending replaces the first
   * one's waiter: the next complete quote resumes only the second call, and
   * the first stays suspended.
   */
  lemma LaterRetrievalReplacesWaiter(cfg: Config, st: State, t: string, req1: seq<string>, req2: seq<string>, q: Quote)
    requires st.ready && t !in st.tickers
    requires q.ticker == t && q.status != "error" && HasFields(q.values, req2)
    ensures var r1 := GetOrRetrieve(cfg, st, t, req1);
      var r2 := GetOrRetrieve(cfg, r1.state, t, req2);
      var o := ApplyQuote(r2.state, q);
      r1.result == Suspended(st.nextCall) && r2.result == Suspended(r1.state.nextCall) &&
      st.nextCall != r1.state.nextCall &&
      o.state.events == st.events + [Resumed(r1.state.nextCall, q.values)] &&
      t !in o.state.callbacks
  {
    var r1 := GetOrRetrieve(cfg, st, t, req1);
    RetrievalResumedByCompleteQuote(cfg, r1.state, t, req2, q);
  }

  /**
   * A retrieval whose first quote lacks a required field stays suspended;
   * a later quote that completes the merged snapshot resumes it with that
   * merged snapshot and removes the waiter.
   */
  lemma IncompleteThenCompleteQuote(cfg: Config, st: State, t: string, required: seq<string>, q1: Quote, q2: Quote)
    requires st.ready && t !in st.tickers
    requires q1.ticker == t && q2.ticker == t && q1.status != "error" && q2.status != "error"
    requires !HasFields(q1.values, required) && HasFields(Merge(Some(q1.values), q2.values), required)
    ensures var r := GetOrRetrieve(cfg, st, t, required);
      var o1 := ApplyQuote(r.state, q1);
      var o2 := ApplyQuote(o1.state, q2);
      r.result == Suspended(st.nextCall) &&
      o1.state.events == st.events && o1.state.callbacks[t] == Waiter(required, st.nextCall) &&
      o2.state.events == st.events + [Resumed(st.nextCall, Merge(Some(q1.values), q2.values))] &&
      t !in o2.state.callbacks && o2.state.tickers[t] == Merge(Some(q1.values), q2.values)
  {
    var r := GetOrRetrieve(cfg, st, t, required);
    RetrievalResumedByCompleteQuote(cfg, st, t, required, q1);
    var o1 := ApplyQuote(r.state, q1);
    MergeFirst(q1.values);
    assert o1.state.tickers[t] == q1.values;
    var merged := Merge(Some(q1.values), q2.values);
    WaiterGating(o1.state.callbacks, t, merged);
  }

  /** A listener is handed the merged snapshot of every update to its ticker, and stays installed. */
  lemma ListenerSeesMergedSnapshot(st: State, q: Quote)
    requires q.status != "error" && q.ticker in st.callbacks && st.callbacks[q.ticker].Listener?
    ensures var o := ApplyQuote(st, q);
      o.state.events == st.events + [Delivered(st.callbacks[q.ticker].handle, Merge(Lookup(st.tickers, q.ticker), q.values))] &&
      o.state.callbacks == st.callbacks
  {
    ListenerAlwaysCalled(st.callbacks, q.ticker, Merge(Lookup(st.tickers, q.ticker), q.values));
  }

  /**
   * The handshake restarts the keepalive clock: a watchdog round within the
   * ping interval of it changes nothing and keeps watching, and a round
   * after that interval closes the session and stops.
   */
  lemma HandshakeRestartsWatchdog(cfg: Config, st: State, handshakeAt: int, now: int)
    requires !st.shuttingDown && st.hasSession
    ensures var h := Handshake(cfg, st, handshakeAt);
      var w := WatchdogRound(cfg, h, now);
      (now - handshakeAt <= cfg.pingInterval ==> w == Watch(h, false)) &&
      (now - handshakeAt > cfg.pingInterval ==> w.stop && w.state.sent == h.sent + [Close])
  {
  }

  /** Once a quote has arrived, asking for its ticker returns the merged snapshot and sends nothing. */
  lemma RetrievalAfterQuoteIsCached(cfg: Config, st: State, q: Quote, required: seq<string>)
    requires st.ready && q.status != "error"
    ensures var o := ApplyQuote(st, q);
      GetOrRetrieve(cfg, o.state, q.ticker, required) ==
        Retrieve(o.state, Cached(Merge(Lookup(st.tickers, q.ticker), q.values)))
  {
  }

  /**
   * A connection that reaches the handshake and is then lost waits two
   * seconds before reconnecting, however many attempts came before it.
   */
  lemma HandshakeResetsBackoff(cfg: Config, st: State, now: int)
    requires st.hasSession
    ensures ConnectionLost(Handshake(cfg, st, now)).delay == Some(2000)
    ensures ConnectionLost(Handshake(cfg, st, now)).state.tries == 2
  {
    FirstDelays();
  }

  /**
   * Right after a handshake the counter is 1: that connection, once lost,
   * waits 2 seconds, and the attempts after it that are lost before their
   * own handshake wait 4 and then 8 seconds.
   */
  lemma BackoffWithoutHandshake(st: State)
    requires st.hasSession && st.tries == 1
    ensures var l1 := ConnectionLost(st);
      var l2 := ConnectionLost(l1.state);
      var l3 := ConnectionLost(l2.state);
      l1.delay == Some(2000) && l2.delay == Some(4000) && l3.delay == Some(8000) && l3.state.tries == 4
  {
    FirstDelays();
  }

  /**
   * A fresh client has already counted one attempt when its first session
   * opens (`connect()` increments the counter before connecting), so
   * connections that never reach a handshake wait 4, 8 and then 16 seconds.
   */
  lemma FreshClientBackoff(cfg: Config, parse: string -> Option<Json>)
    ensures var l1 := Lifetime(cfg, Connect(Initial), [], parse);
      var l2 := Lifetime(cfg, l1.state, [], parse);
      var l3 := Lifetime(cfg, l2.state, [], parse);
      l1.delay == Some(4000) && l2.delay == Some(8000) && l3.delay == Some(16000) && l3.state.tries == 5
  {
    FirstDelays();
  }

  /**
   * `shutdown()` closes the session but does not stop the reconnecting
   * coroutine: the lost connection is followed by a new attempt that clears
   * the shutdown flag.
   */
  lemma ShutdownDoesNotPreventReconnect(st: State)
    requires st.hasSession
    ensures var s := Shutdown(st);
      s.ok && s.state.tickers == map[] &&
      ConnectionLost(s.state).delay == Some(ReconnectDelay(st.tries)) &&
      !ConnectionLost(s.state).state.shuttingDown
  {
  }

  /** A close frame ends the read loop: frames after it are never handled. */
  lemma CloseEndsReadLoop(cfg: Config, st: State, rest: seq<Incoming>, parse: string -> Option<Json>)
    ensures ReadLoop(cfg, st, [CloseFrame] + rest, parse) == ShutdownSession(st).state
  {
    assert ([CloseFrame] + rest)[0] == CloseFrame;
  }

  /**
   * A payload that throws (an error quote for a ticker with a callback, a
   * malformed message, a bad envelope) ends the read loop: the rest of its
   * frame and every later frame go unread, and a pending retrieval of an
   * errored ticker is neither resumed nor failed.
   */
  lemma FailureEndsReadLoop(cfg: Config, st: State, raw: string, now: int, rest: seq<Incoming>,
                            parse: string -> Option<Json>)
    requires HandleText(cfg, st, raw, parse, now).failure.Some?
    ensures ReadLoop(cfg, st, [TextFrame(raw, now)] + rest, parse) == HandleText(cfg, st, raw, parse, now).state
  {
    assert ([TextFrame(raw, now)] + rest)[0] == TextFrame(raw, now);
  }

  /** An error quote for a ticker someone waits on ends the connection and leaves the waiter in place. */
  lemma ErrorQuoteLeavesWaiter(st: State, q: Quote)
    requires q.status == "error" && q.ticker in st.callbacks && st.callbacks[q.ticker].Waiter?
    ensures ApplyQuote(st, q) == Outcome(st, Some(InvalidTicker(q.ticker)))
    ensures ApplyQuote(st, q).state.callbacks[q.ticker] == st.callbacks[q.ticker]
  {
  }

  /** Reading ready-framed text payloads: each frame's payloads are handled in turn. */
  lemma {:induction false} ReadLoopOfSendableFrames(cfg: Config, st: State, ps: seq<string>, now: int,
                                                    parse: string -> Option<Json>)
    requires forall i :: 0 <= i < |ps| ==> Sendable(ps[i])
    ensures ReadLoop(cfg, st, [TextFrame(Frames(ps), now)], parse) == HandleMessages(cfg, st, ps, parse, now).state
  {
    FramesDelivered(cfg, st, ps, parse, now);
    var frames := [TextFrame(Frames(ps), now)];
    assert frames[1..] == [];
  }
}
