/**
 * The JSON commands the client sends to the quote server. Each is an object
 * `{"m": <method>, "p": [<params>...]}`; the "authenticated" ones carry the
 * client's session id as their first parameter.
 */
module Commands {
  import opened Wrappers
  import opened JsonValues

  /** The list of fields requested for every ticker, in the order the client declares them (duplicates included). */
  const DefaultTickerFields: seq<string> := [
    "ch", "chp", "current_session", "description", "language", "exchange",
    "fractional", "is_tradable", "lp", "minmov", "minmove2", "original_name",
    "pricescale", "pro_name", "short_name", "type", "update_mode", "volume",
    "ask", "bid", "high_price", "is_tradable", "low_price", "open_price",
    "prev_close_price", "rch", "rchp", "rtc", "basic_eps_net_income",
    "beta_1_year", "earnings_per_share_basic_ttm", "industry",
    "market_cap_basic", "sector", "volume", "dividends_yield"
  ]

  /** A command object with method `m` and parameter list `params`. */
  function Message(m: string, params: seq<Json>): Json
  {
    JObject(map["m" := JString(m), "p" := JArray(params)])
  }

  /** The method name a command carries, if it has a string `m`. */
  function MethodOf(j: Json): Option<string>
  {
    match Field(j, "m")
    case Some(JString(m)) => Some(m)
    case _ => None
  }

  /** The parameter list a command carries, if it has an array `p`. */
  function ParamsOf(j: Json): Option<seq<Json>>
  {
    match Field(j, "p")
    case Some(JArray(ps)) => Some(ps)
    case _ => None
  }

  /** The session a command is bound to: its first parameter, when that is a string. */
  function SessionOf(j: Json): Option<string>
  {
    match ParamsOf(j)
    case Some(ps) => if |ps| > 0 && ps[0].JString? then Some(ps[0].s) else None
    case None => None
  }

  /** Reading a command back gives its method and parameters. */
  lemma MessageFields(m: string, params: seq<Json>)
    ensures MethodOf(Message(m, params)) == Some(m)
    ensures ParamsOf(Message(m, params)) == Some(params)
  {
  }

  /** `createAuthenticatedMessage`: the session id, then the method's own parameters. */
  function Authenticated(sessionId: string, m: string, data: seq<Json>): (j: Json)
    ensures MethodOf(j) == Some(m)
    ensures ParamsOf(j) == Some([JString(sessionId)] + data)
    ensures SessionOf(j) == Some(sessionId)
  {
    Message(m, [JString(sessionId)] + data)
  }

  /** `sendAuthToken`: the only command that does not carry the session id. */
  function AuthToken(token: string): (j: Json)
    ensures MethodOf(j) == Some("set_auth_token")
    ensures ParamsOf(j) == Some([JString(token)])
  {
    Message("set_auth_token", [JString(token)])
  }

  function CreateQuoteSession(sessionId: string): (j: Json)
    ensures MethodOf(j) == Some("quote_create_session")
    ensures ParamsOf(j) == Some([JString(sessionId)])
  {
    assert [JString(sessionId)] + [] == [JString(sessionId)];
    Authenticated(sessionId, "quote_create_session", [])
  }

  /** The strings `xs` as JSON strings, in order. */
  function Strings(xs: seq<string>): (r: seq<Json>)
    ensures |r| == |xs|
    ensures forall i :: 0 <= i < |xs| ==> r[i] == JString(xs[i])
  {
    if xs == [] then [] else [JString(xs[0])] + Strings(xs[1..])
  }

  /** `setQuoteFields(fields)`: the session id followed by every field name. */
  function SetQuoteFields(sessionId: string, fields: seq<string>): (j: Json)
    ensures MethodOf(j) == Some("quote_set_fields")
    ensures ParamsOf(j) == Some([JString(sessionId)] + Strings(fields))
  {
    Authenticated(sessionId, "quote_set_fields", Strings(fields))
  }

  /** The options object `registerTicker` sends with every symbol. */
  const ForcePermission: Json := JObject(map["flags" := JArray([JString("force_permission")])])

  /** `registerTicker(tickerId)`: subscribe one symbol. */
  function AddSymbol(sessionId: string, tickerId: string): (j: Json)
    ensures MethodOf(j) == Some("quote_add_symbols")
    ensures ParamsOf(j) == Some([JString(sessionId), JString(tickerId), ForcePermission])
  {
    assert [JString(sessionId)] + [JString(tickerId), ForcePermission] == [JString(sessionId), JString(tickerId), ForcePermission];
    Authenticated(sessionId, "quote_add_symbols", [JString(tickerId), ForcePermission])
  }

  /** The ticker a `quote_add_symbols` command subscribes, if `j` is one. */
  function SymbolOf(j: Json): Option<string>
  {
    if MethodOf(j) == Some("quote_add_symbols") && ParamsOf(j).Some?
       && |ParamsOf(j).value| >= 2 && ParamsOf(j).value[1].JString?
    then Some(ParamsOf(j).value[1].s)
    else None
  }

  /** The subscribed symbol can be read back from the command that subscribes it. */
  lemma AddSymbolNamesTicker(sessionId: string, tickerId: string)
    ensures SymbolOf(AddSymbol(sessionId, tickerId)) == Some(tickerId)
    ensures SessionOf(AddSymbol(sessionId, tickerId)) == Some(sessionId)
  {
  }

  /** The field list requested has 36 entries; `is_tradable` and `volume` are each asked for twice. */
  lemma DefaultFieldsShape()
    ensures |DefaultTickerFields| == 36
    ensures DefaultTickerFields[7] == DefaultTickerFields[21] == "is_tradable"
    ensures DefaultTickerFields[17] == DefaultTickerFields[34] == "volume"
  {
  }
}
