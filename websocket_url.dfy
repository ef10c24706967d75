/**
 * The streaming endpoint of the WebSocket module: the base address with its
 * `http` prefix turned into `ws`, the `/ws` path, and an ordered list of query
 * parameters (the API key, exactly one session, then the event filter).
 * The URL is kept as a structured value; its serialisation to text
 * (percent-encoding, normalisation by the URL parser) is not modelled.
 */
module WebSocketUrl {
  import opened Wrappers
  import opened Client

  /** The `events` option: the string "*" or an array of event names. */
  datatype EventFilter = AllEvents | EventNames(names: seq<string>)

  /** The options of one `connect` call; absent properties are `None`. */
  datatype Options = Options(session: Option<string>, events: Option<EventFilter>)

  /** What the reconnect path passes: nothing at all. */
  const NoOptions: Options := Options(None, None)

  datatype Param = Param(key: string, value: string)

  datatype WsUrl = WsUrl(endpoint: string, query: seq<Param>)

  predicate StartsWithHttp(s: string) {
    |s| >= 4 && s[..4] == "http"
  }

  /** `baseUrl.replace(/^http/, 'ws')`: only a leading "http" is rewritten. */
  function StreamingBase(baseUrl: string): (r: string)
    ensures StartsWithHttp(baseUrl) ==> r == "ws" + baseUrl[4..]
    ensures !StartsWithHttp(baseUrl) ==> r == baseUrl
  {
    if StartsWithHttp(baseUrl) then "ws" + baseUrl[4..] else baseUrl
  }

  /** The rewrite maps the plain scheme to the plain one and the secure scheme to the secure one. */
  lemma SchemeRewrite(rest: string)
    ensures StreamingBase("http://" + rest) == "ws://" + rest
    ensures StreamingBase("https://" + rest) == "wss://" + rest
  {
    SplitAfterScheme("http://", rest);
    SplitAfterScheme("https://", rest);
  }

  lemma SplitAfterScheme(scheme: string, rest: string)
    requires |scheme| >= 4 && scheme[..4] == "http"
    ensures StreamingBase(scheme + rest) == "ws" + scheme[4..] + rest
  {
    var s := scheme + rest;
    assert s[..4] == scheme[..4];
    assert s[4..] == scheme[4..] + rest;
  }

  /** One `events` parameter per name, in the order given. */
  function EventParams(names: seq<string>): (q: seq<Param>)
    ensures |q| == |names|
    ensures forall i :: 0 <= i < |q| ==> q[i] == Param("events", names[i])
  {
    if names == [] then []
    else EventParams(names[..|names| - 1]) + [Param("events", names[|names| - 1])]
  }

  function ApiKeyParams(c: ClientConfig): seq<Param> {
    if Truthy(c.apiKey) then [Param("x-api-key", c.apiKey.value)] else []
  }

  function SessionParam(c: ClientConfig, options: Options): Param {
    Param("session", if Truthy(options.session) then options.session.value else GetDefaultSession(c))
  }

  function FilterParams(events: Option<EventFilter>): seq<Param> {
    match events
    case None => []
    case Some(AllEvents) => [Param("events", "*")]
    case Some(EventNames(names)) => EventParams(names)
  }

  /** The URL `buildWebSocketUrl` produces for a client configuration and connect options. */
  function BuildUrl(c: ClientConfig, options: Options): WsUrl {
    WsUrl(StreamingBase(c.baseUrl) + "/ws",
          ApiKeyParams(c) + [SessionParam(c, options)] + FilterParams(options.events))
  }

  // ---------------------------------------------------------------------
  // Reading a query back
  // ---------------------------------------------------------------------

  /** The values of every parameter named `key`, in query order. */
  function ValuesOf(q: seq<Param>, key: string): seq<string> {
    if q == [] then []
    else (if q[0].key == key then [q[0].value] else []) + ValuesOf(q[1..], key)
  }

  /** The `events` values a filter asks for. */
  function EventValues(events: Option<EventFilter>): seq<string> {
    match events
    case None => []
    case Some(AllEvents) => ["*"]
    case Some(EventNames(names)) => names
  }

  /** Parameters appear grouped: API key, then session, then events. */
  function Rank(key: string): nat {
    if key == "x-api-key" then 0 else if key == "session" then 1 else 2
  }

  lemma {:induction false} ValuesOfAppend(a: seq<Param>, b: seq<Param>, key: string)
    ensures ValuesOf(a + b, key) == ValuesOf(a, key) + ValuesOf(b, key)
  {
    if a == [] {
      assert a + b == b;
    } else {
      assert (a + b)[0] == a[0];
      assert (a + b)[1..] == a[1..] + b;
      ValuesOfAppend(a[1..], b, key);
    }
  }

  lemma {:induction false} ValuesOfEventParams(names: seq<string>, key: string)
    ensures ValuesOf(EventParams(names), key) == if key == "events" then names else []
  {
    if names != [] {
      var init, last := names[..|names| - 1], names[|names| - 1];
      assert EventParams(names) == EventParams(init) + [Param("events", last)];
      ValuesOfEventParams(init, key);
      ValuesOfAppend(EventParams(init), [Param("events", last)], key);
      ValuesOfSingle(Param("events", last), key);
      if key == "events" {
        assert names == init + [last];
      }
    }
  }

  lemma FilterValues(events: Option<EventFilter>, key: string)
    ensures ValuesOf(FilterParams(events), key) == if key == "events" then EventValues(events) else []
  {
    match events
    case None =>
    case Some(AllEvents) =>
    case Some(EventNames(names)) => ValuesOfEventParams(names, key);
  }

  lemma ValuesOfSingle(p: Param, key: string)
    ensures ValuesOf([p], key) == if p.key == key then [p.value] else []
  {
    assert [p][1..] == [];
  }

  lemma ValuesParts(a: seq<Param>, b: seq<Param>, c: seq<Param>, key: string)
    ensures ValuesOf(a + b + c, key) == ValuesOf(a, key) + ValuesOf(b, key) + ValuesOf(c, key)
  {
    ValuesOfAppend(a + b, c, key);
    ValuesOfAppend(a, b, key);
  }

  /**
   * The parameters of the built URL: the rewritten base plus `/ws`; an
   * `x-api-key` value exactly when an API key is set; exactly one `session`
   * value, the option or else the client's default session; and the event
   * filter's values, in order.
   */
  lemma UrlParameters(c: ClientConfig, options: Options)
    ensures BuildUrl(c, options).endpoint == StreamingBase(c.baseUrl) + "/ws"
    ensures ValuesOf(BuildUrl(c, options).query, "x-api-key")
         == if Truthy(c.apiKey) then [c.apiKey.value] else []
    ensures ValuesOf(BuildUrl(c, options).query, "session") == [FormatSession(c, options.session)]
    ensures ValuesOf(BuildUrl(c, options).query, "events") == EventValues(options.events)
  {
    var keyPart, sessionPart := ApiKeyParams(c), [SessionParam(c, options)];
    var tail := FilterParams(options.events);
    assert BuildUrl(c, options).query == keyPart + sessionPart + tail;
    ValuesOfSingle(sessionPart[0], "x-api-key");
    ValuesOfSingle(sessionPart[0], "session");
    ValuesOfSingle(sessionPart[0], "events");
    assert "session" != "events" && "session" != "x-api-key";
    assert ValuesOf(keyPart, "x-api-key") == if Truthy(c.apiKey) then [c.apiKey.value] else [];
    assert ValuesOf(keyPart, "session") == [] && ValuesOf(keyPart, "events") == [];
    ValuesParts(keyPart, sessionPart, tail, "x-api-key");
    ValuesParts(keyPart, sessionPart, tail, "session");
    ValuesParts(keyPart, sessionPart, tail, "events");
    FilterValues(options.events, "x-api-key");
    FilterValues(options.events, "session");
    FilterValues(options.events, "events");
  }

  /** The built query holds no other parameter, and its groups come in order: key, session, events. */
  lemma UrlParameterOrder(c: ClientConfig, options: Options)
    ensures forall i :: 0 <= i < |BuildUrl(c, options).query| ==>
              BuildUrl(c, options).query[i].key in {"x-api-key", "session", "events"}
    ensures forall i, j :: 0 <= i < j < |BuildUrl(c, options).query| ==>
              Rank(BuildUrl(c, options).query[i].key) <= Rank(BuildUrl(c, options).query[j].key)
  {
    var keyPart, tail := ApiKeyParams(c), FilterParams(options.events);
    var q := keyPart + [SessionParam(c, options)] + tail;
    assert BuildUrl(c, options).query == q;
    assert forall i :: 0 <= i < |tail| ==> tail[i].key == "events" by {
      match options.events
      case None =>
      case Some(AllEvents) =>
      case Some(EventNames(names)) =>
    }
    assert forall i :: 0 <= i < |q| ==> Rank(q[i].key) == (if i < |keyPart| then 0 else if i == |keyPart| then 1 else 2) by {
      forall i | 0 <= i < |q|
        ensures Rank(q[i].key) == (if i < |keyPart| then 0 else if i == |keyPart| then 1 else 2)
      {
        if i > |keyPart| { assert q[i] == tail[i - |keyPart| - 1]; }
      }
    }
  }
}
