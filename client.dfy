/**
 * The base REST client of the WAHA SDK, reduced to its decisions: the
 * constructor's configuration defaulting, the request headers it derives
 * from the API key, the session-name fallbacks, and the way the response
 * interceptor turns a failed request into the object it rejects with.
 * The HTTP transport itself is not modelled.
 */
module Client {
  import opened Wrappers

  const DefaultSessionName: string := "default"

  /** What a caller hands to the constructor; absent properties are `None`. */
  datatype ClientOptions = ClientOptions(baseUrl: string, apiKey: Option<string>, defaultSession: Option<string>)

  /** The configuration the client keeps once the constructor has merged its defaults. */
  datatype ClientConfig = ClientConfig(baseUrl: string, apiKey: Option<string>, defaultSession: string)

  /**
   * The constructor's merge: `defaultSession` starts as "default" and every
   * property the caller supplies (an empty string included) wins.
   */
  function NewClient(options: ClientOptions): (c: ClientConfig)
    ensures c.baseUrl == options.baseUrl && c.apiKey == options.apiKey
    ensures options.defaultSession.Some? ==> c.defaultSession == options.defaultSession.value
    ensures options.defaultSession.None? ==> c.defaultSession == DefaultSessionName
  {
    ClientConfig(options.baseUrl, options.apiKey,
                 if options.defaultSession.Some? then options.defaultSession.value else DefaultSessionName)
  }

  /** The default headers of every request: JSON content, plus the API key when one is set. */
  function Headers(c: ClientConfig): (h: map<string, string>)
    ensures "Content-Type" in h && h["Content-Type"] == "application/json"
    ensures "X-Api-Key" in h <==> Truthy(c.apiKey)
    ensures "X-Api-Key" in h ==> h["X-Api-Key"] == c.apiKey.value
    ensures h.Keys <= {"Content-Type", "X-Api-Key"}
  {
    map["Content-Type" := "application/json"]
      + (if Truthy(c.apiKey) then map["X-Api-Key" := c.apiKey.value] else map[])
  }

  /** The session used when a call names none; never empty. */
  function GetDefaultSession(c: ClientConfig): (s: string)
    ensures s != ""
    ensures c.defaultSession != "" ==> s == c.defaultSession
    ensures c.defaultSession == "" ==> s == DefaultSessionName
  {
    if c.defaultSession != "" then c.defaultSession else DefaultSessionName
  }

  /** The session a call uses: the one it names, unless that is absent or empty. */
  function FormatSession(c: ClientConfig, session: Option<string>): (s: string)
    ensures s != ""
    ensures Truthy(session) ==> s == session.value
    ensures !Truthy(session) ==> s == GetDefaultSession(c)
  {
    if Truthy(session) then session.value else GetDefaultSession(c)
  }

  /** The session a freshly constructed client falls back to, in terms of what its caller supplied. */
  lemma DefaultSessionOfNewClient(options: ClientOptions)
    ensures GetDefaultSession(NewClient(options))
         == if Truthy(options.defaultSession) then options.defaultSession.value else DefaultSessionName
  {
  }

  /** Formatting an already formatted session changes nothing, and an empty name is the same as none. */
  lemma FormatSessionStable(c: ClientConfig, session: Option<string>)
    ensures FormatSession(c, Some(FormatSession(c, session))) == FormatSession(c, session)
    ensures FormatSession(c, Some("")) == FormatSession(c, None)
  {
  }

  // ---------------------------------------------------------------------
  // Response-error classification
  // ---------------------------------------------------------------------

  /** A response body; `message` is its `message` property, if it has one. */
  datatype ResponseBody = ResponseBody(message: Option<string>, content: string)

  datatype ErrorResponse = ErrorResponse(status: int, data: ResponseBody)

  /**
   * A failed request as the HTTP library reports it: the server's response
   * if one came back, the request handle if one was sent, and the error text.
   */
  datatype RequestError = RequestError(response: Option<ErrorResponse>, request: Option<string>, message: string)

  /** The object the interceptor rejects with. */
  datatype ApiError = ApiError(status: Option<int>, message: string, data: Option<ResponseBody>, request: Option<string>)

  /** The three situations the interceptor tells apart. */
  datatype ErrorKind = ServerResponded | NoResponse | SetupFailed

  /** Which situation an input error is in: a response beats a request. */
  function KindOf(e: RequestError): ErrorKind {
    if e.response.Some? then ServerResponded
    else if e.request.Some? then NoResponse
    else SetupFailed
  }

  /** Which situation a rejected object reports, read from its shape alone. */
  function ReportedKind(r: ApiError): ErrorKind {
    if r.status.Some? then ServerResponded
    else if r.request.Some? then NoResponse
    else SetupFailed
  }

  /** The interceptor's error arrow. */
  function ClassifyError(e: RequestError): (r: ApiError)
    ensures r.message != ""
    ensures ReportedKind(r) == KindOf(e)
    ensures r.data.Some? <==> KindOf(e) == ServerResponded
    ensures KindOf(e) == ServerResponded ==>
      && r.status == Some(e.response.value.status)
      && r.data == Some(e.response.value.data)
      && r.message == (if Truthy(e.response.value.data.message) then e.response.value.data.message.value
                       else "Unknown error")
    ensures KindOf(e) == NoResponse ==>
      r.request == e.request && r.message == "No response received from server"
    ensures KindOf(e) == SetupFailed ==>
      r.message == (if e.message != "" then e.message else "Request setup error")
  {
    if e.response.Some? then
      var data := e.response.value.data;
      ApiError(Some(e.response.value.status),
               if Truthy(data.message) then data.message.value else "Unknown error",
               Some(data), None)
    else if e.request.Some? then
      ApiError(None, "No response received from server", None, e.request)
    else
      ApiError(None, if e.message != "" then e.message else "Request setup error", None, None)
  }
}
