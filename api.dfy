/**
 * The `/api/token` handler of src/handlers/api.rs: looks the caller's session
 * up in the store and answers with its token or a status code. It only reads
 * the store.
 */
module Api {
  import opened Wrappers
  import opened Json
  import opened Storage

  const SESSION_HEADER_NAME: string := "X-Relay-Session"

  const UNAUTHORIZED: int := 401
  const NOT_FOUND: int := 404
  const INTERNAL_SERVER_ERROR: int := 500

  /**
   * A bare status, or the JSON response `Response::json(t.to_string())` makes
   * of the session's token value (the value's text, sent as a JSON string).
   */
  datatype Response = Status(code: int) | TokenJson(token: Value)

  /** The answer to a store lookup. */
  function ForLookup(r: GetResult): (resp: Response)
    ensures resp == Status(INTERNAL_SERVER_ERROR) <==> r.Err?
    ensures resp.TokenJson? <==> r.Ok? && r.value.Some? && SESSION_FIELD_TOKEN in r.value.value
    ensures resp.TokenJson? ==> resp.token == r.value.value[SESSION_FIELD_TOKEN]
    ensures resp == Status(NOT_FOUND) <==> r.Ok? && (r.value.None? || SESSION_FIELD_TOKEN !in r.value.value)
  {
    match r
    case Err(_) => Status(INTERNAL_SERVER_ERROR)
    case Ok(Some(session)) =>
      if SESSION_FIELD_TOKEN in session then TokenJson(session[SESSION_FIELD_TOKEN]) else Status(NOT_FOUND)
    case Ok(None) => Status(NOT_FOUND)
  }

  /**
   * `token`: the session id comes from the `X-Relay-Session` header (absent:
   * 401); the store comes from the application state (absent: 500).
   */
  method TokenHandler(sessionHeader: Option<string>, store: ValkeyStorage?, backendFault: bool)
    returns (resp: Response)
    ensures sessionHeader.None? ==> resp == Status(UNAUTHORIZED)
    ensures sessionHeader.Some? && store == null ==> resp == Status(INTERNAL_SERVER_ERROR)
    ensures sessionHeader.Some? && store != null ==>
      resp == ForLookup(Lookup(store.State(), store.codec, sessionHeader.value, backendFault))
  {
    if sessionHeader.None? {
      return Status(UNAUTHORIZED);
    }
    var sessionId := sessionHeader.value;
    if store == null {
      return Status(INTERNAL_SERVER_ERROR);
    }
    var loaded := store.Get(sessionId, backendFault);
    resp := ForLookup(loaded);
  }

  /**
   * A session this process has never seen and the backend does not hold is
   * answered with 500, not 404: the store reports the missing key as an error.
   */
  lemma UnknownSessionIs500(st: StoreState, codec: TextCodec, sid: string, backendFault: bool)
    requires sid !in st.cache && sid !in st.backend
    ensures ForLookup(Lookup(st, codec, sid, backendFault)) == Status(INTERNAL_SERVER_ERROR)
  {
  }

  /** A cached session is answered from the cache, whatever the backend does. */
  lemma CachedSessionAnswered(st: StoreState, codec: TextCodec, sid: string, backendFault: bool)
    requires sid in st.cache
    ensures ForLookup(Lookup(st, codec, sid, backendFault)) ==
      if SESSION_FIELD_TOKEN in st.cache[sid] then TokenJson(st.cache[sid][SESSION_FIELD_TOKEN]) else Status(NOT_FOUND)
  {
  }

  /**
   * The pattern the cache exists for: a token stored by this process is
   * served at once, even if the backend write was lost.
   */
  method TokenAfterSet(store: ValkeyStorage, sid: string, session: Record, exp: Duration, writeFault: bool,
                       readFault: bool) returns (resp: Response)
    requires SESSION_FIELD_TOKEN in session
    modifies store
    ensures resp == TokenJson(session[SESSION_FIELD_TOKEN])
  {
    var _ := store.Set(sid, session, exp, writeFault);
    resp := TokenHandler(Some(sid), store, readFault);
  }
}
