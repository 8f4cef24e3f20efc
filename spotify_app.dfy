/*
 * The OAuth 2.0 authorization-code token lifecycle of a small Flask server
 * (main.py): the authorize redirect of /login, the code-for-token exchange of
 * /callback, and the token guards of /playlists, over the one process-wide
 * session dictionary that holds access_token, refresh_token and expires_at.
 *
 * The handlers are specified by pure functions over a SessionState value;
 * the class Session holds the dictionary's three keys as mutable fields and
 * its methods are proved to behave as those functions say.
 */
module SpotifyApp {

  datatype Option<T> = None | Some(value: T)

  // ---------------------------------------------------------------------------
  // Configuration (main.py:14-20)
  // ---------------------------------------------------------------------------

  const REDIRECT_URI: string := "http://localhost:3000/callback"
  const AUTH_URL: string := "https://accounts.spotify.com/authorize"
  const TOKEN_URL: string := "https://accounts.spotify.com/api/token"
  const SCOPE: string := "user-read-private user-read-email"

  /** CLIENT_ID and CLIENT_SECRET, read from a key module this model does not contain. */
  datatype ClientKeys = ClientKeys(clientId: string, clientSecret: string)

  // ---------------------------------------------------------------------------
  // Messages
  // ---------------------------------------------------------------------------

  /** A value of the authorize query: the source passes strings and one boolean. */
  datatype Param = Text(text: string) | Flag(flag: bool)

  /**
   * The JSON body of the token endpoint's reply; each field is None when its
   * key is missing from the body.
   */
  datatype TokenReply = TokenReply(accessToken: Option<string>, refreshToken: Option<string>, expiresIn: Option<int>)

  /**
   * What the outbound call to TOKEN_URL yields: a decoded JSON body; a failure
   * after the POST went out (transport error, a body that is not JSON); or a
   * call that raises before anything is sent, as `request.post` on the web
   * framework's request object does. Each failure is an exception in the handler.
   */
  datatype Exchange = Delivered(reply: TokenReply) | Failed | Unsent

  /** What a handler hands back to the web framework. */
  datatype Response =
    | AuthorizeRedirect(url: string, query: map<string, Param>)  // redirect to url?urlencode(query)
    | Redirect(path: string)                                     // redirect to a local route
    | ErrorJson(error: string)                                   // jsonify({"error": error})
    | NoResponse                                                 // the handler returned None
    | ServerError                                                // an exception escaped the handler
    | FetchPlaylists(token: string)                              // go on to the bearer-token resource call

  // ---------------------------------------------------------------------------
  // The session dictionary as a value
  // ---------------------------------------------------------------------------

  /** The three keys of `session`; None means the key is absent. */
  datatype SessionState = SessionState(accessToken: Option<string>, refreshToken: Option<string>, expiresAt: Option<int>)

  const Empty: SessionState := SessionState(None, None, None)

  /** Either no key is present or all three are. */
  predicate Consistent(s: SessionState)
  {
    (s.accessToken.Some? <==> s.refreshToken.Some?) && (s.accessToken.Some? <==> s.expiresAt.Some?)
  }

  /** The token reply carries all three fields the handler reads. */
  predicate Complete(reply: TokenReply)
  {
    reply.accessToken.Some? && reply.refreshToken.Some? && reply.expiresIn.Some?
  }

  // ---------------------------------------------------------------------------
  // /login
  // ---------------------------------------------------------------------------

  /** The query parameters of the authorize redirect. */
  function LoginParams(keys: ClientKeys): (p: map<string, Param>)
    ensures p.Keys == {"client_id", "response_type", "scope", "redirect_uri", "show_dialog"}
    ensures p["client_id"] == Text(keys.clientId)
    ensures p["response_type"] == Text("code")
    ensures p["scope"] == Text(SCOPE)
    ensures p["redirect_uri"] == Text(REDIRECT_URI)
    ensures p["show_dialog"] == Flag(true)
    ensures "client_secret" !in p
  {
    map["client_id" := Text(keys.clientId),
        "response_type" := Text("code"),
        "scope" := Text(SCOPE),
        "redirect_uri" := Text(REDIRECT_URI),
        "show_dialog" := Flag(true)]
  }

  /** The /login handler: a redirect to the authorize endpoint. It has no access to the session. */
  function Login(keys: ClientKeys): (r: Response)
    ensures r.AuthorizeRedirect? && r.url == AUTH_URL
    ensures r.query == LoginParams(keys)
  {
    AuthorizeRedirect(AUTH_URL, LoginParams(keys))
  }

  // ---------------------------------------------------------------------------
  // /callback
  // ---------------------------------------------------------------------------

  /** The form body POSTed to TOKEN_URL to exchange an authorization code. */
  function TokenRequestBody(code: string, keys: ClientKeys): (body: map<string, string>)
    ensures body.Keys == {"code", "grant_type", "redirect_uri", "client_id", "client_secret"}
    ensures body["code"] == code
    ensures body["grant_type"] == "authorization_code"
    ensures body["redirect_uri"] == REDIRECT_URI
    ensures body["client_id"] == keys.clientId
    ensures body["client_secret"] == keys.clientSecret
  {
    map["code" := code,
        "grant_type" := "authorization_code",
        "redirect_uri" := REDIRECT_URI,
        "client_id" := keys.clientId,
        "client_secret" := keys.clientSecret]
  }

  /** Result of writing a token reply into the session: the new session, and whether no exception was raised. */
  datatype StoreOutcome = StoreOutcome(session: SessionState, ok: bool)

  /**
   * The three session writes as the handler performs them: one key at a time,
   * each lookup of a missing reply field raising KeyError and abandoning the
   * writes not yet done.
   */
  function StoreTokensAsWritten(s: SessionState, reply: TokenReply, now: int): (o: StoreOutcome)
    ensures o.ok <==> Complete(reply)
    ensures reply.accessToken.None? ==> o.session == s
    ensures reply.accessToken.Some? ==> o.session.accessToken == reply.accessToken
    ensures reply.accessToken.Some? && reply.refreshToken.Some? ==> o.session.refreshToken == reply.refreshToken
    ensures reply.accessToken.Some? && reply.refreshToken.None? ==> o.session.refreshToken == s.refreshToken
    ensures o.session.expiresAt == if o.ok then Some(now + reply.expiresIn.value) else s.expiresAt
  {
    if reply.accessToken.None? then StoreOutcome(s, false)
    else
      var s1 := s.(accessToken := reply.accessToken);
      if reply.refreshToken.None? then StoreOutcome(s1, false)
      else
        var s2 := s1.(refreshToken := reply.refreshToken);
        if reply.expiresIn.None? then StoreOutcome(s2, false)
        else StoreOutcome(s2.(expiresAt := Some(now + reply.expiresIn.value)), true)
  }

  /**
   * The three session writes done as one: a complete reply replaces the whole
   * session, an incomplete one raises and leaves the session as it was.
   */
  function StoreTokens(s: SessionState, reply: TokenReply, now: int): (o: StoreOutcome)
    ensures o.ok <==> Complete(reply)
    ensures o.ok ==> (o.session.accessToken == reply.accessToken
                      && o.session.refreshToken == reply.refreshToken
                      && o.session.expiresAt == Some(now + reply.expiresIn.value))
    ensures !o.ok ==> o.session == s
    ensures o.ok ==> Consistent(o.session)
  {
    if Complete(reply) then
      StoreOutcome(SessionState(reply.accessToken, reply.refreshToken, Some(now + reply.expiresIn.value)), true)
    else
      StoreOutcome(s, false)
  }

  /** What one /callback request does: the new session, the response, and the token request sent, if any. */
  datatype CallbackOutcome = CallbackOutcome(session: SessionState, response: Response, sent: Option<map<string, string>>)

  /** A callback whose code exchange stores a token reply. */
  predicate ExchangeSucceeds(args: map<string, string>, exchange: Exchange)
  {
    "error" !in args && "code" in args && exchange.Delivered? && Complete(exchange.reply)
  }

  /** A callback whose token reply has an access token but lacks a later field. */
  predicate PartialReply(args: map<string, string>, exchange: Exchange)
  {
    "error" !in args && "code" in args && exchange.Delivered?
    && exchange.reply.accessToken.Some? && !Complete(exchange.reply)
  }

  /**
   * The /callback handler as written: the reply's fields are written into the
   * session one at a time, so a reply that lacks a later field leaves the
   * earlier ones written.
   */
  function CallbackResultAsWritten(s: SessionState, args: map<string, string>, keys: ClientKeys,
                                   exchange: Exchange, now: int): (o: CallbackOutcome)
    ensures "error" in args ==> o.session == s && o.response == ErrorJson(args["error"]) && o.sent == None
    ensures "error" !in args && "code" !in args ==> o.session == s && o.response == NoResponse && o.sent == None
    ensures "error" !in args && "code" in args ==>
              o.sent == if exchange.Unsent? then None else Some(TokenRequestBody(args["code"], keys))
    ensures o.response == Redirect("/playlists") <==> ExchangeSucceeds(args, exchange)
    ensures PartialReply(args, exchange) ==>
              o.response == ServerError && o.session.accessToken == exchange.reply.accessToken
    ensures Consistent(s) && !PartialReply(args, exchange) ==> Consistent(o.session)
  {
    if "error" in args then
      CallbackOutcome(s, ErrorJson(args["error"]), None)
    else if "code" in args then
      var body := TokenRequestBody(args["code"], keys);
      match exchange
      case Unsent => CallbackOutcome(s, ServerError, None)
      case Failed => CallbackOutcome(s, ServerError, Some(body))
      case Delivered(reply) =>
        var stored := StoreTokensAsWritten(s, reply, now);
        CallbackOutcome(stored.session, if stored.ok then Redirect("/playlists") else ServerError, Some(body))
    else
      CallbackOutcome(s, NoResponse, None)
  }

  /**
   * The /callback handler with the corrected, all-or-nothing writes. `exchange` is what the token endpoint replies if it
   * is called; `now` is the clock in whole seconds.
   */
  function CallbackResult(s: SessionState, args: map<string, string>, keys: ClientKeys,
                          exchange: Exchange, now: int): (o: CallbackOutcome)
    // `error` is looked at first, even when `code` is present too
    ensures "error" in args ==> o.session == s && o.response == ErrorJson(args["error"]) && o.sent == None
    // neither key: the handler falls off its end
    ensures "error" !in args && "code" !in args ==> o.session == s && o.response == NoResponse && o.sent == None
    // a code is exchanged with exactly the token-request body
    ensures "error" !in args && "code" in args ==>
              o.sent == if exchange.Unsent? then None else Some(TokenRequestBody(args["code"], keys))
    ensures o.response == Redirect("/playlists") <==> ExchangeSucceeds(args, exchange)
    ensures ExchangeSucceeds(args, exchange) ==>
              (o.session.accessToken == exchange.reply.accessToken
               && o.session.refreshToken == exchange.reply.refreshToken
               && o.session.expiresAt == Some(now + exchange.reply.expiresIn.value))
    ensures ExchangeSucceeds(args, exchange) && exchange.reply.expiresIn.value > 0 ==> o.session.expiresAt.value > now
    ensures o.response == ServerError <==> "error" !in args && "code" in args && !ExchangeSucceeds(args, exchange)
    ensures !ExchangeSucceeds(args, exchange) ==> o.session == s
    ensures Consistent(s) ==> Consistent(o.session)
  {
    if "error" in args then
      CallbackOutcome(s, ErrorJson(args["error"]), None)
    else if "code" in args then
      var body := TokenRequestBody(args["code"], keys);
      match exchange
      case Unsent => CallbackOutcome(s, ServerError, None)
      case Failed => CallbackOutcome(s, ServerError, Some(body))
      case Delivered(reply) =>
        var stored := StoreTokens(s, reply, now);
        CallbackOutcome(stored.session, if stored.ok then Redirect("/playlists") else ServerError, Some(body))
    else
      CallbackOutcome(s, NoResponse, None)
  }

  // ---------------------------------------------------------------------------
  // /playlists
  // ---------------------------------------------------------------------------

  /** The token guards of the /playlists handler. */
  function PlaylistsResult(s: SessionState, now: int): (r: Response)
    ensures s.accessToken.None? ==> r == Redirect("/login")
    ensures r == Redirect("/refresh-token") <==> s.accessToken.Some? && s.expiresAt.Some? && now > s.expiresAt.value
    // the expiry check is strict: a token is still used at the second it expires
    ensures r.FetchPlaylists? <==> s.accessToken.Some? && s.expiresAt.Some? && now <= s.expiresAt.value
    ensures r.FetchPlaylists? ==> r.token == s.accessToken.value
    // reading a missing expires_at raises KeyError
    ensures r == ServerError <==> s.accessToken.Some? && s.expiresAt.None?
    ensures Consistent(s) ==> r != ServerError
  {
    if s.accessToken.None? then Redirect("/login")
    else if s.expiresAt.None? then ServerError
    else if now > s.expiresAt.value then Redirect("/refresh-token")
    else FetchPlaylists(s.accessToken.value)
  }

  // ---------------------------------------------------------------------------
  // The mutable session
  // ---------------------------------------------------------------------------

  /** The module-level `session` dictionary, one field per key. */
  class Session {
    var accessToken: Option<string>
    var refreshToken: Option<string>
    var expiresAt: Option<int>

    function State(): SessionState
      reads this
    {
      SessionState(accessToken, refreshToken, expiresAt)
    }

    /** `session = {}` at process start. */
    constructor ()
      ensures State() == Empty
    {
      accessToken, refreshToken, expiresAt := None, None, None;
    }

    /**
     * The /callback handler on the shared session, as written: the three keys
     * are assigned one after another, and a missing reply field raises after
     * the assignments before it have been done.
     */
    method Callback(args: map<string, string>, keys: ClientKeys, exchange: Exchange, now: int)
      returns (r: Response, sent: Option<map<string, string>>)
      modifies this
      ensures State() == CallbackResultAsWritten(old(State()), args, keys, exchange, now).session
      ensures r == CallbackResultAsWritten(old(State()), args, keys, exchange, now).response
      ensures sent == CallbackResultAsWritten(old(State()), args, keys, exchange, now).sent
      // the all-or-none invariant survives every callback except one with a partial reply
      ensures Consistent(old(State())) && !PartialReply(args, exchange) ==> Consistent(State())
    {
      if "error" in args {
        r, sent := ErrorJson(args["error"]), None;
        return;
      }
      if "code" in args {
        if exchange.Unsent? {
          r, sent := ServerError, None;
          return;
        }
        sent := Some(TokenRequestBody(args["code"], keys));
        if exchange.Failed? {
          r := ServerError;
          return;
        }
        var reply := exchange.reply;
        r := ServerError;
        if reply.accessToken.None? {
          return;
        }
        accessToken := reply.accessToken;
        if reply.refreshToken.None? {
          return;
        }
        refreshToken := reply.refreshToken;
        if reply.expiresIn.None? {
          return;
        }
        expiresAt := Some(now + reply.expiresIn.value);
        r := Redirect("/playlists");
        return;
      }
      r, sent := NoResponse, None;
    }

    /** The /playlists handler: reads the session and never writes it. */
    method GetPlaylists(now: int) returns (r: Response)
      ensures r == PlaylistsResult(State(), now)
    {
      if accessToken.None? {
        return Redirect("/login");
      }
      if expiresAt.None? {
        return ServerError;
      }
      if now > expiresAt.value {
        return Redirect("/refresh-token");
      }
      r := FetchPlaylists(accessToken.value);
    }
  }

  // ---------------------------------------------------------------------------
  // Sequences of requests
  // ---------------------------------------------------------------------------

  /** One inbound request, with the clock reading at the time it is handled. */
  datatype Request =
    | LoginRequest
    | CallbackRequest(args: map<string, string>, exchange: Exchange, now: int)
    | PlaylistsRequest(now: int)

  /** The session after one request: only /callback writes it. */
  function Step(s: SessionState, keys: ClientKeys, req: Request): SessionState
  {
    match req
    case LoginRequest => s
    case CallbackRequest(args, exchange, now) => CallbackResult(s, args, keys, exchange, now).session
    case PlaylistsRequest(_) => s
  }

  /** The session after handling `trace` in order, one request at a time. */
  function Run(s: SessionState, keys: ClientKeys, trace: seq<Request>): SessionState
    decreases |trace|
  {
    if trace == [] then s
    else Step(Run(s, keys, trace[..|trace| - 1]), keys, trace[|trace| - 1])
  }

  /** The session stored by the last successful code exchange of `trace`, if there is one. */
  function LastExchange(trace: seq<Request>): Option<SessionState>
    decreases |trace|
  {
    if trace == [] then None
    else
      var req := trace[|trace| - 1];
      if req.CallbackRequest? && ExchangeSucceeds(req.args, req.exchange) then
        var reply := req.exchange.reply;
        Some(SessionState(reply.accessToken, reply.refreshToken, Some(req.now + reply.expiresIn.value)))
      else LastExchange(trace[..|trace| - 1])
  }

  /**
   * The session is exactly what the most recent successful code exchange
   * stored: nothing of an earlier session survives it, and no other request
   * changes the session.
   */
  lemma {:induction false} RunIsLastExchange(s: SessionState, keys: ClientKeys, trace: seq<Request>)
    ensures Run(s, keys, trace) == (match LastExchange(trace) case Some(t) => t case None => s)
    decreases |trace|
  {
    if trace != [] {
      RunIsLastExchange(s, keys, trace[..|trace| - 1]);
    }
  }

  /** In every reachable session either no key or all three are present. */
  lemma {:induction false} ReachableIsConsistent(keys: ClientKeys, trace: seq<Request>)
    ensures Consistent(Run(Empty, keys, trace))
    ensures Run(Empty, keys, trace).accessToken.Some? <==> LastExchange(trace).Some?
  {
    RunIsLastExchange(Empty, keys, trace);
    match LastExchange(trace)
    case None =>
    case Some(t) => LastExchangeIsComplete(trace);
  }

  lemma {:induction false} LastExchangeIsComplete(trace: seq<Request>)
    ensures LastExchange(trace).Some? ==>
              (Consistent(LastExchange(trace).value) && LastExchange(trace).value.accessToken.Some?)
    decreases |trace|
  {
    if trace != [] {
      LastExchangeIsComplete(trace[..|trace| - 1]);
    }
  }

  /** Reading expires_at in /playlists never raises in a reachable session. */
  lemma {:induction false} ReachablePlaylistsNeverRaise(keys: ClientKeys, trace: seq<Request>, now: int)
    ensures PlaylistsResult(Run(Empty, keys, trace), now) != ServerError
  {
    ReachableIsConsistent(keys, trace);
  }

  /** A trace without a callback leaves the session as it was. */
  lemma {:induction false} WithoutCallbackNothingChanges(s: SessionState, keys: ClientKeys, trace: seq<Request>)
    requires forall i :: 0 <= i < |trace| ==> !trace[i].CallbackRequest?
    ensures Run(s, keys, trace) == s
    decreases |trace|
  {
    if trace != [] {
      WithoutCallbackNothingChanges(s, keys, trace[..|trace| - 1]);
    }
  }

  // ---------------------------------------------------------------------------
  // Lemmas relating the handlers
  // ---------------------------------------------------------------------------

  /** The redirect URI and client id of the token request are the ones the authorize redirect sent. */
  lemma LoginAndExchangeAgree(keys: ClientKeys, code: string)
    ensures LoginParams(keys)["redirect_uri"] == Text(TokenRequestBody(code, keys)["redirect_uri"])
    ensures LoginParams(keys)["client_id"] == Text(TokenRequestBody(code, keys)["client_id"])
  {
  }

  /** A successful exchange gives the same session whatever the session was before. */
  lemma ExchangeOverwritesWholeSession(s1: SessionState, s2: SessionState, args: map<string, string>,
                                       keys: ClientKeys, exchange: Exchange, now: int)
    requires ExchangeSucceeds(args, exchange)
    ensures CallbackResult(s1, args, keys, exchange, now) == CallbackResult(s2, args, keys, exchange, now)
  {
  }

  /** Right after a successful exchange, /playlists uses the new token until it expires, then asks for a refresh. */
  lemma FreshTokenIsUsed(s: SessionState, args: map<string, string>, keys: ClientKeys,
                         exchange: Exchange, now: int, later: int)
    requires ExchangeSucceeds(args, exchange)
    ensures var s' := CallbackResult(s, args, keys, exchange, now).session;
            PlaylistsResult(s', later) ==
              if later <= now + exchange.reply.expiresIn.value then FetchPlaylists(exchange.reply.accessToken.value)
              else Redirect("/refresh-token")
  {
  }

  /** The corrected writes agree with the written ones whenever the reply is complete. */
  lemma StoreTokensAgreesOnCompleteReplies(s: SessionState, reply: TokenReply, now: int)
    requires Complete(reply)
    ensures StoreTokens(s, reply, now) == StoreTokensAsWritten(s, reply, now)
  {
  }

  /** The handler as written and the corrected one differ only on a partial reply. */
  lemma CallbackAgreesUnlessPartial(s: SessionState, args: map<string, string>, keys: ClientKeys,
                                    exchange: Exchange, now: int)
    requires !PartialReply(args, exchange)
    ensures CallbackResultAsWritten(s, args, keys, exchange, now) == CallbackResult(s, args, keys, exchange, now)
  {
  }

  /**
   * As written, /callback with code c and a reply that has an access token
   * but no refresh token leaves the empty session holding only the access
   * token; the corrected handler leaves it empty.
   */
  lemma PartialCallbackBreaksSession(keys: ClientKeys)
    ensures var exchange := Delivered(TokenReply(Some("T"), None, Some(3600)));
            var o := CallbackResultAsWritten(Empty, map["code" := "c"], keys, exchange, 0);
            o.response == ServerError && o.session == SessionState(Some("T"), None, None)
            && PlaylistsResult(o.session, 0) == ServerError
    ensures var exchange := Delivered(TokenReply(Some("T"), None, Some(3600)));
            var o := CallbackResult(Empty, map["code" := "c"], keys, exchange, 0);
            o.response == ServerError && o.session == Empty
  {
  }

  /**
   * As written, a reply with an access token but no refresh token leaves an
   * access token without an expiry in an empty session, after which every
   * /playlists request raises KeyError on expires_at.
   */
  lemma PartialReplyBreaksSession()
    ensures var o := StoreTokensAsWritten(Empty, TokenReply(Some("T"), None, Some(3600)), 0);
            !o.ok && !Consistent(o.session) && PlaylistsResult(o.session, 0) == ServerError
    ensures var o := StoreTokens(Empty, TokenReply(Some("T"), None, Some(3600)), 0);
            !o.ok && o.session == Empty && PlaylistsResult(o.session, 0) == Redirect("/login")
  {
  }

  /** Authorize, exchange code abc123 for T1/R1 valid 3600 s, then fetch the playlists with T1. */
  lemma LoginExchangeFetchScenario(keys: ClientKeys)
    ensures var reply := TokenReply(Some("T1"), Some("R1"), Some(3600));
            var trace := [LoginRequest, CallbackRequest(map["code" := "abc123"], Delivered(reply), 1000)];
            var s := Run(Empty, keys, trace);
            s == SessionState(Some("T1"), Some("R1"), Some(4600))
            && PlaylistsResult(s, 1000) == FetchPlaylists("T1")
            && PlaylistsResult(s, 4600) == FetchPlaylists("T1")
            && PlaylistsResult(s, 4601) == Redirect("/refresh-token")
  {
  }
}
