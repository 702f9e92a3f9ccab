/**
 The relay's two handlers: `/auth`, which redirects the browser to the
 provider's authorization page (an authorization request, section 4.1.1 of
 RFC 6749), and `/auth/callback`, which decides from the stored token record
 whether to skip the token endpoint, send a refresh grant (section 6) or
 check the echoed `state` (section 10.12) and send an authorization-code
 grant (section 4.1.3), and then asks the whoami endpoint about the stored
 access token. Replies from the network are inputs, already decoded.
 */
module Relay {
  import opened Options
  import opened QueryString
  import opened Tokens

  /** A form-encoded request body: each key is added once. */
  type Form = map<string, string>

  const AuthorizationHost := "auth.getmondo.co.uk"
  const CallbackPath := "/auth/callback"
  const StateMismatchMessage := "The state does not match, what are you trying to do"
  const SuccessMessage := "authentication successful"

  /** The redirect target as its parts: scheme, host and raw query. */
  datatype Url = Url(scheme: string, host: string, rawQuery: string)

  datatype Redirect = Redirect(status: int, location: Url)

  /** What the callback sent to the token endpoint, if anything. */
  datatype Outcome =
    | StateMismatch404
    | Refreshed(form: Form)
    | Exchanged(form: Form)
    | Skipped

  /** The final HTTP response: a one-entry JSON object, or an aborted request. */
  datatype Response = Json(status: int, key: string, text: string) | Aborted

  /** The whoami endpoint's reply, already decoded. */
  datatype WhoamiReply = WhoamiReply(status: int, authenticated: bool, clientId: string, userId: string)

  /** The client credentials the handlers are built with. */
  datatype Config = Config(clientId: string, clientSecret: string)

  /** The process-wide cells the handlers share. */
  datatype Store = Store(state: string, record: AuthResponse)

  /**
   One pass through the callback: what was sent to the token endpoint, the
   access token sent to whoami (None if whoami was not asked), the response,
   and the store afterwards.
   */
  datatype Step = Step(outcome: Outcome, bearer: Option<string>, response: Response, after: Store)

  /** The redirect URI the relay announces for a request host (no scheme is added). */
  function RedirectUri(host: string): string
  {
    host + CallbackPath
  }

  /** The authorization request's query, built by concatenation. */
  function AuthQuery(clientId: string, host: string, state: string): string
  {
    "client_id=" + clientId + "&redirect_uri=" + RedirectUri(host) + "&response_type=code&state=" + state
  }

  function AuthorizationUrl(clientId: string, host: string, state: string): Url
  {
    Url("https", AuthorizationHost, AuthQuery(clientId, host, state))
  }

  /** The parameters the authorization request carries, in order. */
  function AuthParams(clientId: string, host: string, state: string): seq<(string, string)>
  {
    [("client_id", clientId), ("redirect_uri", RedirectUri(host)), ("response_type", "code"), ("state", state)]
  }

  /** The refresh grant's body. */
  function RefreshForm(clientId: string, clientSecret: string, refreshToken: string): Form
  {
    map["grant_type" := "refresh_token", "client_id" := clientId,
        "client_secret" := clientSecret, "refresh_token" := refreshToken]
  }

  /** The authorization-code grant's body. */
  function ExchangeForm(clientId: string, clientSecret: string, host: string, code: string): Form
  {
    map["grant_type" := "authorization_code", "client_id" := clientId,
        "client_secret" := clientSecret, "redirect_uri" := RedirectUri(host), "code" := code]
  }

  /** Which request, if any, the callback sends to the token endpoint. */
  function Decide(cfg: Config, st: Store, now: int, host: string, code: string, formState: string): Outcome
  {
    if !IsExpired(st.record, now) then Skipped
    else if st.record.refreshToken != "" then
      Refreshed(RefreshForm(cfg.clientId, cfg.clientSecret, st.record.refreshToken))
    else if formState != st.state then StateMismatch404
    else Exchanged(ExchangeForm(cfg.clientId, cfg.clientSecret, host, code))
  }

  /** The verification step: whoami is asked about the stored access token and its status is passed on. */
  function Verify(outcome: Outcome, st: Store, whoami: Option<WhoamiReply>): Step
  {
    var response := if whoami.None? then Aborted else Json(whoami.value.status, "message", SuccessMessage);
    Step(outcome, Some(st.record.accessToken), response, st)
  }

  /** A whole callback, as a function of the store before it and the replies it receives. */
  function HandleCallback(cfg: Config, st: Store, now: int, host: string, code: string, formState: string,
                          provider: Option<TokenReply>, whoami: Option<WhoamiReply>): Step
  {
    var outcome := Decide(cfg, st, now, host, code, formState);
    match outcome
    case Skipped => Verify(outcome, st, whoami)
    case StateMismatch404 => Step(outcome, None, Json(404, "Error", StateMismatchMessage), st)
    case _ =>
      if provider.None? then Step(outcome, None, Aborted, st)
      else Verify(outcome, st.(record := Renew(st.record, provider.value, now)), whoami)
  }

  /** The process: the client credentials and the two shared cells. */
  class Server {
    const clientId: string
    const clientSecret: string
    var state: string
    var authResponse: AuthResponse

    function Credentials(): Config
    {
      Config(clientId, clientSecret)
    }

    function Snapshot(): Store
      reads this
    {
      Store(state, authResponse)
    }

    /** Building the handlers: the record starts at its zero value and the state is issued once. */
    constructor (clientId: string, clientSecret: string, issued: string)
      ensures this.clientId == clientId && this.clientSecret == clientSecret
      ensures state == issued && authResponse == Initial
    {
      this.clientId := clientId;
      this.clientSecret := clientSecret;
      authResponse := Initial;
      state := issued;
    }

    /** `/auth`: a temporary redirect to the provider carrying the stored state. */
    method BeginAuth(host: string) returns (r: Redirect)
      ensures r.status == 307
      ensures r.location == AuthorizationUrl(clientId, host, state)
      ensures r.location.scheme == "https" && r.location.host == AuthorizationHost
      ensures '&' !in clientId && '&' !in host && '&' !in state ==>
                Parse(r.location.rawQuery) == AuthParams(clientId, host, state)
    {
      var link := Url("https", AuthorizationHost,
                      "client_id=" + clientId + "&redirect_uri=" + host + "/auth/callback&response_type=code&state=" + state);
      assert link.rawQuery == AuthQuery(clientId, host, state);
      if '&' !in clientId && '&' !in host && '&' !in state {
        AuthQueryReadsBack(clientId, host, state);
      }
      r := Redirect(307, link);
    }

    /** `/auth/callback`, step by step on the shared cells. */
    method Callback(now: int, host: string, formCode: string, formState: string,
                    providerReply: Option<TokenReply>, whoami: Option<WhoamiReply>)
      returns (outcome: Outcome, bearer: Option<string>, response: Response)
      modifies this
      ensures state == old(state)
      ensures Step(outcome, bearer, response, Snapshot())
           == HandleCallback(Credentials(), old(Snapshot()), now, host, formCode, formState, providerReply, whoami)
    {
      outcome := Skipped;
      if authResponse.authExpiryTimestamp <= now {
        if authResponse.refreshToken != "" {
          outcome := Refreshed(RefreshForm(clientId, clientSecret, authResponse.refreshToken));
          if providerReply.None? {
            return outcome, None, Aborted;
          }
          authResponse := Decode(authResponse, providerReply.value);
        } else {
          if formState != state {
            return StateMismatch404, None, Json(404, "Error", StateMismatchMessage);
          }
          outcome := Exchanged(ExchangeForm(clientId, clientSecret, host, formCode));
          if providerReply.None? {
            return outcome, None, Aborted;
          }
          authResponse := Decode(authResponse, providerReply.value);
        }
        authResponse := authResponse.(authExpiryTimestamp := now + authResponse.expiresIn);
      }
      bearer := Some(authResponse.accessToken);
      if whoami.None? {
        response := Aborted;
        return;
      }
      response := Json(whoami.value.status, "message", SuccessMessage);
    }
  }

  /** The pieces of the authorization query, each a `key=value` pair. */
  function AuthPieces(clientId: string, host: string, state: string): seq<string>
  {
    [Pair("client_id", clientId), Pair("redirect_uri", RedirectUri(host)),
     Pair("response_type", "code"), Pair("state", state)]
  }

  /** The fixed keys and the callback path hold neither separator. */
  lemma KeysPlain()
    ensures '=' !in "client_id" && '=' !in "redirect_uri" && '=' !in "response_type" && '=' !in "state"
    ensures '&' !in "client_id" && '&' !in "redirect_uri" && '&' !in "response_type" && '&' !in "state"
    ensures '&' !in "code" && '&' !in CallbackPath
  {
  }

  /** The concatenation of the authorization query, regrouped into its four pieces. */
  lemma AuthQueryLiteral(clientId: string, r: string, state: string)
    ensures "client_id=" + clientId + "&redirect_uri=" + r + "&response_type=code&state=" + state
         == Pair("client_id", clientId) + "&" + Pair("redirect_uri", r) + "&"
            + Pair("response_type", "code") + "&" + Pair("state", state)
  {
    var p1, p2, p3, p4 := Pair("client_id", clientId), Pair("redirect_uri", r), Pair("response_type", "code"), Pair("state", state);
    assert "client_id=" + clientId == p1;
    assert "&redirect_uri=" + r == "&" + p2;
    assert "&response_type=code&state=" + state == "&" + p3 + "&" + p4;
    Regroup("client_id=", clientId, "&redirect_uri=", r, "&response_type=code&state=", state, p1, p2, p3, p4, '&');
  }

  /** The authorization query is its four pieces joined with '&'. */
  lemma AuthQueryIsJoin(clientId: string, host: string, state: string)
    ensures Join(AuthPieces(clientId, host, state), '&') == AuthQuery(clientId, host, state)
  {
    var p1, p2, p3, p4 := Pair("client_id", clientId), Pair("redirect_uri", RedirectUri(host)), Pair("response_type", "code"), Pair("state", state);
    AuthQueryLiteral(clientId, RedirectUri(host), state);
    JoinFour(p1, p2, p3, p4, '&');
  }

  /** No piece of the authorization query holds '&' when no value does. */
  lemma AuthPiecesFree(clientId: string, host: string, state: string)
    requires '&' !in clientId && '&' !in host && '&' !in state
    ensures var pieces := AuthPieces(clientId, host, state);
      forall i :: 0 <= i < |pieces| ==> '&' !in pieces[i]
  {
    KeysPlain();
    assert '&' !in RedirectUri(host);
    PairFree("client_id", clientId, '&');
    PairFree("redirect_uri", RedirectUri(host), '&');
    PairFree("response_type", "code", '&');
    PairFree("state", state, '&');
  }

  /** The authorization query reads back as exactly its four parameters, in order. */
  lemma AuthQueryReadsBack(clientId: string, host: string, state: string)
    requires '&' !in clientId && '&' !in host && '&' !in state
    ensures Parse(AuthQuery(clientId, host, state)) == AuthParams(clientId, host, state)
  {
    var pieces := AuthPieces(clientId, host, state);
    AuthQueryIsJoin(clientId, host, state);
    AuthPiecesFree(clientId, host, state);
    SplitJoin(pieces, '&');
    KeysPlain();
    CutAllFour("client_id", clientId, "redirect_uri", RedirectUri(host), "response_type", "code", "state", state);
  }

  /** Reading the authorization query back finds each parameter under its key. */
  lemma AuthQueryLookup(clientId: string, host: string, state: string)
    requires '&' !in clientId && '&' !in host && '&' !in state
    ensures var pairs := Parse(AuthQuery(clientId, host, state));
      && Lookup(pairs, "client_id") == Some(clientId)
      && Lookup(pairs, "redirect_uri") == Some(RedirectUri(host))
      && Lookup(pairs, "response_type") == Some("code")
      && Lookup(pairs, "state") == Some(state)
  {
    AuthQueryReadsBack(clientId, host, state);
    AuthParamsLookup(clientId, host, state);
  }

  /** Each of the four parameters is found under its own key. */
  lemma AuthParamsLookup(clientId: string, host: string, state: string)
    ensures var pairs := AuthParams(clientId, host, state);
      && Lookup(pairs, "client_id") == Some(clientId)
      && Lookup(pairs, "redirect_uri") == Some(RedirectUri(host))
      && Lookup(pairs, "response_type") == Some("code")
      && Lookup(pairs, "state") == Some(state)
  {
    var pairs := AuthParams(clientId, host, state);
    assert pairs[1..][1..][1..] == [("state", state)];
    assert Lookup(pairs[1..][1..][1..], "state") == Some(state);
    assert Lookup(pairs[1..][1..], "state") == Some(state);
    assert Lookup(pairs[1..][1..], "response_type") == Some("code");
  }

  /** The query is its first two pieces followed by the rest, for any state. */
  lemma AuthQueryFront(clientId: string, host: string, state: string)
    ensures AuthQuery(clientId, host, state)
         == Pair("client_id", clientId) + "&" + Pair("redirect_uri", RedirectUri(host)) + "&"
            + (Pair("response_type", "code") + "&" + Pair("state", state))
  {
    var p1, p2 := Pair("client_id", clientId), Pair("redirect_uri", RedirectUri(host));
    var p3, p4 := Pair("response_type", "code"), Pair("state", state);
    AuthQueryLiteral(clientId, RedirectUri(host), state);
    assert p1 + "&" + p2 + "&" + p3 + "&" + p4 == p1 + "&" + p2 + "&" + (p3 + "&" + p4);
  }

  /** The redirect URI is read back from the query whenever the client id and host are free of '&'. */
  lemma AuthQueryRedirectUri(clientId: string, host: string, state: string)
    requires '&' !in clientId && '&' !in host
    ensures Lookup(Parse(AuthQuery(clientId, host, state)), "redirect_uri") == Some(RedirectUri(host))
  {
    KeysPlain();
    assert '&' !in RedirectUri(host);
    PairFree("client_id", clientId, '&');
    PairFree("redirect_uri", RedirectUri(host), '&');
    AuthQueryFront(clientId, host, state);
    ParseTwoFront("client_id", clientId, "redirect_uri", RedirectUri(host),
                  Pair("response_type", "code") + "&" + Pair("state", state));
    var pairs := Parse(AuthQuery(clientId, host, state));
    assert Lookup(pairs[1..], "redirect_uri") == Some(RedirectUri(host));
  }

  /**
   The query is built without escaping, so a host holding '&' cuts the
   redirect URI short: a reader of the query sees only the part of the host
   before the '&', while the code exchange names the whole of it.
   */
  lemma UnescapedHostSplitsRedirectUri(clientId: string, h: string, x: string, state: string)
    requires '&' !in clientId && '&' !in h
    ensures Lookup(Parse(AuthQuery(clientId, h + "&" + x, state)), "redirect_uri") == Some(h)
    ensures RedirectUri(h + "&" + x) != h
  {
    var host := h + "&" + x;
    var p1, p2 := Pair("client_id", clientId), Pair("redirect_uri", h);
    var rest := x + CallbackPath + "&" + (Pair("response_type", "code") + "&" + Pair("state", state));
    AuthQueryFront(clientId, host, state);
    assert Pair("redirect_uri", RedirectUri(host)) == p2 + "&" + (x + CallbackPath);
    assert AuthQuery(clientId, host, state) == p1 + "&" + p2 + "&" + rest;
    ParseTwoFront("client_id", clientId, "redirect_uri", h, rest);
    var pairs := Parse(AuthQuery(clientId, host, state));
    assert Lookup(pairs[1..], "redirect_uri") == Some(h);
    assert |RedirectUri(host)| > |h|;
  }

  /**
   A client id holding '&' is cut short the same way: a reader of the query
   sees only the part of the client id before the '&'.
   */
  lemma UnescapedClientIdCutsClientId(a: string, b: string, host: string, state: string)
    requires '&' !in a
    ensures Lookup(Parse(AuthQuery(a + "&" + b, host, state)), "client_id") == Some(a)
  {
    var p1 := Pair("client_id", a);
    var tail := Pair("redirect_uri", RedirectUri(host)) + "&" + (Pair("response_type", "code") + "&" + Pair("state", state));
    var rest := b + "&" + tail;
    AuthQueryFront(a + "&" + b, host, state);
    assert Pair("client_id", a + "&" + b) == p1 + "&" + b;
    assert AuthQuery(a + "&" + b, host, state) == p1 + "&" + rest;
    KeysPlain();
    PairFree("client_id", a, '&');
    LookupFront("client_id", a, rest);
  }
}
