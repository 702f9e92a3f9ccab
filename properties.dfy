/**
 What a callback does, stated over every input: when the token endpoint is
 contacted and with which form, what happens to the stored record and state,
 and what the caller receives.
 */
module RelayProperties {
  import opened Options
  import opened QueryString
  import opened Tokens
  import opened Relay

  /** A record still valid at `now` sends nothing to the token endpoint and changes nothing. */
  lemma FreshTokenSkipsProvider(cfg: Config, st: Store, now: int, host: string, code: string, formState: string,
                                provider: Option<TokenReply>, other: Option<TokenReply>, whoami: Option<WhoamiReply>)
    requires st.record.authExpiryTimestamp > now
    ensures var s := HandleCallback(cfg, st, now, host, code, formState, provider, whoami);
      && s.outcome == Skipped
      && s.after == st
      && s.bearer == Some(st.record.accessToken)
      && s == HandleCallback(cfg, st, now, host, code, formState, other, whoami)
  {
  }

  /** Exactly the records expired at `now` make the callback leave the skip branch; equality counts as expired. */
  lemma ExpiryBoundary(cfg: Config, st: Store, now: int, host: string, code: string, formState: string)
    ensures Decide(cfg, st, now, host, code, formState).Skipped? <==> now < st.record.authExpiryTimestamp
    ensures st.record.authExpiryTimestamp == now ==> !Decide(cfg, st, now, host, code, formState).Skipped?
  {
  }

  /** The process's first callback with the issued state exchanges the code. */
  lemma FirstCallbackExchanges(cfg: Config, issued: string, now: int, host: string, code: string)
    requires now >= 0
    ensures Decide(cfg, Store(issued, Initial), now, host, code, issued)
         == Exchanged(ExchangeForm(cfg.clientId, cfg.clientSecret, host, code))
  {
    InitialIsExpired(now);
  }

  /**
   A state mismatch happens exactly on an expired record without a refresh
   token and a form state other than the stored one; then the reply is 404,
   nothing is sent anywhere, and the store is untouched.
   */
  lemma StateMismatchRejects(cfg: Config, st: Store, now: int, host: string, code: string, formState: string,
                             provider: Option<TokenReply>, whoami: Option<WhoamiReply>)
    ensures var s := HandleCallback(cfg, st, now, host, code, formState, provider, whoami);
      (s.outcome == StateMismatch404 <==>
         IsExpired(st.record, now) && st.record.refreshToken == "" && formState != st.state)
      && (s.outcome == StateMismatch404 ==>
         s.response == Json(404, "Error", StateMismatchMessage) && s.bearer == None && s.after == st)
  {
  }

  /**
   A refresh grant is sent exactly when the record is expired and holds a
   refresh token; it carries exactly the grant type, the client credentials
   and the stored refresh token.
   */
  lemma RefreshCarriesStoredToken(cfg: Config, st: Store, now: int, host: string, code: string, formState: string)
    ensures var o := Decide(cfg, st, now, host, code, formState);
      (o.Refreshed? <==> IsExpired(st.record, now) && st.record.refreshToken != "")
      && (o.Refreshed? ==>
        && o.form.Keys == {"grant_type", "client_id", "client_secret", "refresh_token"}
        && o.form["grant_type"] == "refresh_token"
        && o.form["client_id"] == cfg.clientId
        && o.form["client_secret"] == cfg.clientSecret
        && o.form["refresh_token"] == st.record.refreshToken)
  {
  }

  /**
   A code exchange is sent exactly when the record is expired, holds no
   refresh token and the form state is the stored one; it carries exactly the
   grant type, the client credentials, the form's code and the redirect URI
   for the request's host.
   */
  lemma ExchangeCarriesCode(cfg: Config, st: Store, now: int, host: string, code: string, formState: string)
    ensures var o := Decide(cfg, st, now, host, code, formState);
      (o.Exchanged? <==> IsExpired(st.record, now) && st.record.refreshToken == "" && formState == st.state)
      && (o.Exchanged? ==>
        && o.form.Keys == {"grant_type", "client_id", "client_secret", "redirect_uri", "code"}
        && o.form["grant_type"] == "authorization_code"
        && o.form["client_id"] == cfg.clientId
        && o.form["client_secret"] == cfg.clientSecret
        && o.form["code"] == code
        && o.form["redirect_uri"] == host + "/auth/callback")
  {
  }

  /** When the client id and host hold no '&', the code exchange names the very redirect URI the authorization request for the same host announced. */
  lemma RedirectUriConsistent(cfg: Config, host: string, state: string, code: string)
    requires '&' !in cfg.clientId && '&' !in host
    ensures Lookup(Parse(AuthorizationUrl(cfg.clientId, host, state).rawQuery), "redirect_uri")
         == Some(ExchangeForm(cfg.clientId, cfg.clientSecret, host, code)["redirect_uri"])
  {
    AuthQueryRedirectUri(cfg.clientId, host, state);
  }

  /** The state the redirect carries is the stored one, so echoing it back passes the check. */
  lemma IssuedStateAccepted(cfg: Config, st: Store, now: int, host: string, code: string)
    requires '&' !in cfg.clientId && '&' !in host && '&' !in st.state
    requires IsExpired(st.record, now) && st.record.refreshToken == ""
    ensures var echoed := Lookup(Parse(AuthorizationUrl(cfg.clientId, host, st.state).rawQuery), "state");
      && echoed == Some(st.state)
      && Decide(cfg, st, now, host, code, echoed.value) == Exchanged(ExchangeForm(cfg.clientId, cfg.clientSecret, host, code))
  {
    AuthQueryLookup(cfg.clientId, host, st.state);
  }

  /**
   After a grant the provider answered, the record is the reply with its
   expiry recomputed from the new lifetime; a failed grant keeps the store.
   The state never changes.
   */
  lemma GrantRenewsRecord(cfg: Config, st: Store, now: int, host: string, code: string, formState: string,
                          provider: Option<TokenReply>, whoami: Option<WhoamiReply>)
    ensures var s := HandleCallback(cfg, st, now, host, code, formState, provider, whoami);
      && s.after.state == st.state
      && ((s.outcome.Refreshed? || s.outcome.Exchanged?) && provider.Some? ==>
            View(s.after.record) == provider.value
            && s.after.record.authExpiryTimestamp == now + provider.value.expiresIn
            && s.bearer == Some(provider.value.accessToken))
      && ((s.outcome.Refreshed? || s.outcome.Exchanged?) && provider.None? ==>
            s.after == st && s.response == Aborted && s.bearer == None)
  {
  }

  /** A grant with a positive lifetime makes a second callback at the same instant skip the token endpoint. */
  lemma FollowUpSkips(cfg: Config, st: Store, now: int, host: string, code: string, formState: string,
                      reply: TokenReply, whoami: Option<WhoamiReply>,
                      host2: string, code2: string, formState2: string)
    requires reply.expiresIn > 0
    ensures var s := HandleCallback(cfg, st, now, host, code, formState, Some(reply), whoami);
      s.outcome != StateMismatch404 ==>
        Decide(cfg, s.after, now, host2, code2, formState2) == Skipped
  {
  }

  /**
   Once a code exchange is answered with a refresh token, the next callback,
   whenever it comes, sends no code: it skips or refreshes with that token.
   */
  lemma NoCodeReplay(cfg: Config, st: Store, now: int, host: string, code: string, formState: string,
                     reply: TokenReply, whoami: Option<WhoamiReply>,
                     later: int, host2: string, code2: string, formState2: string)
    requires reply.refreshToken != ""
    ensures var s := HandleCallback(cfg, st, now, host, code, formState, Some(reply), whoami);
      var o := Decide(cfg, s.after, later, host2, code2, formState2);
      s.outcome.Exchanged? ==>
        o == Skipped || o == Refreshed(RefreshForm(cfg.clientId, cfg.clientSecret, reply.refreshToken))
  {
  }

  /**
   Whenever whoami is asked, it is asked about the stored access token, and
   the caller receives whoami's own status with the success message; whether
   whoami says the token is authenticated makes no difference.
   */
  lemma WhoamiStatusPassedOn(cfg: Config, st: Store, now: int, host: string, code: string, formState: string,
                             provider: Option<TokenReply>, w: WhoamiReply, authenticated: bool)
    ensures var s := HandleCallback(cfg, st, now, host, code, formState, provider, Some(w));
      && (s.bearer.Some? <==> s.outcome != StateMismatch404 && (s.outcome.Skipped? || provider.Some?))
      && (s.bearer.Some? ==>
           s.bearer == Some(s.after.record.accessToken) && s.response == Json(w.status, "message", SuccessMessage))
      && s == HandleCallback(cfg, st, now, host, code, formState, provider, Some(w.(authenticated := authenticated)))
  {
  }
}
