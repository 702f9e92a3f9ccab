# askmonzo OAuth relay — a Dafny model of its token lifecycle

askmonzo is a small HTTP service. It sits in front of the Monzo identity
provider and runs the OAuth 2.0 authorization-code flow of RFC 6749. `/auth`
redirects the browser to the provider's authorization page, which is the
authorization request of section 4.1.1. `/auth/callback` keeps one
process-wide token record. On each callback it does one of three things:

- It skips the token endpoint while the record is still valid.
- It sends a refresh grant (section 6) once the record has expired and a refresh token is stored.
- Otherwise it checks the echoed `state`, the CSRF defence of section 10.12, and sends an authorization-code grant (section 4.1.3).

After a successful grant it recomputes the expiry. It then asks the whoami
endpoint about the stored access token and passes whoami's status code back
to the caller.

The model has five files:

- `options.dfy` holds `Option`.
- `tokens.dfy` holds the token record `AuthResponse`, the expiry test and the update after a grant.
- `relay.dfy` holds the outgoing forms, the authorization URL, the branch decision `Decide` (which request, if any, goes to the token endpoint), the verification step `Verify` (the whoami call and the status it passes on), the whole callback as a specification function `HandleCallback` built from them, and the class `Server`. The class's fields are the shared cells `state` and `authResponse`. Its method `BeginAuth` models `/auth`. Its method `Callback` models `/auth/callback` step by step and is proved equal to `HandleCallback` on the old state.
- `query.dfy` gives a reference reading of a raw query string: split at `&`, cut at the first `=`. It is used to state what the redirect carries.
- `properties.dfy` proves the lifecycle properties over all inputs.

The network is not modelled. The token endpoint's reply and the whoami
reply are inputs, already decoded. `None` stands for any failure to send,
read or decode a reply. The clock is the parameter `now`. The random state
is the constructor argument `issued`.

The model follows the code, including where an OAuth relay might be expected to behave otherwise:

- The redirect URI is `host + "/auth/callback"`, with no scheme.
- The state is issued once, when the handlers are built. It is not issued again on each `/auth` call.
- Only an empty refresh token, not an empty access token, sends a callback to the code exchange.
- A failed provider or whoami call aborts the request (`Aborted`). It gets no 4xx/5xx JSON response.
- A non-2xx reply from the provider is decoded like any other reply.
- Whoami's status is passed on with the message "authentication successful", whatever the status is.

## Model

| member | source | states |
|---|---|---|
| Tokens.Decode | main.go:111 | Decoding a reply into the record overwrites exactly the six JSON fields with the reply's and keeps the expiry timestamp |
| Tokens.Renew | main.go:154-160 | After a grant the record's JSON fields are the reply's and its expiry is `now + expiresIn`. It is still valid at `now` exactly when `expiresIn > 0` |
| Tokens.InitialIsExpired | main.go:20-30 | The zero record is expired at every non-negative Unix time and holds no refresh token |
| Relay.Server.constructor | main.go:67-68 | The record starts at its zero value and the state is the one issued when the handlers are built |
| Relay.Server.BeginAuth | main.go:70-77 | `/auth` answers 307 with `https://auth.getmondo.co.uk` and the line-74 query. When no value holds `&`, that query reads back as exactly `client_id`, `redirect_uri`, `response_type=code` and the stored `state`, in that order |
| Relay.Server.Callback | main.go:81-192 | The callback's step-by-step updates give the outcome, the whoami bearer token, the response and the new cells that `HandleCallback` defines from the old cells. The state is unchanged |
| Relay.AuthQueryIsJoin | main.go:74 | The concatenated query is the four `key=value` pieces joined by `&` |
| Relay.AuthQueryReadsBack | main.go:74 | When the client id, host and state hold no `&`, the query split at `&` and cut at `=` gives back the four parameters in order |
| Relay.AuthQueryRedirectUri | main.go:74 | When the client id and host hold no `&`, looking up `redirect_uri` in the query gives `host/auth/callback`, whatever the state |
| Relay.UnescapedHostSplitsRedirectUri | main.go:74 | The query is not escaped: for a host `h&x` with no `&` in `h` or the client id, the query's `redirect_uri` reads back as `h`, which differs from the exchange's `h&x/auth/callback` |
| Relay.UnescapedClientIdCutsClientId | main.go:74 | The query is not escaped: for a client id `a&b` with no `&` in `a`, the query's `client_id` reads back as `a` |
| Relay.AuthQueryLookup | main.go:74 | When the client id, host and state hold no `&`, looking up `client_id`, `redirect_uri`, `response_type` and `state` in the query gives the client id, `host/auth/callback`, `code` and the state |
| RelayProperties.FreshTokenSkipsProvider | main.go:86-170 | While the expiry timestamp is after `now` the callback skips the token endpoint, leaves the cells unchanged, sends the stored access token to whoami, and does not depend on any provider reply |
| RelayProperties.ExpiryBoundary | main.go:86-87 | The skip branch is taken exactly when `now < expiry`. At `expiry == now` a refresh, a state mismatch or an exchange follows |
| RelayProperties.FirstCallbackExchanges | main.go:86-135 | From the zero record, a callback that echoes the issued state sends a code exchange |
| RelayProperties.StateMismatchRejects | main.go:121-128 | Status 404 with the mismatch message happens exactly when the record is expired, has no refresh token and the form state differs. Then nothing is sent to the provider or whoami and the cells are unchanged |
| RelayProperties.RefreshCarriesStoredToken | main.go:87-92 | A refresh grant is sent exactly when the record is expired and has a refresh token. Its form has exactly `grant_type=refresh_token`, `client_id`, `client_secret` and the stored `refresh_token` |
| RelayProperties.ExchangeCarriesCode | main.go:115-135 | A code exchange is sent exactly when the record is expired, has no refresh token and the state matches. Its form has exactly `grant_type=authorization_code`, the credentials, the form's `code` and `redirect_uri = host/auth/callback` |
| RelayProperties.RedirectUriConsistent | main.go:74-134 | When the client id and host hold no `&`, the exchange's `redirect_uri` is the `redirect_uri` that the authorization URL for the same host carries |
| RelayProperties.IssuedStateAccepted | main.go:68-123 | When the client id, host and state hold no `&`, the state read back from the redirect is the stored state, so echoing it to an expired record without a refresh token gets past the check to the exchange |
| RelayProperties.GrantRenewsRecord | main.go:111-160 | A callback never changes the state. After an answered grant the record is the reply with expiry `now + expiresIn` and its access token goes to whoami. A failed grant leaves the cells as they were and aborts |
| RelayProperties.FollowUpSkips | main.go:86-160 | After a grant with `expiresIn > 0`, a second callback at the same `now` takes the skip branch for any host, code and form state |
| RelayProperties.NoCodeReplay | main.go:86-160 | After an exchange answered with a refresh token, the next callback, whenever it comes, skips or refreshes with that token and sends no code |
| RelayProperties.WhoamiStatusPassedOn | main.go:163-188 | Whoami is asked exactly when no mismatch occurred and no grant failed, and it is asked about the stored access token. The caller gets whoami's status with "authentication successful". The `authenticated` field makes no difference |

## Left out

- The gin router, `/ping`, `newServer`'s route wiring, `main` and port handling are HTTP plumbing with no logic.
- `getEnv` is left out because it is environment access. The client id and secret are fields of the server.
- `getRandomString` is left out because it draws a time-seeded random number. The issued state is a constructor argument.
- The HTTP client calls, request headers and body reading are I/O. The replies are inputs.
- Every `panic` on a request, transport, read or decode failure is modelled as the response `Aborted` with the cells as they were when the panic happened. A failed grant leaves them as before the callback; a failed whoami call comes after the re-stamp and keeps the renewed record. The status that the router's recovery would send is not modelled.
- `json.Unmarshal` is treated as overwriting all six JSON fields of the record. Its partial overwrite when a field is missing or a decode error happens part-way through is library behaviour and is not modelled. Decoding of the whoami reply is left out too, except that its failure aborts.
- `ParseForm` failure is left out. The form's `code` and `state` are inputs, with `""` when absent, as `Form.Get` gives.
- `url.Values.Encode` key order and percent-encoding, and `url.URL.String`, are left out. Forms are maps, the redirect target is its scheme, host and raw query, and the query reading does no percent-decoding. The exchange form is percent-encoded and the query at main.go:74 is not, so a provider that percent-decodes the query reads a different redirect URI when the Host holds `+` or `%` (both allowed in a Host, as `%25` in an IPv6 zone); this is not modelled.
- Relay.Server.Callback uses one `now` for both clock readings, the expiry test and the re-stamp. The source reads the clock twice. The model does not capture a second that passes between the two readings.
- int64 overflow of `now + expiresIn` is not modelled. Integers are unbounded.
- The global `expiryTime` is never read or written by the code, so it is not modelled.
- One `Server` object stands for the single router the process builds. In the source the cells are package globals, so building a second router re-issues `state` for every router and keeps `authResponse`; a second `Server` gets its own zero record instead.
- RelayProperties.RedirectUriConsistent is proved when the client id and host hold no `&`, which is enough but not necessary. The query at main.go:74 is concatenated without escaping:
  - a Host holding `&` always changes the `redirect_uri` read back from the query, so it differs from the one the code exchange sends (Relay.UnescapedHostSplitsRedirectUri);
  - a client id holding `&` cuts the `client_id` value read back short at the `&` (Relay.UnescapedClientIdCutsClientId);
  - such a client id changes the `redirect_uri` read back only when a piece after the `&` is keyed `redirect_uri`, as in `a&redirect_uri=e`; this case is not modelled.
- RelayProperties.NoCodeReplay covers only the next callback. A later refresh answered with an empty refresh token overwrites the stored one, after which an expired callback can send a code exchange again.
- Concurrency is left out. The cells are shared by request goroutines without a lock. The model runs one callback at a time.
