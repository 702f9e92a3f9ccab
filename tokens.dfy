/**
 The relay's token record: the provider's token reply as the relay keeps it,
 plus the instant at which the relay considers it expired.
 */
module Tokens {

  /** The stored token record, one field per field of the source's record. */
  datatype AuthResponse = AuthResponse(
    accessToken: string,
    clientId: string,
    expiresIn: int,
    refreshToken: string,
    tokenType: string,
    userId: string,
    authExpiryTimestamp: int)

  /** The provider's token-endpoint reply, already decoded: the six JSON fields. */
  datatype TokenReply = TokenReply(
    accessToken: string,
    clientId: string,
    expiresIn: int,
    refreshToken: string,
    tokenType: string,
    userId: string)

  /** The record the process starts with: every field at its zero value. */
  const Initial := AuthResponse("", "", 0, "", "", "", 0)

  /** The JSON-carried part of a record. */
  function View(r: AuthResponse): TokenReply
  {
    TokenReply(r.accessToken, r.clientId, r.expiresIn, r.refreshToken, r.tokenType, r.userId)
  }

  /** A record is expired once its expiry timestamp is now or in the past. */
  predicate IsExpired(r: AuthResponse, now: int)
  {
    r.authExpiryTimestamp <= now
  }

  /**
   Decoding a reply into the held record: the JSON fields are overwritten and
   the expiry timestamp, which the reply does not carry, is kept.
   */
  function Decode(held: AuthResponse, reply: TokenReply): (r: AuthResponse)
    ensures View(r) == reply
    ensures r.authExpiryTimestamp == held.authExpiryTimestamp
  {
    held.(accessToken := reply.accessToken, clientId := reply.clientId,
          expiresIn := reply.expiresIn, refreshToken := reply.refreshToken,
          tokenType := reply.tokenType, userId := reply.userId)
  }

  /**
   The record after a successful grant at time `now`: the reply decoded into
   it, then the expiry recomputed from the new `expiresIn`. The new record is
   still valid at `now` exactly when the reply grants a positive lifetime.
   */
  function Renew(held: AuthResponse, reply: TokenReply, now: int): (r: AuthResponse)
    ensures View(r) == reply
    ensures r.authExpiryTimestamp == now + reply.expiresIn
    ensures !IsExpired(r, now) <==> reply.expiresIn > 0
  {
    var decoded := Decode(held, reply);
    decoded.(authExpiryTimestamp := now + decoded.expiresIn)
  }

  /** The starting record counts as expired at every non-negative Unix time and holds no refresh token. */
  lemma InitialIsExpired(now: int)
    requires now >= 0
    ensures IsExpired(Initial, now) && Initial.refreshToken == ""
  {
  }
}
