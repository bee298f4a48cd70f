/** Token lifetimes: what a token endpoint answers and what the client keeps of it. */
module Tokens {
  import opened Prelude

  /** A token counts as expired this many seconds before its real expiry. */
  const EXPIRY_MARGIN_SECS := 30

  /** The OAuth2 token endpoint and client a login uses. */
  datatype AuthTarget = AuthTarget(tokenUrl: string, clientId: string, audience: Option<string>)

  datatype TokenResponse = TokenResponse(
    accessToken: string,
    expiresIn: Option<int>,
    refreshToken: Option<string>,
    refreshExpiresIn: Option<int>)

  /** Expiry times are unix seconds; `None` means the token never expires. */
  datatype TokenSet = TokenSet(
    accessToken: string,
    accessExpiresAt: Option<int>,
    refreshToken: Option<string>,
    refreshExpiresAt: Option<int>)

  /** A lifetime of zero (Keycloak's offline token) or none at all means no expiry. */
  function ExpiresAt(seconds: Option<int>, now: int): Option<int> {
    if seconds.Some? && seconds.value > 0 then Some(now + seconds.value) else None
  }

  /** A refresh answer that omits the refresh token leaves the previous one in use. */
  function FromResponse(response: TokenResponse, now: int, previous: Option<TokenSet>): TokenSet {
    var (refresh, expiry) :=
      if response.refreshToken.Some? then
        (response.refreshToken, ExpiresAt(response.refreshExpiresIn, now))
      else if previous.Some? then
        (previous.value.refreshToken, previous.value.refreshExpiresAt)
      else
        (None, None);
    TokenSet(response.accessToken, ExpiresAt(response.expiresIn, now), refresh, expiry)
  }

  predicate Unexpired(expiresAt: Option<int>, now: int) {
    expiresAt.None? || expiresAt.value - EXPIRY_MARGIN_SECS > now
  }

  predicate AccessValid(tokens: TokenSet, now: int) {
    Unexpired(tokens.accessExpiresAt, now)
  }

  function UsableRefreshToken(tokens: TokenSet, now: int): Option<string> {
    if Unexpired(tokens.refreshExpiresAt, now) then tokens.refreshToken else None
  }

  function ExpireAccess(tokens: TokenSet): TokenSet {
    tokens.(accessExpiresAt := Some(0))
  }

  /** `a` runs out no later than `b`. */
  predicate ExpiresNoLater(a: Option<int>, b: Option<int>) {
    b.None? || (a.Some? && a.value <= b.value)
  }

  /** How long what a grant brings can be used: until the margin before the lifetime that was given, for
   *  ever without one, and as long as the previous refresh token when the answer brings none. Dropping
   *  the access token ends it at once and leaves the refresh token alone. */
  lemma GrantedTokensLast(response: TokenResponse, at: nat, previous: Option<TokenSet>, now: nat)
    ensures
      var tokens := FromResponse(response, at, previous);
      && (AccessValid(tokens, now) <==>
          response.expiresIn.None? || response.expiresIn.value <= 0 || now + 30 < at + response.expiresIn.value)
      && (response.refreshToken.Some? ==>
          (UsableRefreshToken(tokens, now) == response.refreshToken <==>
           response.refreshExpiresIn.None? || response.refreshExpiresIn.value <= 0
           || now + 30 < at + response.refreshExpiresIn.value))
      && (response.refreshToken.None? ==>
          UsableRefreshToken(tokens, now) == if previous.Some? then UsableRefreshToken(previous.value, now) else None)
      && !AccessValid(ExpireAccess(tokens), now)
      && UsableRefreshToken(ExpireAccess(tokens), now) == UsableRefreshToken(tokens, now)
  {
  }
}
