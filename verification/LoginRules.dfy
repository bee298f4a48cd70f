/** The decisions one client takes while it logs in, each as a function of what it holds,
 *  what the cache file holds and what the network answered.
 */
module LoginRules {
  import opened Prelude
  import opened Tokens
  import opened TokenCache

  /** The explicit settings that a discovered or cached target must agree with. */
  datatype Overrides = Overrides(tokenUrl: Option<string>, clientId: Option<string>, audience: Option<string>)

  /** The `/auth-config` answer. */
  datatype AuthConfig = AuthConfig(
    authRequired: bool,
    auth0Domain: Option<string>,
    auth0ClientId: Option<string>,
    auth0Audience: Option<string>,
    keycloakHost: Option<string>,
    keycloakRealm: Option<string>,
    keycloakClientId: Option<string>)

  /** The login state of one client. `target` is `None` until first resolved and `Some(None)`
   *  when the node has authentication disabled. */
  datatype Client = Client(
    target: Option<Option<AuthTarget>>,
    tokens: Option<TokenSet>,
    targetFromCache: bool,
    password: Option<string>)

  const NEW_CLIENT := Client(None, None, false, None)

  function OrElse<T>(a: Option<T>, b: Option<T>): Option<T> {
    if a.Some? then a else b
  }

  function TrimEndSlashes(s: string): string {
    if s != [] && s[|s| - 1] == '/' then TrimEndSlashes(s[..|s| - 1]) else s
  }

  function KeycloakTokenUrl(host: string, realm: string): string {
    TrimEndSlashes(host) + "/realms/" + realm + "/protocol/openid-connect/token"
  }

  predicate Agrees(explicit: Option<string>, cached: string) {
    explicit.None? || explicit.value == cached
  }

  predicate MatchesOverrides(o: Overrides, target: AuthTarget) {
    && Agrees(o.tokenUrl, target.tokenUrl)
    && Agrees(o.clientId, target.clientId)
    && (o.audience.None? || target.audience == o.audience)
  }

  /** The token endpoint, or `Ok(None)` when the node needs no login. Whatever the server
   *  answers, a resolved target agrees with the overrides, so a saved login is never one
   *  that a client with the same overrides would refuse to load. */
  function ResolveAuthTarget(o: Overrides, config: Outcome<AuthConfig>): (r: Outcome<Option<AuthTarget>>)
    ensures r.Ok? && r.value.Some? ==> MatchesOverrides(o, r.value.value)
    ensures o.tokenUrl.Some? && o.clientId.Some? ==> r.Ok? && r.value.Some?
  {
    if o.tokenUrl.Some? && o.clientId.Some? then
      Ok(Some(AuthTarget(o.tokenUrl.value, o.clientId.value, o.audience)))
    else if config.Failed? then
      Failed
    else if !config.value.authRequired then
      Ok(None)
    else if config.value.auth0Domain.Some? then
      var id := OrElse(o.clientId, config.value.auth0ClientId);
      if id.None? then Failed
      else
        var url := OrElse(o.tokenUrl, Some("https://" + config.value.auth0Domain.value + "/oauth/token"));
        Ok(Some(AuthTarget(url.value, id.value, OrElse(o.audience, config.value.auth0Audience))))
    else
      var id := OrElse(o.clientId, config.value.keycloakClientId);
      if id.None? then Failed
      else if o.tokenUrl.Some? then
        Ok(Some(AuthTarget(o.tokenUrl.value, id.value, o.audience)))
      else if config.value.keycloakHost.None? || config.value.keycloakRealm.None? then
        Failed
      else
        var url := KeycloakTokenUrl(config.value.keycloakHost.value, config.value.keycloakRealm.value);
        Ok(Some(AuthTarget(url, id.value, o.audience)))
  }

  predicate BothGiven(o: Overrides) {
    o.tokenUrl.Some? && o.clientId.Some?
  }

  /** Where discovery looks for the client id: with Auth0 whenever the node names an Auth0 domain. */
  function NamedClientId(config: AuthConfig): Option<string> {
    if config.auth0Domain.Some? then config.auth0ClientId else config.keycloakClientId
  }

  /** Whether the node names a token endpoint at all. */
  predicate NamesEndpoint(config: AuthConfig) {
    config.auth0Domain.Some? || (config.keycloakHost.Some? && config.keycloakRealm.Some?)
  }

  /** What discovery answers, without a look at how: no login exactly when the node says so, an error exactly
   *  when the node could not be asked or leaves something open, and the target piece by piece. With a token
   *  URL and a client id given, the node is not asked. */
  lemma DiscoveryExactly(o: Overrides, config: Outcome<AuthConfig>)
    ensures
      var r := ResolveAuthTarget(o, config);
      && (BothGiven(o) ==> r == Ok(Some(AuthTarget(o.tokenUrl.value, o.clientId.value, o.audience))))
      && (!BothGiven(o) ==>
            && (r == Ok(None) <==> config.Ok? && !config.value.authRequired)
            && (r.Failed? <==>
                config.Failed? ||
                (config.value.authRequired &&
                 ((o.clientId.None? && NamedClientId(config.value).None?) ||
                  (o.tokenUrl.None? && !NamesEndpoint(config.value))))))
  {
  }

  /** The pieces of a discovered target: what is given explicitly wins; Auth0 comes before Keycloak, and only
   *  Auth0 brings an audience. */
  lemma DiscoveredPieces(o: Overrides, config: AuthConfig)
    requires !BothGiven(o) && ResolveAuthTarget(o, Ok(config)).Ok? && ResolveAuthTarget(o, Ok(config)).value.Some?
    ensures
      var target, auth0 := ResolveAuthTarget(o, Ok(config)).value.value, config.auth0Domain.Some?;
      && Some(target.clientId) == (if o.clientId.Some? then o.clientId else NamedClientId(config))
      && target.audience == (if o.audience.Some? || !auth0 then o.audience else config.auth0Audience)
      && (o.tokenUrl.Some? ==> target.tokenUrl == o.tokenUrl.value)
      && (o.tokenUrl.None? && auth0 ==> target.tokenUrl == "https://" + config.auth0Domain.value + "/oauth/token")
      && (o.tokenUrl.None? && !auth0 ==>
            && config.keycloakHost.Some? && config.keycloakRealm.Some?
            && target.tokenUrl == KeycloakTokenUrl(config.keycloakHost.value, config.keycloakRealm.value))
  {
  }

  /** Slashes at the end of the Keycloak host do not matter. */
  lemma {:induction false} KeycloakUrl(host: string, slashes: string, realm: string)
    requires host == [] || host[|host| - 1] != '/'
    requires forall k | 0 <= k < |slashes| :: slashes[k] == '/'
    ensures KeycloakTokenUrl(host + slashes, realm) == host + "/realms/" + realm + "/protocol/openid-connect/token"
  {
    if slashes == [] {
      assert host + slashes == host;
    } else {
      KeycloakUrl(host, slashes[..|slashes| - 1], realm);
      assert (host + slashes)[..|host + slashes| - 1] == host + slashes[..|slashes| - 1];
      assert TrimEndSlashes(host + slashes) == TrimEndSlashes(host + slashes[..|slashes| - 1]);
    }
  }

  predicate HoldsValidAccess(c: Client, now: int) {
    c.tokens.Some? && AccessValid(c.tokens.value, now)
  }

  function HeldRefresh(tokens: Option<TokenSet>): Option<string> {
    if tokens.Some? then tokens.value.refreshToken else None
  }

  /** A client that starts from whatever matching login the cache holds. */
  function WithTokenCache(o: Overrides, c: Client, cached: Option<CachedLogin>): Client {
    if cached.Some? && MatchesOverrides(o, cached.value.target) then
      c.(target := Some(Some(cached.value.target)), targetFromCache := true, tokens := Some(cached.value.tokens))
    else
      c
  }

  /** Take a newer login from the cache file: one with another valid access token, or one
   *  with another usable refresh token. */
  function AdoptNewerCachedLogin(o: Overrides, c: Client, cached: Option<CachedLogin>, now: int): Client {
    if cached.None? || !MatchesOverrides(o, cached.value.target) then c
    else
      var login := cached.value;
      var sameAccess := c.tokens.Some? && c.tokens.value.accessToken == login.tokens.accessToken;
      var newerAccess := !sameAccess && AccessValid(login.tokens, now);
      var newerRefresh := UsableRefreshToken(login.tokens, now).Some?
                          && (c.tokens.None? || c.tokens.value.refreshToken != login.tokens.refreshToken);
      if !newerAccess && !newerRefresh then c
      else
        c.(target := Some(Some(login.target)),
           targetFromCache := true,
           tokens := Some(if sameAccess then ExpireAccess(login.tokens) else login.tokens))
  }

  /** What the part of a login under the lock leads to before any grant. */
  datatype Gate =
    | Finished(client: Client, ok: bool)
    | NeedGrant(client: Client, target: AuthTarget, previous: Option<TokenSet>)

  /** After the lock: adopt, look again, then make sure the target is known. `resolved` is
   *  what a first discovery would answer; it is used only when the target is unknown. */
  function PassGate(o: Overrides, c: Client, cached: Option<CachedLogin>, now: int,
                    resolved: Outcome<Option<AuthTarget>>): Gate {
    var adopted := AdoptNewerCachedLogin(o, c, cached, now);
    if HoldsValidAccess(adopted, now) then Finished(adopted, true)
    else if adopted.target.None? && resolved.Failed? then Finished(adopted, false)
    else
      var target := if adopted.target.Some? then adopted.target.value else resolved.value;
      if target.None? then
        Finished(adopted.(target := Some(target), tokens := None), true)
      else
        NeedGrant(adopted.(target := Some(target), tokens := None), target.value, adopted.tokens)
  }

  /** Where a password login sends the password, and the client it leaves. A target that
   *  came from the cache is discovered again; the flag is already cleared when that fails. */
  function PasswordTarget(c: Client, target: AuthTarget, resolved: Outcome<Option<AuthTarget>>)
    : (Client, Option<AuthTarget>)
  {
    if !c.targetFromCache then (c, Some(target))
    else if resolved.Failed? then (c.(targetFromCache := false), None)
    else (c.(targetFromCache := false, target := Some(resolved.value)), resolved.value)
  }

  /** A cached login is ignored, at the start and later, exactly when an explicit setting differs from it. At the
   *  start any other is taken whole and marked as read from the cache. */
  lemma DifferingLoginIsIgnored(o: Overrides, c: Client, login: CachedLogin, now: int)
    ensures
      var differs := || (o.tokenUrl.Some? && o.tokenUrl.value != login.target.tokenUrl)
                     || (o.clientId.Some? && o.clientId.value != login.target.clientId)
                     || (o.audience.Some? && o.audience != login.target.audience);
      if differs then
        WithTokenCache(o, c, Some(login)) == c && AdoptNewerCachedLogin(o, c, Some(login), now) == c
      else
        WithTokenCache(o, c, Some(login)) == Client(Some(Some(login.target)), Some(login.tokens), true, c.password)
  {
  }

  /** A client without a valid access token has one after looking into the cache exactly when the cache holds a
   *  valid one, of a login it may use, that is not the one it holds already. */
  lemma AdoptsAccessExactly(o: Overrides, c: Client, cached: Option<CachedLogin>, now: nat)
    requires !HoldsValidAccess(c, now)
    ensures
      var adopted := AdoptNewerCachedLogin(o, c, cached, now);
      && (HoldsValidAccess(adopted, now) <==>
          && cached.Some? && MatchesOverrides(o, cached.value.target) && AccessValid(cached.value.tokens, now)
          && (c.tokens.Some? ==> c.tokens.value.accessToken != cached.value.tokens.accessToken))
      && (adopted != c ==>
          && cached.Some? && adopted.target == Some(Some(cached.value.target)) && adopted.targetFromCache
          && adopted.tokens.Some? && adopted.tokens.value.accessToken == cached.value.tokens.accessToken
          && adopted.tokens.value.refreshToken == cached.value.tokens.refreshToken
          && adopted.tokens.value.refreshExpiresAt == cached.value.tokens.refreshExpiresAt)
      && (cached.None? ==> adopted == c)
  {
  }

  /** The gate, exactly: no grant is needed when the cache brought a valid access token or the node needs no
   *  login; a login fails here only when the target is unknown and cannot be discovered; otherwise a grant is
   *  tried at the known target, or else at the discovered one, with the tokens that were held. */
  lemma GateExactly(o: Overrides, c: Client, cached: Option<CachedLogin>, now: int,
                    resolved: Outcome<Option<AuthTarget>>)
    ensures
      var gate, adopted := PassGate(o, c, cached, now, resolved), AdoptNewerCachedLogin(o, c, cached, now);
      var target := if adopted.target.Some? then Ok(adopted.target.value) else resolved;
      if HoldsValidAccess(adopted, now) then gate == Finished(adopted, true)
      else if target.Failed? then gate == Finished(adopted, false)
      else
        && gate.client.target == Some(target.value) && gate.client.tokens.None?
        && gate.client.targetFromCache == adopted.targetFromCache && gate.client.password == adopted.password
        && (gate.Finished? <==> target.value.None?) && (gate.Finished? ==> gate.ok)
        && (gate.NeedGrant? ==> gate.target == target.value.value && gate.previous == adopted.tokens)
  {
  }

  /** The rejected access token is never taken back from the cache as a valid one: adopting
   *  either changes the string or leaves it expired. */
  lemma AdoptNeverRevivesAccess(o: Overrides, c: Client, cached: Option<CachedLogin>, now: nat)
    requires c.tokens.Some? && !AccessValid(c.tokens.value, now)
    ensures
      var adopted := AdoptNewerCachedLogin(o, c, cached, now);
      HoldsValidAccess(adopted, now) ==> adopted.tokens.value.accessToken != c.tokens.value.accessToken
  {
  }

  /** When no other refresh token the client holds outlasts the cached one, a refresh token
   *  that is still usable after adopting is the cached one. */
  lemma AdoptLeavesOnlyCachedRefresh(o: Overrides, c: Client, cached: CachedLogin, now: int)
    requires MatchesOverrides(o, cached.target) && cached.tokens.refreshToken.Some?
    requires HeldRefresh(c.tokens).Some? && HeldRefresh(c.tokens) != cached.tokens.refreshToken ==>
               ExpiresNoLater(c.tokens.value.refreshExpiresAt, cached.tokens.refreshExpiresAt)
    ensures
      var adopted := AdoptNewerCachedLogin(o, c, Some(cached), now);
      adopted.tokens.Some? && UsableRefreshToken(adopted.tokens.value, now).Some? ==>
        adopted.tokens.value.refreshToken == cached.tokens.refreshToken
  {
  }
}
