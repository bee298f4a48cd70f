/** One client of the node's API: the fields it updates while it logs in and sends requests.
 *
 *  The network, the clock, the cache file and the password command are parameters: an
 *  `Answers` value holds what each of them would answer during one `authenticate` call.
 *  The log records what the client sent, in order.
 */
module DecmanClients {
  import opened Prelude
  import opened Tokens
  import opened TokenCache
  import opened LoginRules

  datatype ClientEvent =
    | Discovered(answer: Outcome<Option<AuthTarget>>)
    | RefreshSent(target: AuthTarget, token: string)
    | PasswordSent(target: AuthTarget)
    | Granted(accessToken: string)
    | Saved(target: AuthTarget, tokens: TokenSet)
    | RequestSent(bearer: Option<string>)

  /** `secure` is the check that a token URL is https or loopback. */
  datatype ClientSettings = ClientSettings(overrides: Overrides, secure: string -> bool, hasCache: bool)

  datatype Answers = Answers(
    now: nat,
    cached: Option<CachedLogin>,
    config: Outcome<AuthConfig>,
    refresh: Outcome<TokenResponse>,
    refreshedAt: int,
    reconfig: Outcome<AuthConfig>,
    password: Outcome<string>,
    grant: Outcome<TokenResponse>,
    grantedAt: int)

  /** What a call leaves: the client, what it sent, and whether it succeeded. */
  datatype CallResult = CallResult(client: Client, events: seq<ClientEvent>, ok: bool)

  function CacheRead(cfg: ClientSettings, a: Answers): Option<CachedLogin> {
    if cfg.hasCache then a.cached else None
  }

  /** Whether this call has to discover the target before anything else. */
  predicate DiscoversFirst(cfg: ClientSettings, c: Client, a: Answers) {
    var adopted := AdoptNewerCachedLogin(cfg.overrides, c, CacheRead(cfg, a), a.now);
    !HoldsValidAccess(adopted, a.now) && adopted.target.None?
  }

  function AskedFirst(cfg: ClientSettings, c: Client, a: Answers): seq<ClientEvent> {
    if DiscoversFirst(cfg, c, a) then [Discovered(ResolveAuthTarget(cfg.overrides, a.config))] else []
  }

  /** What a grant leads to: the client, what was sent for it, and what was granted, if anything. */
  datatype GrantAttempt = GrantAttempt(
    client: Client, events: seq<ClientEvent>, granted: Option<(AuthTarget, TokenSet)>)

  function PasswordLogin(cfg: ClientSettings, c: Client, target: AuthTarget, a: Answers): GrantAttempt {
    var resolved := ResolveAuthTarget(cfg.overrides, a.reconfig);
    var discovery := if c.targetFromCache then [Discovered(resolved)] else [];
    var (c1, destination) := PasswordTarget(c, target, resolved);
    if destination.None? || (c1.password.None? && a.password.Failed?) then
      GrantAttempt(c1, discovery, None)
    else
      var c2 := if c1.password.Some? then c1 else c1.(password := Some(a.password.value));
      if !cfg.secure(destination.value.tokenUrl) then
        GrantAttempt(c2, discovery, None)
      else if a.grant.Failed? then
        GrantAttempt(c2, discovery + [PasswordSent(destination.value)], None)
      else
        GrantAttempt(c2, discovery + [PasswordSent(destination.value)],
                Some((destination.value, FromResponse(a.grant.value, a.grantedAt, None))))
  }

  /** The refresh token that a client past the gate offers, if its endpoint may be called. */
  function Offers(cfg: ClientSettings, gate: Gate, now: int): Option<string>
    requires gate.NeedGrant?
  {
    if gate.previous.Some? && cfg.secure(gate.target.tokenUrl)
    then UsableRefreshToken(gate.previous.value, now) else None
  }

  function GateOf(cfg: ClientSettings, c: Client, a: Answers): Gate {
    PassGate(cfg.overrides, c, CacheRead(cfg, a), a.now, ResolveAuthTarget(cfg.overrides, a.config))
  }

  /** The refresh grant, and a password login when there is none to try or it fails. */
  function TryGrants(cfg: ClientSettings, gate: Gate, a: Answers): GrantAttempt
    requires gate.NeedGrant?
  {
    var offered := Offers(cfg, gate, a.now);
    var sent := if offered.Some? then [RefreshSent(gate.target, offered.value)] else [];
    if offered.Some? && a.refresh.Ok? then
      GrantAttempt(gate.client, sent, Some((gate.target, FromResponse(a.refresh.value, a.refreshedAt, gate.previous))))
    else
      var attempt := PasswordLogin(cfg, gate.client, gate.target, a);
      attempt.(events := sent + attempt.events)
  }

  /** A still-valid access token, then the refresh grant, then a password login. */
  function Authenticate(cfg: ClientSettings, c: Client, a: Answers): CallResult {
    if HoldsValidAccess(c, a.now) then CallResult(c, [], true)
    else
      var discovery := AskedFirst(cfg, c, a);
      var gate := GateOf(cfg, c, a);
      if gate.Finished? then CallResult(gate.client, discovery, gate.ok)
      else
        var attempt := TryGrants(cfg, gate, a);
        Finish(cfg, attempt.(events := discovery + attempt.events))
  }

  /** Granted tokens go to the cache, then to the client. */
  function Finish(cfg: ClientSettings, attempt: GrantAttempt): CallResult {
    if attempt.granted.None? then CallResult(attempt.client, attempt.events, false)
    else
      var (target, tokens) := attempt.granted.value;
      CallResult(attempt.client.(tokens := Some(tokens)),
           attempt.events + [Granted(tokens.accessToken)] + if cfg.hasCache then [Saved(target, tokens)] else [],
           true)
  }

  function DropAccessToken(c: Client): Client {
    if c.tokens.Some? then c.(tokens := Some(ExpireAccess(c.tokens.value))) else c
  }

  function Bearer(c: Client): Option<string> {
    if c.tokens.Some? then Some(c.tokens.value.accessToken) else None
  }

  // ------------------------------------------------- where the password goes

  /** What this client's most recent discovery answered. */
  function LatestDiscovery(log: seq<ClientEvent>): Option<Outcome<Option<AuthTarget>>> {
    if log == [] then None
    else if log[|log| - 1].Discovered? then Some(log[|log| - 1].answer)
    else LatestDiscovery(log[..|log| - 1])
  }

  /** Every password went to the target that the client's latest discovery had answered. */
  predicate PasswordsWentToDiscovered(log: seq<ClientEvent>) {
    forall i | 0 <= i < |log| && log[i].PasswordSent? ::
      LatestDiscovery(log[..i]) == Some(Ok(Some(log[i].target)))
  }

  /** A target that the client would send the password to without asking again. */
  predicate TargetTrusted(c: Client, log: seq<ClientEvent>) {
    c.target.Some? && c.target.value.Some? && !c.targetFromCache ==> LatestDiscovery(log) == Some(Ok(c.target.value))
  }

  /** A discovery that a password login needed, and that failed, in this call. */
  predicate RediscoveryFails(cfg: ClientSettings, c: Client, a: Answers) {
    && !HoldsValidAccess(c, a.now)
    && var gate := GateOf(cfg, c, a);
       && gate.NeedGrant? && gate.client.targetFromCache
       && !(Offers(cfg, gate, a.now).Some? && a.refresh.Ok?)
       && ResolveAuthTarget(cfg.overrides, a.reconfig).Failed?
  }

  lemma LatestAfter(log: seq<ClientEvent>, event: ClientEvent)
    ensures LatestDiscovery(log + [event]) == if event.Discovered? then Some(event.answer) else LatestDiscovery(log)
  {
    assert (log + [event])[..|log|] == log;
  }

  lemma PasswordsAfter(log: seq<ClientEvent>, event: ClientEvent)
    requires PasswordsWentToDiscovered(log)
    requires event.PasswordSent? ==> LatestDiscovery(log) == Some(Ok(Some(event.target)))
    ensures PasswordsWentToDiscovered(log + [event])
  {
    forall i | 0 <= i < |log + [event]| && (log + [event])[i].PasswordSent?
      ensures LatestDiscovery((log + [event])[..i]) == Some(Ok(Some((log + [event])[i].target)))
    {
      assert (log + [event])[..i] == log[..i];
    }
  }

  /** Events that neither discover nor send the password change nothing here. */
  lemma {:induction false} QuietEvents(log: seq<ClientEvent>, events: seq<ClientEvent>)
    requires forall e | e in events :: !e.Discovered? && !e.PasswordSent?
    requires PasswordsWentToDiscovered(log)
    ensures LatestDiscovery(log + events) == LatestDiscovery(log) && PasswordsWentToDiscovered(log + events)
    decreases |events|
  {
    if events == [] {
      assert log + events == log;
    } else {
      var first := events[..|events| - 1];
      QuietEvents(log, first);
      assert log + events == log + first + [events[|events| - 1]];
      LatestAfter(log + first, events[|events| - 1]);
      PasswordsAfter(log + first, events[|events| - 1]);
    }
  }

  lemma PasswordLoginKeepsTrust(cfg: ClientSettings, c: Client, target: AuthTarget, log: seq<ClientEvent>, a: Answers)
    requires TargetTrusted(c, log) && PasswordsWentToDiscovered(log) && c.target == Some(Some(target))
    ensures
      var attempt := PasswordLogin(cfg, c, target, a);
      && PasswordsWentToDiscovered(log + attempt.events)
      && (TargetTrusted(attempt.client, log + attempt.events)
          <==> !(c.targetFromCache && ResolveAuthTarget(cfg.overrides, a.reconfig).Failed?))
  {
    hide ResolveAuthTarget, PasswordsWentToDiscovered, LatestDiscovery;
    var attempt := PasswordLogin(cfg, c, target, a);
    var resolved := ResolveAuthTarget(cfg.overrides, a.reconfig);
    var asked := if c.targetFromCache then [Discovered(resolved)] else [];
    if c.targetFromCache {
      LatestAfter(log, Discovered(resolved));
      PasswordsAfter(log, Discovered(resolved));
    } else {
      assert log + asked == log;
    }
    if attempt.events != asked {
      var sent := attempt.events[|asked|];
      assert sent.PasswordSent? && log + attempt.events == log + asked + [sent];
      LatestAfter(log + asked, sent);
      PasswordsAfter(log + asked, sent);
    }
  }

  lemma GateKeepsTrust(cfg: ClientSettings, c: Client, log: seq<ClientEvent>, a: Answers)
    requires TargetTrusted(c, log) && PasswordsWentToDiscovered(log)
    ensures
      var gate, before := GateOf(cfg, c, a), log + AskedFirst(cfg, c, a);
      && PasswordsWentToDiscovered(before) && TargetTrusted(gate.client, before)
      && (gate.NeedGrant? ==> gate.client.target == Some(Some(gate.target)))
  {
    hide PasswordsWentToDiscovered, LatestDiscovery, MatchesOverrides, ResolveAuthTarget;
    if DiscoversFirst(cfg, c, a) {
      LatestAfter(log, AskedFirst(cfg, c, a)[0]);
      PasswordsAfter(log, AskedFirst(cfg, c, a)[0]);
    } else {
      assert log + AskedFirst(cfg, c, a) == log;
    }
  }

  lemma GrantsKeepTrust(cfg: ClientSettings, gate: Gate, log: seq<ClientEvent>, a: Answers)
    requires gate.NeedGrant? && gate.client.target == Some(Some(gate.target))
    requires TargetTrusted(gate.client, log) && PasswordsWentToDiscovered(log)
    ensures
      var attempt := TryGrants(cfg, gate, a);
      && PasswordsWentToDiscovered(log + attempt.events)
      && (TargetTrusted(attempt.client, log + attempt.events)
          <==> !(gate.client.targetFromCache && !(Offers(cfg, gate, a.now).Some? && a.refresh.Ok?)
                 && ResolveAuthTarget(cfg.overrides, a.reconfig).Failed?))
  {
    hide PasswordsWentToDiscovered, LatestDiscovery, PasswordLogin, ResolveAuthTarget;
    var offered := Offers(cfg, gate, a.now);
    var sent := if offered.Some? then [RefreshSent(gate.target, offered.value)] else [];
    QuietEvents(log, sent);
    if !(offered.Some? && a.refresh.Ok?) {
      PasswordLoginKeepsTrust(cfg, gate.client, gate.target, log + sent, a);
      var tried := PasswordLogin(cfg, gate.client, gate.target, a).events;
      assert log + sent + tried == log + (sent + tried);
    }
  }

  /** One call, whatever the environment answers: the password only ever goes to the target
   *  of the latest discovery, and the client can be trusted to keep doing so exactly when
   *  the call did not fail to discover a cached target again. */
  lemma AuthenticateKeepsTrust(cfg: ClientSettings, c: Client, log: seq<ClientEvent>, a: Answers)
    requires TargetTrusted(c, log) && PasswordsWentToDiscovered(log)
    ensures
      var step := Authenticate(cfg, c, a);
      && PasswordsWentToDiscovered(log + step.events)
      && (TargetTrusted(step.client, log + step.events) <==> !RediscoveryFails(cfg, c, a))
  {
    hide PasswordsWentToDiscovered, LatestDiscovery, GateOf, AskedFirst, TryGrants, ResolveAuthTarget;
    var step := Authenticate(cfg, c, a);
    if HoldsValidAccess(c, a.now) {
      assert log + step.events == log;
    } else {
      var gate, asked := GateOf(cfg, c, a), AskedFirst(cfg, c, a);
      GateKeepsTrust(cfg, c, log, a);
      if gate.NeedGrant? {
        GrantsKeepTrust(cfg, gate, log + asked, a);
        var tried := TryGrants(cfg, gate, a).events;
        var rest := step.events[|asked + tried|..];
        assert log + step.events == log + asked + tried + rest;
        QuietEvents(log + asked + tried, rest);
      }
    }
  }

  /** The client would send the password to a target that its latest discovery did not answer: it may come
   *  to need a login, its target is not from the cache as far as it knows, and the URL may be called. */
  predicate Exposed(cfg: ClientSettings, c: Client, log: seq<ClientEvent>) {
    && !TargetTrusted(c, log) && cfg.secure(c.target.value.value.tokenUrl)
    && (c.tokens.Some? ==> c.tokens.value.accessExpiresAt.Some?)
  }

  /** Without a trusted target the password is still safe when the URL may not be called: the cached login
   *  that replaces the target is discovered again. */
  lemma InsecureTargetGetsNothing(cfg: ClientSettings, c: Client, log: seq<ClientEvent>, a: Answers)
    requires !TargetTrusted(c, log) && !cfg.secure(c.target.value.value.tokenUrl) && !HoldsValidAccess(c, a.now)
    requires PasswordsWentToDiscovered(log)
    ensures PasswordsWentToDiscovered(log + Authenticate(cfg, c, a).events)
  {
    hide PasswordsWentToDiscovered, LatestDiscovery, ResolveAuthTarget, MatchesOverrides, PasswordLogin;
    var gate, events := GateOf(cfg, c, a), Authenticate(cfg, c, a).events;
    assert AskedFirst(cfg, c, a) == [];
    if gate.Finished? {
      assert log + events == log;
    } else if gate.client.targetFromCache {
      GrantsKeepTrust(cfg, gate, log, a);
      var tried := TryGrants(cfg, gate, a).events;
      assert log + events == log + tried + events[|tried|..];
      QuietEvents(log + tried, events[|tried|..]);
    } else {
      InsecureLoginIsQuiet(cfg, gate, a);
      QuietEvents(log, events);
    }
  }

  lemma InsecureLoginIsQuiet(cfg: ClientSettings, gate: Gate, a: Answers)
    requires gate.NeedGrant? && !gate.client.targetFromCache && !cfg.secure(gate.target.tokenUrl)
    ensures TryGrants(cfg, gate, a).events == [] && TryGrants(cfg, gate, a).granted.None?
  {
    hide ResolveAuthTarget;
  }

  /** The answers that make an exposed client log in with its password and nothing from the cache. */
  function AskedForPassword(c: Client): Answers {
    var expiry := if c.tokens.Some? && c.tokens.value.accessExpiresAt.Some?
                  then c.tokens.value.accessExpiresAt.value else 0;
    Answers(Max(expiry, 0), None, Failed, Failed, 0, Failed, Ok("secret"), Failed, 0)
  }

  lemma ExposedAsked(cfg: ClientSettings, c: Client, log: seq<ClientEvent>)
    requires Exposed(cfg, c, log)
    ensures
      var a, target := AskedForPassword(c), c.target.value.value;
      && !HoldsValidAccess(c, a.now) && AskedFirst(cfg, c, a) == [] && !c.targetFromCache
      && GateOf(cfg, c, a) == NeedGrant(c.(tokens := None), target, c.tokens)
  {
    hide ResolveAuthTarget, MatchesOverrides, LatestDiscovery;
  }

  lemma ExposedEvents(cfg: ClientSettings, c: Client, log: seq<ClientEvent>) returns (quiet: seq<ClientEvent>)
    requires Exposed(cfg, c, log)
    ensures Authenticate(cfg, c, AskedForPassword(c)).events == quiet + [PasswordSent(c.target.value.value)]
    ensures forall e | e in quiet :: e.RefreshSent?
  {
    hide GateOf, AskedFirst, HoldsValidAccess, ResolveAuthTarget, LatestDiscovery;
    ExposedAsked(cfg, c, log);
    var gate := GateOf(cfg, c, AskedForPassword(c));
    var offered := Offers(cfg, gate, AskedForPassword(c).now);
    quiet := if offered.Some? then [RefreshSent(gate.target, offered.value)] else [];
  }

  lemma ExposedSendsPassword(cfg: ClientSettings, c: Client, log: seq<ClientEvent>)
    requires Exposed(cfg, c, log)
    ensures !PasswordsWentToDiscovered(log + Authenticate(cfg, c, AskedForPassword(c)).events)
  {
    hide Authenticate, LatestDiscovery;
    var quiet := ExposedEvents(cfg, c, log);
    var whole := log + Authenticate(cfg, c, AskedForPassword(c)).events;
    LatestUnchanged(log, quiet);
    assert whole[..|log + quiet|] == log + quiet && whole[|log + quiet|] == PasswordSent(c.target.value.value);
  }

  lemma {:induction false} LatestUnchanged(log: seq<ClientEvent>, events: seq<ClientEvent>)
    requires forall e | e in events :: e.RefreshSent?
    ensures LatestDiscovery(log + events) == LatestDiscovery(log)
    decreases |events|
  {
    if events == [] {
      assert log + events == log;
    } else {
      var first := events[..|events| - 1];
      assert events[|events| - 1] in events;
      LatestUnchanged(log, first);
      assert log + events == log + first + [events[|events| - 1]];
      LatestAfter(log + first, events[|events| - 1]);
    }
  }

  /** The exact condition, on the passwords themselves: whatever the next call is answered, every password
   *  goes to the latest discovered target, if and only if the client is not exposed. */
  lemma NextPasswordIsSafeExactly(cfg: ClientSettings, c: Client, log: seq<ClientEvent>)
    requires PasswordsWentToDiscovered(log)
    ensures (forall a :: PasswordsWentToDiscovered(log + Authenticate(cfg, c, a).events)) <==> !Exposed(cfg, c, log)
  {
    hide PasswordsWentToDiscovered, Authenticate;
    if Exposed(cfg, c, log) {
      ExposedSendsPassword(cfg, c, log);
    } else {
      forall a: Answers
        ensures PasswordsWentToDiscovered(log + Authenticate(cfg, c, a).events)
      {
        if TargetTrusted(c, log) {
          AuthenticateKeepsTrust(cfg, c, log, a);
        } else if HoldsValidAccess(c, a.now) {
          ValidAccessSendsNothing(cfg, c, a);
          assert log + [] == log;
        } else {
          InsecureTargetGetsNothing(cfg, c, log, a);
        }
      }
    }
  }

  lemma ValidAccessSendsNothing(cfg: ClientSettings, c: Client, a: Answers)
    requires HoldsValidAccess(c, a.now)
    ensures Authenticate(cfg, c, a).events == []
  {
  }

  // ------------------------------------------------- whole runs of one client

  /** What changes a client between two requests. */
  datatype Call = Login(answers: Answers) | Sent | Unauthorized | LoggedOut

  function Perform(cfg: ClientSettings, c: Client, call: Call): CallResult {
    match call
    case Login(answers) => Authenticate(cfg, c, answers)
    case Sent => CallResult(c, [RequestSent(Bearer(c))], true)
    case Unauthorized => CallResult(DropAccessToken(c), [], true)
    case LoggedOut => CallResult(c.(tokens := None), [], true)
  }

  /** The client and its log after `calls`, starting from what it loaded from the cache. */
  function AfterCalls(cfg: ClientSettings, cached: Option<CachedLogin>, calls: seq<Call>): (Client, seq<ClientEvent>) {
    if calls == [] then (WithTokenCache(cfg.overrides, NEW_CLIENT, cached), [])
    else
      var (c, log) := AfterCalls(cfg, cached, calls[..|calls| - 1]);
      var step := Perform(cfg, c, calls[|calls| - 1]);
      (step.client, log + step.events)
  }

  /** A discovery of a cached target failed at some call. */
  predicate RediscoveryFailed(cfg: ClientSettings, cached: Option<CachedLogin>, calls: seq<Call>) {
    exists i | 0 <= i < |calls| && calls[i].Login? ::
      RediscoveryFails(cfg, AfterCalls(cfg, cached, calls[..i]).0, calls[i].answers)
  }

  /** In every run in which discovering a cached target again never fails, every password
   *  went to the target of the client's latest discovery, never to one merely read from the cache. */
  lemma {:induction false} PasswordOnlyToDiscoveredTarget(cfg: ClientSettings, cached: Option<CachedLogin>,
                                                          calls: seq<Call>)
    requires !RediscoveryFailed(cfg, cached, calls)
    ensures
      var (c, log) := AfterCalls(cfg, cached, calls);
      PasswordsWentToDiscovered(log) && TargetTrusted(c, log)
    decreases |calls|
  {
    if calls != [] {
      var n := |calls| - 1;
      forall i | 0 <= i < n
        ensures calls[..n][..i] == calls[..i]
      {
      }
      assert !RediscoveryFailed(cfg, cached, calls[..n]);
      PasswordOnlyToDiscoveredTarget(cfg, cached, calls[..n]);
      var (c, log) := AfterCalls(cfg, cached, calls[..n]);
      if calls[n].Login? {
        AuthenticateKeepsTrust(cfg, c, log, calls[n].answers);
      } else {
        QuietEvents(log, Perform(cfg, c, calls[n]).events);
      }
    }
  }

  predicate TargetCallable(cfg: ClientSettings, c: Client) {
    c.target.Some? && c.target.value.Some? && cfg.secure(c.target.value.value.tokenUrl)
  }

  lemma OneMoreLogin(cfg: ClientSettings, cached: Option<CachedLogin>, calls: seq<Call>, a: Answers)
    ensures
      var (c, log) := AfterCalls(cfg, cached, calls);
      var step := Authenticate(cfg, c, a);
      AfterCalls(cfg, cached, calls + [Login(a)]) == (step.client, log + step.events)
  {
    hide Authenticate;
    assert (calls + [Login(a)])[..|calls|] == calls;
  }

  lemma FailingDropsTokens(cfg: ClientSettings, c: Client, a: Answers)
    requires RediscoveryFails(cfg, c, a)
    ensures Authenticate(cfg, c, a).client.tokens.None?
  {
    hide ResolveAuthTarget, MatchesOverrides;
  }

  lemma ExposedAfterFailure(cfg: ClientSettings, c: Client, log: seq<ClientEvent>, a: Answers)
    requires TargetTrusted(c, log) && PasswordsWentToDiscovered(log)
    ensures
      var step := Authenticate(cfg, c, a);
      && PasswordsWentToDiscovered(log + step.events)
      && (Exposed(cfg, step.client, log + step.events) <==>
          RediscoveryFails(cfg, c, a) && TargetCallable(cfg, step.client))
  {
    hide Authenticate, RediscoveryFails, PasswordsWentToDiscovered, LatestDiscovery;
    AuthenticateKeepsTrust(cfg, c, log, a);
    if RediscoveryFails(cfg, c, a) {
      FailingDropsTokens(cfg, c, a);
    }
  }

  /** After a run without such a failure and one more call, the passwords of whatever call comes next are safe
   *  if and only if that one call did not fail to discover a cached target again, or left a target that may
   *  not be called. */
  lemma FailedRediscoveryExposes(cfg: ClientSettings, cached: Option<CachedLogin>, calls: seq<Call>, a: Answers)
    requires !RediscoveryFailed(cfg, cached, calls)
    ensures
      (forall b :: PasswordsWentToDiscovered(AfterCalls(cfg, cached, calls + [Login(a)] + [Login(b)]).1)) <==>
      !(RediscoveryFails(cfg, AfterCalls(cfg, cached, calls).0, a)
        && TargetCallable(cfg, AfterCalls(cfg, cached, calls + [Login(a)]).0))
  {
    hide Authenticate, AfterCalls, RediscoveryFails, RediscoveryFailed,
         PasswordsWentToDiscovered, TargetTrusted, Exposed;
    var (c, log) := AfterCalls(cfg, cached, calls);
    PasswordOnlyToDiscoveredTarget(cfg, cached, calls);
    ExposedAfterFailure(cfg, c, log, a);
    OneMoreLogin(cfg, cached, calls, a);
    var (next, longer) := AfterCalls(cfg, cached, calls + [Login(a)]);
    NextPasswordIsSafeExactly(cfg, next, longer);
    forall b: Answers
      ensures AfterCalls(cfg, cached, calls + [Login(a)] + [Login(b)]).1 == longer + Authenticate(cfg, next, b).events
    {
      OneMoreLogin(cfg, cached, calls + [Login(a)], b);
    }
  }

  /** Without that condition the password can go to a host that was only ever read from the
   *  cache: the flag is cleared before the discovery that fails, so the next call skips it. */
  lemma {:induction false} CachedTargetCanGetPassword(cfg: ClientSettings, stale: CachedLogin, a: Answers)
    requires cfg.hasCache && MatchesOverrides(cfg.overrides, stale.target) && cfg.secure(stale.target.tokenUrl)
    requires !AccessValid(stale.tokens, a.now) && UsableRefreshToken(stale.tokens, a.now).None?
    requires a.cached == Some(stale) && a.password.Ok? && ResolveAuthTarget(cfg.overrides, a.reconfig).Failed?
    ensures [Discovered(Failed), PasswordSent(stale.target)] <= AfterCalls(cfg, Some(stale), [Login(a), Login(a)]).1
    ensures !PasswordsWentToDiscovered(AfterCalls(cfg, Some(stale), [Login(a), Login(a)]).1)
  {
    hide ResolveAuthTarget, MatchesOverrides;
    var start := WithTokenCache(cfg.overrides, NEW_CLIENT, Some(stale));
    var calls := [Login(a), Login(a)];
    assert calls[..1] == [Login(a)] && [Login(a)][..0] == [];
    var first := Authenticate(cfg, start, a);
    var second := Authenticate(cfg, first.client, a);
    assert first.events == [Discovered(Failed)] && [PasswordSent(stale.target)] <= second.events;
    assert [] + first.events == first.events;
    assert AfterCalls(cfg, Some(stale), [Login(a)]) == (first.client, first.events);
    var log := AfterCalls(cfg, Some(stale), calls).1;
    assert log == first.events + second.events;
    assert log[1].PasswordSent? && log[..1] == [Discovered(Failed)];
  }

  // ------------------------------------------------- one retry after a 401

  /** A request, and once more after a fresh login when the server answers 401. `status` is
   *  whether the first answer was a 401; a failed request never reaches that point. */
  function SendAuthed(cfg: ClientSettings, c: Client, first: Answers, status: Outcome<bool>,
                      second: Answers, reply: Outcome<bool>): CallResult {
    var login := Authenticate(cfg, c, first);
    if !login.ok then login
    else
      var sent := login.events + [RequestSent(Bearer(login.client))];
      if status.Failed? || !status.value then CallResult(login.client, sent, status.Ok?)
      else
        var again := Authenticate(cfg, DropAccessToken(login.client), second);
        if !again.ok then CallResult(again.client, sent + again.events, false)
        else CallResult(again.client, sent + again.events + [RequestSent(Bearer(again.client))], reply.Ok?)
  }

  function Requests(events: seq<ClientEvent>): seq<Option<string>> {
    if events == [] then []
    else Requests(events[..|events| - 1])
         + if events[|events| - 1].RequestSent? then [events[|events| - 1].bearer] else []
  }

  lemma {:induction false} RequestsConcat(a: seq<ClientEvent>, b: seq<ClientEvent>)
    ensures Requests(a + b) == Requests(a) + Requests(b)
    decreases |b|
  {
    if b == [] {
      assert a + b == a;
    } else {
      assert (a + b)[..|a + b| - 1] == a + b[..|b| - 1];
      RequestsConcat(a, b[..|b| - 1]);
    }
  }

  /** Passing the gate with a login never means going on with an access token that was not valid. */
  lemma GateReplacesAccess(cfg: ClientSettings, c: Client, a: Answers)
    requires c.tokens.Some? && !AccessValid(c.tokens.value, a.now)
    ensures GateOf(cfg, c, a).Finished? && GateOf(cfg, c, a).ok ==> Bearer(GateOf(cfg, c, a).client) != Bearer(c)
  {
    hide MatchesOverrides, ResolveAuthTarget;
    AdoptNeverRevivesAccess(cfg.overrides, c, CacheRead(cfg, a), a.now);
  }

  lemma GrantsSendNoRequest(cfg: ClientSettings, gate: Gate, a: Answers)
    requires gate.NeedGrant?
    ensures forall e | e in TryGrants(cfg, gate, a).events :: !e.RequestSent?
  {
    hide ResolveAuthTarget;
  }

  /** A login sends no request, and afterwards an access token that was not valid before is
   *  held only if a grant brought that very string. */
  lemma LoginReplacesAccess(cfg: ClientSettings, c: Client, a: Answers)
    ensures Requests(Authenticate(cfg, c, a).events) == []
    ensures
      var step := Authenticate(cfg, c, a);
      c.tokens.Some? && !AccessValid(c.tokens.value, a.now) && step.ok && Bearer(step.client) == Bearer(c) ==>
        Granted(c.tokens.value.accessToken) in step.events
  {
    hide GateOf, DiscoversFirst, ResolveAuthTarget, Requests, TryGrants;
    var step := Authenticate(cfg, c, a);
    if GateOf(cfg, c, a).NeedGrant? {
      GrantsSendNoRequest(cfg, GateOf(cfg, c, a), a);
    }
    NoRequests(step.events);
    if c.tokens.Some? && !AccessValid(c.tokens.value, a.now) {
      GateReplacesAccess(cfg, c, a);
    }
  }

  lemma {:induction false} NoRequests(events: seq<ClientEvent>)
    requires forall e | e in events :: !e.RequestSent?
    ensures Requests(events) == []
    decreases |events|
  {
    if events != [] {
      NoRequests(events[..|events| - 1]);
    }
  }

  /** A call that succeeds and leaves no tokens: the client knew already that the node needs no login, or it
   *  asked and the node said so. */
  lemma NoTokensMeansNoLogin(cfg: ClientSettings, c: Client, a: Answers)
    ensures
      var step := Authenticate(cfg, c, a);
      step.ok && step.client.tokens.None? ==>
        || c.target == Some(None)
        || (c.target.None? && !BothGiven(cfg.overrides) && a.config.Ok? && !a.config.value.authRequired)
  {
    hide ResolveAuthTarget, MatchesOverrides;
    DiscoveryExactly(cfg.overrides, a.config);
  }

  /** What a client past the gate goes on to do: the refresh grant with the token it holds, if it can be used and
   *  the endpoint may be called; after a refresh that failed or was not tried, the password, if it is known or
   *  the command gives it, to an endpoint that may be called. */
  lemma GrantsExactly(cfg: ClientSettings, gate: Gate, a: Answers)
    requires gate.NeedGrant?
    ensures
      var attempt, offered := TryGrants(cfg, gate, a), Offers(cfg, gate, a.now);
      var refreshed := offered.Some? && a.refresh.Ok?;
      var (client, to) := PasswordTarget(gate.client, gate.target, ResolveAuthTarget(cfg.overrides, a.reconfig));
      var asks := !refreshed && to.Some? && (client.password.Some? || a.password.Ok?) && cfg.secure(to.value.tokenUrl);
      && (attempt.granted.Some? <==> refreshed || (asks && a.grant.Ok?))
      && (offered.Some? <==> exists e :: e in attempt.events && e.RefreshSent?)
      && (offered.Some? ==> attempt.events[0] == RefreshSent(gate.target, offered.value))
      && (forall e | e in attempt.events && e.PasswordSent? :: asks && e == PasswordSent(to.value))
      && (asks ==> PasswordSent(to.value) in attempt.events)
      && (refreshed ==>
            attempt.granted == Some((gate.target, FromResponse(a.refresh.value, a.refreshedAt, gate.previous))))
      && (asks && a.grant.Ok? ==>
            attempt.granted == Some((to.value, FromResponse(a.grant.value, a.grantedAt, None))))
  {
    hide ResolveAuthTarget;
    var attempt, offered := TryGrants(cfg, gate, a), Offers(cfg, gate, a.now);
    if offered.Some? {
      assert attempt.events[0] in attempt.events;
    }
  }

  /** A login that needed a grant succeeds exactly when it got one; then the client holds what was granted, and so
   *  does the cache, if there is one. */
  lemma GrantedIsHeldAndSaved(cfg: ClientSettings, c: Client, a: Answers)
    requires !HoldsValidAccess(c, a.now) && GateOf(cfg, c, a).NeedGrant?
    ensures
      var step, granted := Authenticate(cfg, c, a), TryGrants(cfg, GateOf(cfg, c, a), a).granted;
      && (step.ok <==> granted.Some?)
      && (step.ok ==>
            step.client.tokens == Some(granted.value.1) && Granted(granted.value.1.accessToken) in step.events)
      && (step.ok && cfg.hasCache ==> Saved(granted.value.0, granted.value.1) in step.events)
      && (!step.ok ==> step.client.tokens.None? && forall e | e in step.events :: !e.Saved? && !e.Granted?)
  {
    hide ResolveAuthTarget, MatchesOverrides, PassGate;
    var gate := GateOf(cfg, c, a);
    GateTakesTokens(cfg, c, a);
    assert forall e | e in TryGrants(cfg, gate, a).events :: !e.Saved? && !e.Granted?;
  }

  lemma GateTakesTokens(cfg: ClientSettings, c: Client, a: Answers)
    ensures GateOf(cfg, c, a).NeedGrant? ==> GateOf(cfg, c, a).client.tokens.None?
  {
    hide ResolveAuthTarget, MatchesOverrides;
  }

  /** The requests that are sent, exactly, and what is left: none when the first login fails; one, with the bearer
   *  held after it, when its answer failed or was no 401, or the second login failed; and otherwise two, the
   *  second with the bearer of the client that is left. The call succeeds exactly when its last login did and
   *  its last request was answered. */
  lemma SendsExactly(cfg: ClientSettings, c: Client, first: Answers, status: Outcome<bool>, second: Answers,
                     reply: Outcome<bool>)
    ensures
      var call, login := SendAuthed(cfg, c, first, status, second, reply), Authenticate(cfg, c, first);
      var sent := Requests(call.events);
      if !login.ok then
        sent == [] && !call.ok && call.client == login.client
      else if status != Ok(true) then
        sent == [Bearer(login.client)] && call.ok == status.Ok? && call.client == login.client
      else
        var again := Authenticate(cfg, Rejected(login.client), second);
        && call.client == again.client && call.ok == (again.ok && reply.Ok?)
        && sent == if again.ok then [Bearer(login.client), Bearer(again.client)] else [Bearer(login.client)]
  {
    hide Authenticate;
    var login := Authenticate(cfg, c, first);
    var dropped := DropAccessToken(login.client);
    assert dropped == Rejected(login.client);
    var again := Authenticate(cfg, dropped, second);
    LoginReplacesAccess(cfg, c, first);
    LoginReplacesAccess(cfg, dropped, second);
    var head, tail := [RequestSent(Bearer(login.client))], [RequestSent(Bearer(again.client))];
    OneRequest(Bearer(login.client));
    OneRequest(Bearer(again.client));
    RequestsConcat(login.events, head);
    RequestsConcat(login.events + head, again.events);
    RequestsConcat(login.events + head + again.events, tail);
  }

  /** A client whose access token was rejected: it holds the same tokens, the access token as one that ran out
   *  at the epoch. */
  function Rejected(c: Client): Client {
    match c.tokens
    case None => c
    case Some(TokenSet(access, _, refresh, expiry)) =>
      Client(c.target, Some(TokenSet(access, Some(0), refresh, expiry)), c.targetFromCache, c.password)
  }

  lemma OneRequest(bearer: Option<string>)
    ensures Requests([RequestSent(bearer)]) == [bearer]
  {
    assert [RequestSent(bearer)][..0] == [];
  }

  /** In particular a 401 is followed by a second request whenever the second login succeeds, and that one always
   *  does when the refresh grant would. */
  lemma RetriesAfter401(cfg: ClientSettings, c: Client, first: Answers, second: Answers, reply: Outcome<bool>)
    requires Authenticate(cfg, c, first).ok
    requires
      var dropped := Rejected(Authenticate(cfg, c, first).client);
      && dropped.tokens.Some? && dropped.target.Some? && dropped.target.value.Some?
      && UsableRefreshToken(dropped.tokens.value, second.now).Some? && CacheRead(cfg, second).None?
      && cfg.secure(dropped.target.value.value.tokenUrl) && second.refresh.Ok?
    ensures
      var call := SendAuthed(cfg, c, first, Ok(true), second, reply);
      && |Requests(call.events)| == 2 && Requests(call.events)[1] == Some(second.refresh.value.accessToken)
      && call.ok == reply.Ok?
  {
    SendsExactly(cfg, c, first, Ok(true), second, reply);
    hide Requests, SendAuthed;
    var dropped := Rejected(Authenticate(cfg, c, first).client);
    RefreshLogsIn(cfg, dropped, second);
  }

  lemma RefreshLogsIn(cfg: ClientSettings, c: Client, a: Answers)
    requires c.tokens.Some? && !AccessValid(c.tokens.value, a.now) && c.target.Some? && c.target.value.Some?
    requires UsableRefreshToken(c.tokens.value, a.now).Some? && CacheRead(cfg, a).None?
    requires cfg.secure(c.target.value.value.tokenUrl) && a.refresh.Ok?
    ensures Authenticate(cfg, c, a).ok && Bearer(Authenticate(cfg, c, a).client) == Some(a.refresh.value.accessToken)
  {
    hide ResolveAuthTarget, MatchesOverrides;
  }

  /** After a 401 at most one more request is sent, and it does not carry the rejected access
   *  token unless a grant in between answered with that very string, whatever the cache file
   *  holds by then. */
  lemma RetryDoesNotRepeatRejectedToken(cfg: ClientSettings, c: Client, first: Answers, status: Outcome<bool>,
                                        second: Answers, reply: Outcome<bool>)
    ensures
      var sent := Requests(SendAuthed(cfg, c, first, status, second, reply).events);
      && |sent| <= 2
      && (|sent| == 2 ==> status == Ok(true))
      && (|sent| == 2 && sent[0].Some? && sent[1] == sent[0] ==>
            Granted(sent[0].value) in
              Authenticate(cfg, DropAccessToken(Authenticate(cfg, c, first).client), second).events)
  {
    hide Authenticate;
    var login := Authenticate(cfg, c, first);
    LoginReplacesAccess(cfg, c, first);
    var head := [RequestSent(Bearer(login.client))];
    RequestsConcat(login.events, head);
    var again := Authenticate(cfg, DropAccessToken(login.client), second);
    LoginReplacesAccess(cfg, DropAccessToken(login.client), second);
    RequestsConcat(login.events + head, again.events);
    RequestsConcat(login.events + head + again.events, [RequestSent(Bearer(again.client))]);
  }

  // ------------------------------------------------- the client itself

  class DecmanClient {
    const cfg: ClientSettings
    var target: Option<Option<AuthTarget>>
    var tokens: Option<TokenSet>
    var password: Option<string>
    var targetFromCache: bool
    var log: seq<ClientEvent>

    function State(): Client
      reads this
    {
      Client(target, tokens, targetFromCache, password)
    }

    constructor (cfg: ClientSettings)
      ensures this.cfg == cfg && State() == NEW_CLIENT && log == []
    {
      this.cfg := cfg;
      target, tokens, password, targetFromCache, log := None, None, None, false, [];
    }

    method UseTokenCache(cached: Option<CachedLogin>)
      modifies this
      ensures State() == WithTokenCache(cfg.overrides, old(State()), cached) && log == old(log)
    {
      if cached.Some? && MatchesOverrides(cfg.overrides, cached.value.target) {
        target := Some(Some(cached.value.target));
        targetFromCache := true;
        tokens := Some(cached.value.tokens);
      }
    }

    method Adopt(cached: Option<CachedLogin>, now: nat)
      modifies this
      ensures State() == AdoptNewerCachedLogin(cfg.overrides, old(State()), cached, now) && log == old(log)
    {
      if cached.None? || !MatchesOverrides(cfg.overrides, cached.value.target) {
        return;
      }
      var login := cached.value;
      var sameAccess := tokens.Some? && tokens.value.accessToken == login.tokens.accessToken;
      var newerAccess := !sameAccess && AccessValid(login.tokens, now);
      var newerRefresh := UsableRefreshToken(login.tokens, now).Some?
                          && (tokens.None? || tokens.value.refreshToken != login.tokens.refreshToken);
      if !newerAccess && !newerRefresh {
        return;
      }
      target := Some(Some(login.target));
      targetFromCache := true;
      tokens := Some(if sameAccess then ExpireAccess(login.tokens) else login.tokens);
    }

    method LoginWithPassword(destination: AuthTarget, a: Answers) returns (granted: Option<(AuthTarget, TokenSet)>)
      modifies this
      ensures
        var attempt := PasswordLogin(cfg, old(State()), destination, a);
        State() == attempt.client && log == old(log) + attempt.events && granted == attempt.granted
    {
      var to := destination;
      if targetFromCache {
        targetFromCache := false;
        var resolved := ResolveAuthTarget(cfg.overrides, a.reconfig);
        log := log + [Discovered(resolved)];
        if resolved.Failed? {
          return None;
        }
        target := Some(resolved.value);
        if resolved.value.None? {
          return None;
        }
        to := resolved.value.value;
      }
      if password.None? {
        if a.password.Failed? {
          return None;
        }
        password := Some(a.password.value);
      }
      if !cfg.secure(to.tokenUrl) {
        return None;
      }
      log := log + [PasswordSent(to)];
      if a.grant.Failed? {
        return None;
      }
      return Some((to, FromResponse(a.grant.value, a.grantedAt, None)));
    }

    /** The part of a login under the lock that comes before any grant. */
    method ReachGate(a: Answers) returns (gate: Gate)
      modifies this
      ensures gate == GateOf(cfg, old(State()), a)
      ensures State() == gate.client && log == old(log) + AskedFirst(cfg, old(State()), a)
    {
      hide ResolveAuthTarget, AdoptNewerCachedLogin;
      Adopt(CacheRead(cfg, a), a.now);
      if tokens.Some? && AccessValid(tokens.value, a.now) {
        return Finished(State(), true);
      }
      if target.None? {
        var resolved := ResolveAuthTarget(cfg.overrides, a.config);
        log := log + [Discovered(resolved)];
        if resolved.Failed? {
          return Finished(State(), false);
        }
        target := Some(resolved.value);
      }
      if target.value.None? {
        tokens := None;
        return Finished(State(), true);
      }
      var previous := tokens;
      tokens := None;
      return NeedGrant(State(), target.value.value, previous);
    }

    method Grant(gate: Gate, a: Answers) returns (granted: Option<(AuthTarget, TokenSet)>)
      requires gate.NeedGrant? && gate.client == State()
      modifies this
      ensures
        var attempt := TryGrants(cfg, gate, a);
        State() == attempt.client && log == old(log) + attempt.events && granted == attempt.granted
    {
      hide PasswordLogin;
      if gate.previous.Some? && UsableRefreshToken(gate.previous.value, a.now).Some?
         && cfg.secure(gate.target.tokenUrl) {
        log := log + [RefreshSent(gate.target, UsableRefreshToken(gate.previous.value, a.now).value)];
        if a.refresh.Ok? {
          return Some((gate.target, FromResponse(a.refresh.value, a.refreshedAt, gate.previous)));
        }
      }
      granted := LoginWithPassword(gate.target, a);
    }

    /** A still-valid access token, then the refresh grant, then a password login. */
    method EnsureAccess(a: Answers) returns (ok: bool)
      modifies this
      ensures
        var step := Authenticate(cfg, old(State()), a);
        State() == step.client && log == old(log) + step.events && ok == step.ok
    {
      hide GateOf, AskedFirst, TryGrants;
      if tokens.Some? && AccessValid(tokens.value, a.now) {
        return true;
      }
      var gate := ReachGate(a);
      if gate.Finished? {
        return gate.ok;
      }
      var granted := Grant(gate, a);
      if granted.None? {
        return false;
      }
      log := log + [Granted(granted.value.1.accessToken)];
      if cfg.hasCache {
        log := log + [Saved(granted.value.0, granted.value.1)];
      }
      tokens := Some(granted.value.1);
      return true;
    }

    method Send(first: Answers, status: Outcome<bool>, second: Answers, reply: Outcome<bool>) returns (ok: bool)
      modifies this
      ensures
        var step := SendAuthed(cfg, old(State()), first, status, second, reply);
        State() == step.client && log == old(log) + step.events && ok == step.ok
    {
      hide Authenticate;
      ok := EnsureAccess(first);
      if !ok {
        return;
      }
      log := log + [RequestSent(if tokens.Some? then Some(tokens.value.accessToken) else None)];
      if status.Failed? || !status.value {
        return status.Ok?;
      }
      if tokens.Some? {
        tokens := Some(ExpireAccess(tokens.value));
      }
      ok := EnsureAccess(second);
      if !ok {
        return;
      }
      log := log + [RequestSent(if tokens.Some? then Some(tokens.value.accessToken) else None)];
      return reply.Ok?;
    }
  }
}
