/** Several command invocations that share one cache file, one lock and one identity
 *  provider, interleaved step by step.
 *
 *  A refresh token is consumed when the provider rotates it, that is, answers with a new
 *  refresh token (section 6 of RFC 6749). Presenting a consumed token again fails, and can
 *  cost the whole session. The main theorem, `NoConsumedTokenPresented`, says that this never
 *  happens in any interleaving as long as the environment keeps `Hypotheses`; `ReplayRuns` shows
 *  that none of their clauses can be dropped.
 */
module SharedLogin {
  import opened Prelude
  import opened Tokens
  import opened TokenCache
  import opened LoginRules

  type Pid = nat

  /** Where an invocation stands inside `authenticate`. `now` is read before the lock is asked for. */
  datatype Phase =
    | Idle
    | Waiting(now: int)
    | Entered(now: int)
    | Granting(now: int, target: AuthTarget, previous: Option<TokenSet>)
    | NeedPassword(target: AuthTarget)
    | Unsaved(target: AuthTarget, tokens: TokenSet)

  datatype Process = Process(client: Client, phase: Phase)

  /** `issued`, `consumed`, `top` and `floor` are bookkeeping that no invocation reads: the
   *  refresh tokens the provider has issued and rotated, the latest refresh expiry it has
   *  given out, and the first expiry given for the cached refresh token. */
  datatype System = System(
    procs: map<Pid, Process>,
    cache: Option<CachedLogin>,
    lock: Option<Pid>,
    clock: int,
    issued: set<string>,
    consumed: set<string>,
    top: Option<int>,
    floor: Option<int>)

  datatype RefreshAnswer =
    | Rotated(response: TokenResponse, at: int)  // a new refresh token
    | Renewed(response: TokenResponse, at: int)  // the same refresh token again
    | Kept(response: TokenResponse, at: int)     // no refresh token in the answer
    | Rejected                                   // refused, or the request was lost
    | Lost(token: string, expiry: Option<int>)   // rotated, and the answer was lost
    | NotSent                                    // an insecure token URL

  datatype PasswordAnswer = Granted(response: TokenResponse, at: int) | Denied

  datatype Step =
    | Start(p: Pid, read: bool)
    | Begin(p: Pid)
    | Lock(p: Pid, granted: bool)
    | Gate(p: Pid, config: Outcome<AuthConfig>, read: bool)
    | Refresh(p: Pid, answer: RefreshAnswer)
    | Password(p: Pid, config: Outcome<AuthConfig>, password: Outcome<string>, reply: PasswordAnswer)
    | Save(p: Pid, written: bool)
    | Unauthorized(p: Pid)
    | Logout(p: Pid)
    | Stop(p: Pid)
    | Tick(seconds: int)  // the clock may also be set back

  /** The key and overrides that all the invocations were started with. */
  datatype Settings = Settings(key: LoginKey, overrides: Overrides)

  // ---------------------------------------------------------------- steps

  function Offered(phase: Phase): Option<string>
    requires phase.Granting?
  {
    if phase.previous.Some? then UsableRefreshToken(phase.previous.value, phase.now) else None
  }

  /** The refresh token a step sends to the provider, if it sends one. */
  function Presented(s: System, step: Step): Option<string> {
    if step.Refresh? && step.p in s.procs && s.procs[step.p].phase.Granting? && !step.answer.NotSent?
    then Offered(s.procs[step.p].phase)
    else None
  }

  predicate AnswerPossible(s: System, offered: Option<string>, answer: RefreshAnswer) {
    match answer
    case Rotated(response, _) =>
      offered.Some? && offered.value !in s.consumed
      && response.refreshToken.Some? && response.refreshToken.value !in s.issued
    case Renewed(response, _) =>
      offered.Some? && offered.value !in s.consumed && response.refreshToken == offered
    case Kept(response, _) =>
      offered.Some? && offered.value !in s.consumed && response.refreshToken.None?
    case Lost(token, _) =>
      offered.Some? && offered.value !in s.consumed && token !in s.issued
    case Rejected => true
    case NotSent => true
  }

  predicate Enabled(s: System, step: Step) {
    match step
    case Start(p, _) => p !in s.procs
    case Tick(_) => true
    case Begin(p) => p in s.procs && s.procs[p].phase.Idle?
    case Lock(p, granted) => p in s.procs && s.procs[p].phase.Waiting? && (granted ==> s.lock.None?)
    case Gate(p, _, _) => p in s.procs && s.procs[p].phase.Entered?
    case Refresh(p, answer) =>
      p in s.procs && s.procs[p].phase.Granting? && AnswerPossible(s, Offered(s.procs[p].phase), answer)
    case Password(p, _, _, reply) =>
      p in s.procs && s.procs[p].phase.NeedPassword?
      && (reply.Granted? && reply.response.refreshToken.Some? ==> reply.response.refreshToken.value !in s.issued)
    case Save(p, _) => p in s.procs && s.procs[p].phase.Unsaved?
    case Unauthorized(p) => p in s.procs && s.procs[p].phase.Idle?
    case Logout(p) => p in s.procs && s.procs[p].phase.Idle?
    case Stop(p) => p in s.procs
  }

  /** What a load gives: the saved record, or nothing when the file cannot be read, does not parse, or was
   *  overwritten by a login with the same file name. */
  function Loaded(s: System, read: bool): Option<CachedLogin> {
    if read then s.cache else None
  }

  function Move(s: System, p: Pid, client: Client, phase: Phase): System {
    s.(procs := s.procs[p := Process(client, phase)])
  }

  /** Return from `authenticate`, which drops the lock if this invocation holds it. */
  function Leave(s: System, p: Pid, client: Client): System {
    Move(s, p, client, Idle).(lock := if s.lock == Some(p) then None else s.lock)
  }

  function AfterRefresh(s: System, p: Pid, answer: RefreshAnswer): System
    requires Enabled(s, Refresh(p, answer))
  {
    var client, phase := s.procs[p].client, s.procs[p].phase;
    match answer
    case Rotated(response, at) =>
      var tokens := FromResponse(response, at, phase.previous);
      Move(s, p, client, Unsaved(phase.target, tokens)).(
        issued := s.issued + {response.refreshToken.value},
        consumed := s.consumed + {Offered(phase).value},
        top := tokens.refreshExpiresAt)
    case Renewed(response, at) =>
      var tokens := FromResponse(response, at, phase.previous);
      Move(s, p, client, Unsaved(phase.target, tokens)).(top := tokens.refreshExpiresAt)
    case Kept(response, at) =>
      Move(s, p, client, Unsaved(phase.target, FromResponse(response, at, phase.previous)))
    case Lost(token, expiry) =>
      Move(s, p, client, NeedPassword(phase.target)).(
        issued := s.issued + {token},
        consumed := s.consumed + {Offered(phase).value},
        top := expiry)
    case Rejected => Move(s, p, client, NeedPassword(phase.target))
    case NotSent => Move(s, p, client, NeedPassword(phase.target))
  }

  function AfterPassword(cfg: Settings, s: System, step: Step): System
    requires step.Password? && Enabled(s, step)
  {
    var proc := s.procs[step.p];
    var resolved := ResolveAuthTarget(cfg.overrides, step.config);
    var (client, target) := PasswordTarget(proc.client, proc.phase.target, resolved);
    if target.None? || (client.password.None? && step.password.Failed?) then
      Leave(s, step.p, client)
    else
      var keeping := if client.password.Some? then client else client.(password := Some(step.password.value));
      if step.reply.Denied? then Leave(s, step.p, keeping)
      else
        var tokens := FromResponse(step.reply.response, step.reply.at, None);
        Move(s, step.p, keeping, Unsaved(target.value, tokens)).(
          issued := s.issued + (if tokens.refreshToken.Some? then {tokens.refreshToken.value} else {}),
          top := if tokens.refreshToken.Some? then tokens.refreshExpiresAt else s.top)
  }

  function AfterSave(cfg: Settings, s: System, p: Pid, written: bool): System
    requires Enabled(s, Step.Save(p, written))
  {
    var proc := s.procs[p];
    var tokens := proc.phase.tokens;
    var left := Leave(s, p, proc.client.(tokens := Some(tokens)));
    if !written then left
    else
      left.(
        cache := Some(CachedLogin(cfg.key, proc.phase.target, tokens)),
        floor := if CacheLive(cfg, s) && s.cache.value.tokens.refreshToken == tokens.refreshToken
                 then s.floor else tokens.refreshExpiresAt)
  }

  function Next(cfg: Settings, s: System, step: Step): System
    requires Enabled(s, step)
  {
    match step
    case Start(p, read) => Move(s, p, WithTokenCache(cfg.overrides, NEW_CLIENT, Loaded(s, read)), Idle)
    case Tick(seconds) => s.(clock := s.clock + seconds)
    case Begin(p) =>
      if HoldsValidAccess(s.procs[p].client, s.clock) then s
      else Move(s, p, s.procs[p].client, Waiting(s.clock))
    case Lock(p, granted) =>
      var entered := Move(s, p, s.procs[p].client, Entered(s.procs[p].phase.now));
      if granted then entered.(lock := Some(p)) else entered
    case Gate(p, config, read) =>
      var now, resolved := s.procs[p].phase.now, ResolveAuthTarget(cfg.overrides, config);
      (match PassGate(cfg.overrides, s.procs[p].client, Loaded(s, read), now, resolved)
       case Finished(client, _) => Leave(s, p, client)
       case NeedGrant(client, target, previous) => Move(s, p, client, Granting(now, target, previous)))
    case Refresh(p, answer) => AfterRefresh(s, p, answer)
    case Password(_, _, _, _) => AfterPassword(cfg, s, step)
    case Save(p, written) => AfterSave(cfg, s, p, written)
    case Unauthorized(p) =>
      var client := s.procs[p].client;
      if client.tokens.None? then s
      else Move(s, p, client.(tokens := Some(ExpireAccess(client.tokens.value))), Idle)
    case Logout(p) => Move(s, p, s.procs[p].client.(tokens := None), Idle).(cache := None)
    case Stop(p) => s.(procs := s.procs - {p}, lock := if s.lock == Some(p) then None else s.lock)
  }

  // ---------------------------------------------------------------- hypotheses

  /** The cache holds a login that these invocations would load, with a refresh token. */
  predicate CacheLive(cfg: Settings, s: System) {
    s.cache.Some? && MatchesOverrides(cfg.overrides, s.cache.value.target) && s.cache.value.tokens.refreshToken.Some?
  }

  function CachedRefresh(s: System): Option<string> {
    HeldRefresh(if s.cache.Some? then Some(s.cache.value.tokens) else None)
  }

  /** The cached refresh token has been rotated and its successor is not saved yet. */
  predicate CacheStale(s: System) {
    CachedRefresh(s).Some? && CachedRefresh(s).value in s.consumed
  }

  /** What the theorem asks of the environment: locks and saves succeed, an invocation that holds a refresh
   *  token reads the saved login under the lock, nobody logs out, refresh expiry is never shortened, a
   *  password grant brings a refresh token, and no attempt ends, by failure or crash, between a rotation
   *  and the save that follows it. */
  datatype Clause =
    | LockIsGranted
    | CacheIsRead
    | SaveIsWritten
    | NobodyLogsOut
    | RotatedOutlasts
    | RenewedOutlasts
    | LostOutlasts
    | GrantedOutlasts
    | GrantBringsRefresh
    | NoGivingUp
    | NoStopBeforePassword
    | NoStopBeforeSave

  function Unless(holds: bool, clause: Clause): Option<Clause> {
    if holds then None else Some(clause)
  }

  /** The clause that the environment breaks with a step, if any. */
  function Broken(cfg: Settings, s: System, step: Step): Option<Clause>
    requires Enabled(s, step)
  {
    match step
    case Lock(_, granted) => Unless(granted, LockIsGranted)
    case Gate(p, _, read) => Unless(read || HeldRefresh(s.procs[p].client.tokens).None?, CacheIsRead)
    case Save(_, written) => Unless(written, SaveIsWritten)
    case Logout(_) => Some(NobodyLogsOut)
    case Refresh(_, Rotated(response, at)) =>
      Unless(ExpiresNoLater(s.top, ExpiresAt(response.refreshExpiresIn, at)), RotatedOutlasts)
    case Refresh(_, Renewed(response, at)) =>
      Unless(ExpiresNoLater(s.top, ExpiresAt(response.refreshExpiresIn, at)), RenewedOutlasts)
    case Refresh(_, Lost(_, expiry)) => Unless(ExpiresNoLater(s.top, expiry), LostOutlasts)
    case Password(p, _, _, reply) =>
      if AfterPassword(cfg, s, step).procs[p].phase.Idle? then Unless(!CacheStale(s), NoGivingUp)
      else if reply.response.refreshToken.None? then Some(GrantBringsRefresh)
      else Unless(ExpiresNoLater(s.top, ExpiresAt(reply.response.refreshExpiresIn, reply.at)), GrantedOutlasts)
    case Stop(p) =>
      if s.procs[p].phase.NeedPassword? then Unless(!CacheStale(s), NoStopBeforePassword)
      else if s.procs[p].phase.Unsaved? then Unless(!CacheStale(s), NoStopBeforeSave)
      else None
    case _ => None
  }

  predicate Hypotheses(cfg: Settings, s: System, step: Step)
    requires Enabled(s, step)
  {
    Broken(cfg, s, step).None?
  }

  /** Before the first invocation starts. The cache may hold anything, such as nothing, the
   *  login of an earlier session, or one with a target that the overrides exclude. */
  predicate Init(cfg: Settings, s: System) {
    && s.procs == map[] && s.lock.None? && s.consumed == {}
    && (s.cache.Some? && s.cache.value.tokens.refreshToken.Some? ==>
          s.cache.value.tokens.refreshToken.value in s.issued
          && s.floor == s.cache.value.tokens.refreshExpiresAt
          && ExpiresNoLater(s.cache.value.tokens.refreshExpiresAt, s.top))
  }

  // ---------------------------------------------------------------- invariant

  predicate Critical(phase: Phase) {
    phase.Entered? || phase.Granting? || phase.NeedPassword? || phase.Unsaved?
  }

  /** The token set an invocation would log in from. */
  function Held(proc: Process): Option<TokenSet> {
    if proc.phase.Granting? then proc.phase.previous else proc.client.tokens
  }

  /** Every refresh token in some invocation's hands is the cached one, or runs out no later. */
  predicate HeldOk(cfg: Settings, s: System, held: Option<TokenSet>) {
    HeldRefresh(held).Some? ==>
      && CacheLive(cfg, s)
      && held.value.refreshToken.value in s.issued
      && ExpiresNoLater(held.value.refreshExpiresAt, s.top)
      && if held.value.refreshToken == CachedRefresh(s)
         then ExpiresNoLater(s.floor, held.value.refreshExpiresAt)
         else ExpiresNoLater(held.value.refreshExpiresAt, s.floor)
  }

  /** A token set about to be saved is current: either the cached refresh token, or one that
   *  nobody else has seen and that outlasts everything handed out before. */
  predicate UnsavedOk(cfg: Settings, s: System, tokens: TokenSet) {
    && tokens.refreshToken.Some?
    && tokens.refreshToken.value in s.issued
    && tokens.refreshToken.value !in s.consumed
    && ExpiresNoLater(tokens.refreshExpiresAt, s.top)
    && if CacheLive(cfg, s) && tokens.refreshToken == CachedRefresh(s)
       then ExpiresNoLater(s.floor, tokens.refreshExpiresAt)
       else
         && ExpiresNoLater(s.top, tokens.refreshExpiresAt)
         && forall q | q in s.procs :: HeldRefresh(Held(s.procs[q])) != tokens.refreshToken
  }

  predicate TargetOk(cfg: Settings, client: Client) {
    client.target.Some? && client.target.value.Some? ==> MatchesOverrides(cfg.overrides, client.target.value.value)
  }

  predicate PhaseOk(cfg: Settings, s: System, proc: Process) {
    match proc.phase
    case Granting(now, target, previous) =>
      && MatchesOverrides(cfg.overrides, target)
      && proc.client.tokens.None?
      && (Offered(proc.phase).Some? ==> Offered(proc.phase) == CachedRefresh(s))
    case NeedPassword(target) => MatchesOverrides(cfg.overrides, target) && proc.client.tokens.None?
    case Unsaved(target, tokens) =>
      MatchesOverrides(cfg.overrides, target) && proc.client.tokens.None? && UnsavedOk(cfg, s, tokens)
    case _ => true
  }

  predicate ProcessOk(cfg: Settings, s: System, proc: Process) {
    TargetOk(cfg, proc.client) && HeldOk(cfg, s, Held(proc)) && PhaseOk(cfg, s, proc)
  }

  predicate LockOk(s: System) {
    && (s.lock.Some? ==> s.lock.value in s.procs)
    && (forall p | p in s.procs :: Critical(s.procs[p].phase) <==> s.lock == Some(p))
  }

  predicate CacheOk(cfg: Settings, s: System) {
    CacheLive(cfg, s) ==>
      && s.cache.value.tokens.refreshToken.value in s.issued
      && ExpiresNoLater(s.floor, s.cache.value.tokens.refreshExpiresAt)
      && ExpiresNoLater(s.cache.value.tokens.refreshExpiresAt, s.top)
      && (CacheStale(s) ==>
            && s.lock.Some? && s.lock.value in s.procs
            && (s.procs[s.lock.value].phase.NeedPassword? || s.procs[s.lock.value].phase.Unsaved?))
  }

  predicate Inv(cfg: Settings, s: System) {
    && LockOk(s)
    && CacheOk(cfg, s)
    && s.consumed <= s.issued
    && (forall p | p in s.procs :: ProcessOk(cfg, s, s.procs[p]))
  }

  lemma InitKeepsInv(cfg: Settings, s: System)
    requires Init(cfg, s)
    ensures Inv(cfg, s)
  {
  }

  /** An invocation outside the critical part starts or moves on, and leaves everything but the clock as it
   *  is. What it then holds it held before, or took from the cache. */
  lemma OutsiderKeepsInv(cfg: Settings, s: System, after: System, p: Pid, client: Client, phase: Phase)
    requires Inv(cfg, s) && !Critical(phase) && (p in s.procs ==> !Critical(s.procs[p].phase))
    requires after == s.(procs := s.procs[p := Process(client, phase)], clock := after.clock)
    requires ProcessOk(cfg, s, Process(client, phase))
    requires
      var held := HeldRefresh(client.tokens);
      held.Some? ==> held == CachedRefresh(s) || (p in s.procs && held == HeldRefresh(s.procs[p].client.tokens))
    ensures Inv(cfg, after)
  {
    hide MatchesOverrides;
    forall q | q in after.procs
      ensures ProcessOk(cfg, after, after.procs[q])
    {
      if q != p {
        assert ProcessOk(cfg, s, s.procs[q]);
      }
    }
  }

  lemma ClockKeepsInv(cfg: Settings, s: System, after: System)
    requires Inv(cfg, s) && after == s.(clock := after.clock)
    ensures Inv(cfg, after)
  {
    hide MatchesOverrides;
    forall q | q in after.procs
      ensures ProcessOk(cfg, after, after.procs[q])
    {
      assert ProcessOk(cfg, s, s.procs[q]);
    }
  }

  lemma StartKeepsInv(cfg: Settings, s: System, step: Step)
    requires Inv(cfg, s) && Enabled(s, step) && Hypotheses(cfg, s, step) && step.Start?
    ensures Inv(cfg, Next(cfg, s, step))
  {
    hide AfterRefresh, AfterPassword, AfterSave, PassGate, MatchesOverrides;
    var after := Next(cfg, s, step);
    OutsiderKeepsInv(cfg, s, after, step.p, after.procs[step.p].client, Idle);
  }

  lemma BeginKeepsInv(cfg: Settings, s: System, step: Step)
    requires Inv(cfg, s) && Enabled(s, step) && Hypotheses(cfg, s, step) && (step.Begin? || step.Tick?)
    ensures Inv(cfg, Next(cfg, s, step))
  {
    hide AfterRefresh, AfterPassword, AfterSave, PassGate, MatchesOverrides, UnsavedOk;
    if step.Begin? {
      var after := Next(cfg, s, step);
      assert ProcessOk(cfg, s, s.procs[step.p]);
      if after != s {
        OutsiderKeepsInv(cfg, s, after, step.p, s.procs[step.p].client, Waiting(s.clock));
      }
    } else {
      ClockKeepsInv(cfg, s, Next(cfg, s, step));
    }
  }

  lemma LockKeepsInv(cfg: Settings, s: System, step: Step)
    requires Inv(cfg, s) && Enabled(s, step) && Hypotheses(cfg, s, step) && step.Lock?
    ensures Inv(cfg, Next(cfg, s, step))
  {
    hide AfterRefresh, AfterPassword, AfterSave, PassGate;
  }

  lemma UnauthorizedKeepsInv(cfg: Settings, s: System, step: Step)
    requires Inv(cfg, s) && Enabled(s, step) && Hypotheses(cfg, s, step) && step.Unauthorized?
    ensures Inv(cfg, Next(cfg, s, step))
  {
    hide AfterRefresh, AfterPassword, AfterSave, PassGate, MatchesOverrides, UnsavedOk;
    var after := Next(cfg, s, step);
    assert ProcessOk(cfg, s, s.procs[step.p]);
    if after != s {
      OutsiderKeepsInv(cfg, s, after, step.p, after.procs[step.p].client, Idle);
    }
  }

  lemma StopKeepsInv(cfg: Settings, s: System, step: Step)
    requires Inv(cfg, s) && Enabled(s, step) && Hypotheses(cfg, s, step) && step.Stop?
    ensures Inv(cfg, Next(cfg, s, step))
  {
    hide AfterRefresh, AfterPassword, AfterSave, PassGate;
  }

  /** What the lock holder does leaves the others in order while the cache stays as it is. */
  lemma OthersKeepInv(cfg: Settings, s: System, after: System, p: Pid)
    requires Inv(cfg, s) && s.lock == Some(p)
    requires after.cache == s.cache && after.floor == s.floor && s.issued <= after.issued
             && ExpiresNoLater(s.top, after.top)
    ensures forall q | q in s.procs && q != p :: ProcessOk(cfg, after, s.procs[q])
  {
    forall q | q in s.procs && q != p
      ensures ProcessOk(cfg, after, s.procs[q])
    {
      assert ProcessOk(cfg, s, s.procs[q]);
    }
  }

  /** The lock holder moves on, or lets go of the lock, and leaves the cache as it is. */
  lemma HolderKeepsInv(cfg: Settings, s: System, after: System, p: Pid, client: Client, phase: Phase)
    requires Inv(cfg, s) && p in s.procs && s.lock == Some(p)
    requires after.procs == s.procs[p := Process(client, phase)]
    requires after.lock == (if Critical(phase) then Some(p) else None)
    requires after.cache == s.cache && after.floor == s.floor && s.issued <= after.issued
    requires ExpiresNoLater(s.top, after.top) && after.consumed <= after.issued
    requires CacheLive(cfg, after) && CacheStale(after) ==> phase.NeedPassword? || phase.Unsaved?
    requires ProcessOk(cfg, after, Process(client, phase))
    ensures Inv(cfg, after)
  {
    OthersKeepInv(cfg, s, after, p);
    hide ProcessOk;
  }

  /** What passing the gate leaves in the hands of the client. */
  lemma GateOutcome(cfg: Settings, s: System, client: Client, read: bool, now: int,
                    resolved: Outcome<Option<AuthTarget>>)
    requires read || HeldRefresh(client.tokens).None?
    requires CacheOk(cfg, s) && TargetOk(cfg, client) && HeldOk(cfg, s, client.tokens)
    requires resolved.Ok? && resolved.value.Some? ==> MatchesOverrides(cfg.overrides, resolved.value.value)
    ensures
      match PassGate(cfg.overrides, client, Loaded(s, read), now, resolved)
      case Finished(c, _) => TargetOk(cfg, c) && HeldOk(cfg, s, c.tokens)
      case NeedGrant(c, target, previous) =>
        && TargetOk(cfg, c) && HeldOk(cfg, s, previous)
        && PhaseOk(cfg, s, Process(c, Granting(now, target, previous)))
  {
    hide MatchesOverrides;
    if read && CacheLive(cfg, s) {
      AdoptLeavesOnlyCachedRefresh(cfg.overrides, client, s.cache.value, now);
    }
  }

  lemma GateKeepsInv(cfg: Settings, s: System, step: Step)
    requires Inv(cfg, s) && Enabled(s, step) && Hypotheses(cfg, s, step) && step.Gate?
    ensures Inv(cfg, Next(cfg, s, step))
  {
    hide AfterRefresh, AfterPassword, AfterSave, PassGate, MatchesOverrides, UnsavedOk;
    var after, p := Next(cfg, s, step), step.p;
    assert ProcessOk(cfg, s, s.procs[p]);
    var resolved := ResolveAuthTarget(cfg.overrides, step.config);
    GateOutcome(cfg, s, s.procs[p].client, step.read, s.procs[p].phase.now, resolved);
    HolderKeepsInv(cfg, s, after, p, after.procs[p].client, after.procs[p].phase);
  }

  /** The token set of a granted refresh is current. */
  lemma GrantedRefreshIsCurrent(cfg: Settings, s: System, step: Step)
    requires Inv(cfg, s) && Enabled(s, step) && Hypotheses(cfg, s, step)
    requires step.Refresh? && (step.answer.Rotated? || step.answer.Renewed? || step.answer.Kept?)
    ensures
      var after := AfterRefresh(s, step.p, step.answer);
      after.procs[step.p].phase.Unsaved? && UnsavedOk(cfg, after, after.procs[step.p].phase.tokens)
  {
    hide AfterPassword, MatchesOverrides, LockOk;
    var after := AfterRefresh(s, step.p, step.answer);
    assert ProcessOk(cfg, s, s.procs[step.p]);
    assert forall q | q in s.procs && q != step.p :: after.procs[q] == s.procs[q] && ProcessOk(cfg, s, s.procs[q]);
  }

  lemma GrantedRefreshKeepsInv(cfg: Settings, s: System, step: Step)
    requires Inv(cfg, s) && Enabled(s, step) && Hypotheses(cfg, s, step)
    requires step.Refresh? && (step.answer.Rotated? || step.answer.Renewed? || step.answer.Kept?)
    ensures Inv(cfg, AfterRefresh(s, step.p, step.answer))
  {
    var after, p := AfterRefresh(s, step.p, step.answer), step.p;
    GrantedRefreshIsCurrent(cfg, s, step);
    hide AfterPassword, MatchesOverrides, UnsavedOk;
    assert ProcessOk(cfg, s, s.procs[p]);
    HolderKeepsInv(cfg, s, after, p, after.procs[p].client, after.procs[p].phase);
  }

  lemma FailedRefreshKeepsInv(cfg: Settings, s: System, step: Step)
    requires Inv(cfg, s) && Enabled(s, step) && Hypotheses(cfg, s, step)
    requires step.Refresh? && (step.answer.Rejected? || step.answer.NotSent? || step.answer.Lost?)
    ensures Inv(cfg, AfterRefresh(s, step.p, step.answer))
  {
    hide AfterPassword, MatchesOverrides, UnsavedOk;
    var after, p := AfterRefresh(s, step.p, step.answer), step.p;
    assert ProcessOk(cfg, s, s.procs[p]);
    HolderKeepsInv(cfg, s, after, p, after.procs[p].client, after.procs[p].phase);
  }

  /** The token set of a password grant is current. */
  lemma GrantedPasswordIsCurrent(cfg: Settings, s: System, step: Step)
    requires Inv(cfg, s) && Enabled(s, step) && Hypotheses(cfg, s, step) && step.Password?
    requires AfterPassword(cfg, s, step).procs[step.p].phase.Unsaved?
    ensures
      var after := AfterPassword(cfg, s, step);
      UnsavedOk(cfg, after, after.procs[step.p].phase.tokens)
  {
    hide MatchesOverrides, ResolveAuthTarget, LockOk;
    var after := AfterPassword(cfg, s, step);
    assert ProcessOk(cfg, s, s.procs[step.p]);
    assert forall q | q in s.procs && q != step.p :: after.procs[q] == s.procs[q] && ProcessOk(cfg, s, s.procs[q]);
  }

  lemma GrantedPasswordKeepsInv(cfg: Settings, s: System, step: Step)
    requires Inv(cfg, s) && Enabled(s, step) && Hypotheses(cfg, s, step) && step.Password?
    requires AfterPassword(cfg, s, step).procs[step.p].phase.Unsaved?
    ensures Inv(cfg, AfterPassword(cfg, s, step))
  {
    var after, p := AfterPassword(cfg, s, step), step.p;
    GrantedPasswordIsCurrent(cfg, s, step);
    hide MatchesOverrides, ResolveAuthTarget, UnsavedOk;
    assert ProcessOk(cfg, s, s.procs[p]);
    HolderKeepsInv(cfg, s, after, p, after.procs[p].client, after.procs[p].phase);
  }

  lemma FailedPasswordKeepsInv(cfg: Settings, s: System, step: Step)
    requires Inv(cfg, s) && Enabled(s, step) && Hypotheses(cfg, s, step) && step.Password?
    requires AfterPassword(cfg, s, step).procs[step.p].phase.Idle?
    ensures Inv(cfg, AfterPassword(cfg, s, step))
  {
    hide MatchesOverrides, ResolveAuthTarget, UnsavedOk;
    var after, p := AfterPassword(cfg, s, step), step.p;
    assert ProcessOk(cfg, s, s.procs[p]);
    HolderKeepsInv(cfg, s, after, p, after.procs[p].client, after.procs[p].phase);
  }

  lemma PasswordKeepsInv(cfg: Settings, s: System, step: Step)
    requires Inv(cfg, s) && Enabled(s, step) && Hypotheses(cfg, s, step) && step.Password?
    ensures Inv(cfg, AfterPassword(cfg, s, step))
  {
    hide Inv, Hypotheses, ResolveAuthTarget;
    if AfterPassword(cfg, s, step).procs[step.p].phase.Idle? {
      FailedPasswordKeepsInv(cfg, s, step);
    } else {
      GrantedPasswordKeepsInv(cfg, s, step);
    }
  }

  lemma SaveKeepsInv(cfg: Settings, s: System, step: Step)
    requires Inv(cfg, s) && Enabled(s, step) && Hypotheses(cfg, s, step) && step.Save?
    ensures Inv(cfg, AfterSave(cfg, s, step.p, step.written))
  {
    hide MatchesOverrides;
  }

  lemma StepKeepsInv(cfg: Settings, s: System, step: Step)
    requires Inv(cfg, s) && Enabled(s, step) && Hypotheses(cfg, s, step)
    ensures Inv(cfg, Next(cfg, s, step))
  {
    hide Inv, AfterPassword, AfterRefresh, AfterSave;
    match step
    case Start(_, _) => StartKeepsInv(cfg, s, step);
    case Begin(_) => BeginKeepsInv(cfg, s, step);
    case Tick(_) => BeginKeepsInv(cfg, s, step);
    case Lock(_, _) => LockKeepsInv(cfg, s, step);
    case Gate(_, _, _) => GateKeepsInv(cfg, s, step);
    case Refresh(_, answer) =>
      if answer.Rotated? || answer.Renewed? || answer.Kept? {
        GrantedRefreshKeepsInv(cfg, s, step);
      } else {
        FailedRefreshKeepsInv(cfg, s, step);
      }
    case Password(_, _, _, _) => PasswordKeepsInv(cfg, s, step);
    case Save(_, _) => SaveKeepsInv(cfg, s, step);
    case Unauthorized(_) => UnauthorizedKeepsInv(cfg, s, step);
    case Stop(_) => StopKeepsInv(cfg, s, step);
    case Logout(_) =>
  }

  // ---------------------------------------------------------------- runs

  /** Whether `steps` can be taken one after the other from `s`. */
  predicate Possible(cfg: Settings, s: System, steps: seq<Step>)
    decreases |steps|, 0
  {
    steps == [] ||
    (Possible(cfg, s, steps[..|steps| - 1]) && Enabled(Reached(cfg, s, steps[..|steps| - 1]), steps[|steps| - 1]))
  }

  /** The state that a run ends in. */
  function Reached(cfg: Settings, s: System, steps: seq<Step>): System
    requires Possible(cfg, s, steps)
    decreases |steps|, 1
  {
    if steps == [] then s else Next(cfg, Reached(cfg, s, steps[..|steps| - 1]), steps[|steps| - 1])
  }

  /** The clauses that the environment broke along a run, in order. */
  function Breaches(cfg: Settings, s: System, steps: seq<Step>): seq<Clause>
    requires Possible(cfg, s, steps)
    decreases |steps|
  {
    if steps == [] then []
    else
      var before, step := steps[..|steps| - 1], steps[|steps| - 1];
      Breaches(cfg, s, before) + Listed(Broken(cfg, Reached(cfg, s, before), step))
  }

  function Listed(clause: Option<Clause>): seq<Clause> {
    if clause.Some? then [clause.value] else []
  }

  lemma {:induction false} InvHoldsAlongRun(cfg: Settings, s: System, steps: seq<Step>)
    requires Init(cfg, s) && Possible(cfg, s, steps) && Breaches(cfg, s, steps) == []
    ensures Inv(cfg, Reached(cfg, s, steps))
    decreases |steps|
  {
    hide Next, Inv, Enabled, Broken;
    if steps == [] {
      InitKeepsInv(cfg, s);
    } else {
      var before := steps[..|steps| - 1];
      InvHoldsAlongRun(cfg, s, before);
      StepKeepsInv(cfg, Reached(cfg, s, before), steps[|steps| - 1]);
    }
  }

  /** In every interleaving that keeps the hypotheses, whatever step comes next, a refresh
   *  token that it presents has never been rotated, and it is the one in the cache file. */
  lemma NoConsumedTokenPresented(cfg: Settings, s: System, steps: seq<Step>, next: Step)
    requires Init(cfg, s) && Possible(cfg, s, steps) && Breaches(cfg, s, steps) == []
    requires Enabled(Reached(cfg, s, steps), next)
    ensures
      var now := Reached(cfg, s, steps);
      Presented(now, next).Some? ==>
        Presented(now, next).value !in now.consumed && Presented(now, next) == CachedRefresh(now)
  {
    InvHoldsAlongRun(cfg, s, steps);
  }

  // ---------------------------------------------------------------- attempts inside a run

  lemma Extend(cfg: Settings, s: System, steps: seq<Step>, step: Step)
    requires Possible(cfg, s, steps) && Enabled(Reached(cfg, s, steps), step)
    ensures Possible(cfg, s, steps + [step])
    ensures Reached(cfg, s, steps + [step]) == Next(cfg, Reached(cfg, s, steps), step)
    ensures Breaches(cfg, s, steps + [step]) ==
            Breaches(cfg, s, steps) + Listed(Broken(cfg, Reached(cfg, s, steps), step))
  {
    hide Next, Enabled, Broken;
    assert (steps + [step])[..|steps|] == steps;
  }

  /** The run so far is possible, ends in `now` and broke the clauses `breaches`. */
  predicate At(cfg: Settings, s: System, steps: seq<Step>, now: System, breaches: seq<Clause>) {
    Possible(cfg, s, steps) && Reached(cfg, s, steps) == now && Breaches(cfg, s, steps) == breaches
  }

  /** The steps from the start of an attempt to the point where it can refresh. */
  function Attempt(p: Pid): seq<Step> {
    [Begin(p)] + [Lock(p, true)] + [Step.Gate(p, Failed, true)]
  }

  /** The refresh token that the next attempt of `p` would present, if nothing intervenes. */
  function WouldPresent(cfg: Settings, s: System, p: Pid): Option<string>
    requires p in s.procs
  {
    var adopted := AdoptNewerCachedLogin(cfg.overrides, s.procs[p].client, s.cache, s.clock);
    if adopted.tokens.Some? then UsableRefreshToken(adopted.tokens.value, s.clock) else None
  }

  /** `p` is between commands, needs a new access token and knows where to log in. */
  predicate NeedsLogin(cfg: Settings, s: System, p: Pid) {
    && p in s.procs && s.procs[p].phase.Idle? && s.lock.None?
    && !HoldsValidAccess(s.procs[p].client, s.clock)
    && var adopted := AdoptNewerCachedLogin(cfg.overrides, s.procs[p].client, s.cache, s.clock);
       !HoldsValidAccess(adopted, s.clock) && adopted.target.Some? && adopted.target.value.Some?
  }

  lemma AttemptBegins(cfg: Settings, s: System, steps: seq<Step>, now: System, breaches: seq<Clause>, p: Pid)
    requires At(cfg, s, steps, now, breaches) && NeedsLogin(cfg, now, p)
    ensures At(cfg, s, steps + [Begin(p)], Move(now, p, now.procs[p].client, Waiting(now.clock)), breaches)
  {
    hide AdoptNewerCachedLogin;
    Extend(cfg, s, steps, Begin(p));
  }

  lemma AttemptLocks(cfg: Settings, s: System, steps: seq<Step>, now: System, breaches: seq<Clause>, p: Pid)
    requires At(cfg, s, steps, now, breaches) && p in now.procs && now.procs[p].phase.Waiting? && now.lock.None?
    ensures At(cfg, s, steps + [Lock(p, true)],
               Move(now, p, now.procs[p].client, Entered(now.procs[p].phase.now)).(lock := Some(p)), breaches)
  {
    Extend(cfg, s, steps, Lock(p, true));
  }

  lemma AttemptPassesGate(cfg: Settings, s: System, steps: seq<Step>, now: System, breaches: seq<Clause>, p: Pid)
    requires At(cfg, s, steps, now, breaches) && p in now.procs && now.procs[p].phase.Entered?
    ensures At(cfg, s, steps + [Step.Gate(p, Failed, true)], Next(cfg, now, Step.Gate(p, Failed, true)), breaches)
  {
    Extend(cfg, s, steps, Step.Gate(p, Failed, true));
  }

  /** From any point of any run, the next attempt of an invocation can refresh, and presents the token
   *  that `WouldPresent` names. */
  lemma NextAttemptPresents(cfg: Settings, s: System, steps: seq<Step>, now: System, breaches: seq<Clause>, p: Pid)
    returns (after: System)
    requires At(cfg, s, steps, now, breaches) && NeedsLogin(cfg, now, p)
    ensures At(cfg, s, steps + Attempt(p), after, breaches)
    ensures after.consumed == now.consumed && after.cache == now.cache && after.lock == Some(p)
    ensures Enabled(after, Refresh(p, Rejected))
    ensures Presented(after, Refresh(p, Rejected)) == WouldPresent(cfg, now, p)
    ensures
      var adopted := AdoptNewerCachedLogin(cfg.overrides, now.procs[p].client, now.cache, now.clock);
      var phase := Granting(now.clock, adopted.target.value.value, adopted.tokens);
      after == Move(now, p, adopted.(tokens := None), phase).(lock := Some(p))
  {
    AttemptBegins(cfg, s, steps, now, breaches, p);
    var s1 := Move(now, p, now.procs[p].client, Waiting(now.clock));
    AttemptLocks(cfg, s, steps + [Begin(p)], s1, breaches, p);
    var s2 := Move(s1, p, now.procs[p].client, Entered(now.clock)).(lock := Some(p));
    AttemptPassesGate(cfg, s, steps + [Begin(p)] + [Lock(p, true)], s2, breaches, p);
    after := Next(cfg, s2, Step.Gate(p, Failed, true));
    hide At, AfterRefresh, AfterPassword, AfterSave, MatchesOverrides, AdoptNewerCachedLogin;
    var adopted := AdoptNewerCachedLogin(cfg.overrides, now.procs[p].client, now.cache, now.clock);
    var phase := Granting(now.clock, adopted.target.value.value, adopted.tokens);
    assert after.procs == now.procs[p := Process(adopted.(tokens := None), phase)];
    assert steps + [Begin(p)] + [Lock(p, true)] + [Step.Gate(p, Failed, true)] == steps + Attempt(p);
  }

  /** A rotation whose answer is lost, with an expiry that is not shortened. */
  lemma LosesAnswer(cfg: Settings, s: System, steps: seq<Step>, now: System, p: Pid, token: string)
    requires At(cfg, s, steps, now, []) && p in now.procs && now.procs[p].phase.Granting? && token !in now.issued
    requires Offered(now.procs[p].phase).Some? && Offered(now.procs[p].phase).value !in now.consumed
    ensures
      At(cfg, s, steps + [Refresh(p, Lost(token, now.top))], AfterRefresh(now, p, Lost(token, now.top)), [])
  {
    hide Possible, Reached, Breaches;
    Extend(cfg, s, steps, Refresh(p, Lost(token, now.top)));
  }

  /** A failed password login gives the lock back and leaves the cache as it is. */
  lemma GivesUp(cfg: Settings, s: System, steps: seq<Step>, now: System, p: Pid) returns (after: System)
    requires At(cfg, s, steps, now, []) && now.lock == Some(p)
    requires p in now.procs && now.procs[p].phase.NeedPassword? && now.procs[p].client.tokens.None?
    requires CacheLive(cfg, now) && CacheStale(now)
    requires !AccessValid(now.cache.value.tokens, now.clock)
    requires UsableRefreshToken(now.cache.value.tokens, now.clock).Some?
    ensures At(cfg, s, steps + [Password(p, Failed, Failed, Denied)], after, [NoGivingUp])
    ensures after.consumed == now.consumed && after.cache == now.cache && NeedsLogin(cfg, after, p)
    ensures WouldPresent(cfg, after, p) == CachedRefresh(now)
  {
    hide Possible, Reached, Breaches, MatchesOverrides, ResolveAuthTarget;
    Extend(cfg, s, steps, Password(p, Failed, Failed, Denied));
    after := AfterPassword(cfg, now, Password(p, Failed, Failed, Denied));
  }

  /** From any point of any run: when a rotation's answer is lost and the password login that
   *  follows fails, the rotated token stays in the cache and the next attempt presents it again. */
  lemma GivingUpAfterLostRotationReplays(cfg: Settings, s: System, steps: seq<Step>, now: System, p: Pid, token: string)
    returns (lost: Step, after: System)
    requires At(cfg, s, steps, now, []) && now.lock == Some(p)
    requires p in now.procs && now.procs[p].phase.Granting? && now.procs[p].client.tokens.None?
    requires token !in now.issued && CacheLive(cfg, now) && !CacheStale(now)
    requires Offered(now.procs[p].phase) == CachedRefresh(now)
    requires !AccessValid(now.cache.value.tokens, now.clock)
    requires UsableRefreshToken(now.cache.value.tokens, now.clock).Some?
    ensures At(cfg, s, steps + [lost] + [Password(p, Failed, Failed, Denied)] + Attempt(p), after, [NoGivingUp])
    ensures Presented(after, Refresh(p, Rejected)) == CachedRefresh(now) && CachedRefresh(now).value in after.consumed
  {
    hide Possible, Reached, Breaches, Next, MatchesOverrides, WouldPresent, NeedsLogin;
    lost := Refresh(p, Lost(token, now.top));
    var s1 := AfterRefresh(now, p, Lost(token, now.top));
    LosesAnswer(cfg, s, steps, now, p, token);
    var s2 := GivesUp(cfg, s, steps + [lost], s1, p);
    hide At, AfterRefresh, AfterPassword;
    after := NextAttemptPresents(cfg, s, steps + [lost] + [Password(p, Failed, Failed, Denied)], s2, [NoGivingUp], p);
  }

  /** From any point of any run: after a logout, an invocation that still holds a rotated token
   *  presents it, because nothing in the cache replaces it. */
  lemma LogoutReplays(cfg: Settings, s: System, steps: seq<Step>, now: System, q: Pid, p: Pid)
    returns (after: System)
    requires At(cfg, s, steps, now, []) && now.lock.None? && p != q
    requires q in now.procs && now.procs[q].phase.Idle? && p in now.procs && now.procs[p].phase.Idle?
    requires
      var client := now.procs[p].client;
      && client.target.Some? && client.target.value.Some?
      && client.tokens.Some? && !AccessValid(client.tokens.value, now.clock)
      && UsableRefreshToken(client.tokens.value, now.clock).Some?
      && client.tokens.value.refreshToken.value in now.consumed
    ensures At(cfg, s, steps + [Logout(q)] + Attempt(p), after, [NobodyLogsOut])
    ensures Presented(after, Refresh(p, Rejected)) == now.procs[p].client.tokens.value.refreshToken
    ensures Presented(after, Refresh(p, Rejected)).value in after.consumed
  {
    Extend(cfg, s, steps, Logout(q));
    hide Possible, Reached, Breaches;
    after := NextAttemptPresents(cfg, s, steps + [Logout(q)], Next(cfg, now, Logout(q)), [NobodyLogsOut], p);
  }
}
