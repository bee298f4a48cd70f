/** The step machine of `SharedLogin` and the client of `DecmanClients` are one program: when nothing
 *  intervenes, the steps of one invocation lead exactly where one `authenticate` call leads.
 */
module LoginRefinement {
  import opened Prelude
  import opened Tokens
  import opened TokenCache
  import opened LoginRules
  import S = SharedLogin
  import D = DecmanClients

  /** Whether the lock was obtained, and whether the cache file could be read and written. */
  datatype FileAnswers = FileAnswers(locked: bool, read: bool, written: bool)

  /** The invocation and the system around it agree on the cache file, the clock and the settings. */
  predicate SameView(cfg: S.Settings, client: D.ClientSettings, s: S.System, p: S.Pid,
                     a: D.Answers, files: FileAnswers) {
    && client.hasCache && client.overrides == cfg.overrides
    && a.cached == S.Loaded(s, files.read) && a.now == s.clock
    && p in s.procs && s.procs[p].phase.Idle? && s.lock != Some(p)
    && (files.locked ==> s.lock.None?)
  }

  /** What the provider's answer to a refresh amounts to. */
  function AnswerTo(offered: string, response: TokenResponse, at: int): S.RefreshAnswer {
    if response.refreshToken.None? then S.Kept(response, at)
    else if response.refreshToken.value == offered then S.Renewed(response, at)
    else S.Rotated(response, at)
  }

  /** The provider refreshes no rotated token, and a refresh token that it newly issues is new. */
  predicate ProviderKeepsFaith(s: S.System, offered: Option<string>, a: D.Answers) {
    && (offered.Some? && a.refresh.Ok? ==>
          && offered.value !in s.consumed
          && (a.refresh.value.refreshToken.None? || a.refresh.value.refreshToken == offered
              || a.refresh.value.refreshToken.value !in s.issued))
    && (a.grant.Ok? && a.grant.value.refreshToken.Some? ==> a.grant.value.refreshToken.value !in s.issued)
  }

  function Refreshing(p: S.Pid, offered: Option<string>, a: D.Answers): S.Step {
    S.Refresh(p, if offered.None? then S.NotSent
                 else if a.refresh.Failed? then S.Rejected
                 else AnswerTo(offered.value, a.refresh.value, a.refreshedAt))
  }

  function PasswordStep(client: D.ClientSettings, p: S.Pid, gate: Gate, a: D.Answers): S.Step
    requires gate.NeedGrant?
  {
    var granted := D.PasswordLogin(client, gate.client, gate.target, a).granted.Some?;
    var reply := if granted && a.grant.Ok? then S.Granted(a.grant.value, a.grantedAt) else S.Denied;
    S.Password(p, a.reconfig, a.password, reply)
  }

  function FirstSteps(p: S.Pid, a: D.Answers, files: FileAnswers): seq<S.Step> {
    [S.Begin(p)] + [S.Lock(p, files.locked)] + [S.Step.Gate(p, a.config, files.read)]
  }

  /** The steps that one undisturbed call takes. */
  function CallSteps(client: D.ClientSettings, c: Client, p: S.Pid, a: D.Answers, files: FileAnswers): seq<S.Step> {
    if HoldsValidAccess(c, a.now) then [S.Begin(p)]
    else
      var gate := D.GateOf(client, c, a);
      if gate.Finished? then FirstSteps(p, a, files)
      else
        var offered := D.Offers(client, gate, a.now);
        var tried := FirstSteps(p, a, files) + [Refreshing(p, offered, a)];
        var save := [S.Step.Save(p, files.written)];
        if offered.Some? && a.refresh.Ok? then tried + save
        else
          tried + [PasswordStep(client, p, gate, a)]
          + if D.PasswordLogin(client, gate.client, gate.target, a).granted.Some? then save else []
  }

  // ---------------------------------------------------------------- runs from any state

  predicate Runs(cfg: S.Settings, s: S.System, steps: seq<S.Step>, after: S.System) {
    S.Possible(cfg, s, steps) && S.Reached(cfg, s, steps) == after
  }

  lemma RunsOn(cfg: S.Settings, s: S.System, steps: seq<S.Step>, now: S.System, step: S.Step)
    requires Runs(cfg, s, steps, now) && S.Enabled(now, step)
    ensures Runs(cfg, s, steps + [step], S.Next(cfg, now, step))
  {
    hide S.Next, S.Enabled, S.Broken;
    S.Extend(cfg, s, steps, step);
  }

  /** Who holds the lock while invocation `p` logs in. */
  function Holder(s: S.System, p: S.Pid, files: FileAnswers): Option<S.Pid> {
    if files.locked then Some(p) else s.lock
  }

  /** `s` with invocation `p` in this place and the lock in this hand. */
  function With(s: S.System, p: S.Pid, c: Client, phase: S.Phase, lock: Option<S.Pid>): S.System {
    s.(procs := s.procs[p := S.Process(c, phase)], lock := lock)
  }

  lemma MovedTwice(s: S.System, p: S.Pid, c: Client, phase: S.Phase, files: FileAnswers, d: Client, next: S.Phase)
    requires s.lock != Some(p) && (files.locked ==> s.lock.None?)
    ensures S.Move(With(s, p, c, phase, Holder(s, p, files)), p, d, next) == With(s, p, d, next, Holder(s, p, files))
    ensures S.Leave(With(s, p, c, phase, Holder(s, p, files)), p, d) == With(s, p, d, S.Idle, s.lock)
  {
    assert s.procs[p := S.Process(c, phase)][p := S.Process(d, next)] == s.procs[p := S.Process(d, next)];
    assert s.procs[p := S.Process(c, phase)][p := S.Process(d, S.Idle)] == s.procs[p := S.Process(d, S.Idle)];
  }

  lemma ReachesGate(cfg: S.Settings, client: D.ClientSettings, s: S.System, p: S.Pid, a: D.Answers, files: FileAnswers)
    requires SameView(cfg, client, s, p, a, files) && !HoldsValidAccess(s.procs[p].client, a.now)
    ensures
      Runs(cfg, s, FirstSteps(p, a, files),
           match D.GateOf(client, s.procs[p].client, a)
           case Finished(c, _) => With(s, p, c, S.Idle, s.lock)
           case NeedGrant(c, target, previous) =>
             With(s, p, c, S.Granting(a.now, target, previous), Holder(s, p, files)))
  {
    var c := s.procs[p].client;
    assert Runs(cfg, s, [], s);
    RunsOn(cfg, s, [], s, S.Begin(p));
    assert [] + [S.Begin(p)] == [S.Begin(p)];
    var s1 := With(s, p, c, S.Waiting(a.now), s.lock);
    var s2 := With(s, p, c, S.Entered(a.now), Holder(s, p, files));
    assert s1.procs[p := S.Process(c, S.Entered(a.now))] == s2.procs;
    RunsOn(cfg, s, [S.Begin(p)], s1, S.Lock(p, files.locked));
    RunsOn(cfg, s, [S.Begin(p)] + [S.Lock(p, files.locked)], s2, S.Step.Gate(p, a.config, files.read));
    hide PassGate, ResolveAuthTarget;
    match D.GateOf(client, c, a)
    case Finished(d, _) => MovedTwice(s, p, c, S.Entered(a.now), files, d, S.Idle);
    case NeedGrant(d, target, previous) =>
      MovedTwice(s, p, c, S.Entered(a.now), files, d, S.Granting(a.now, target, previous));
  }

  // ---------------------------------------------------------------- the two outcomes agree

  /** What the cache file holds after these events of a client, when it can be written. */
  function CacheAfter(key: LoginKey, cache: Option<CachedLogin>, events: seq<D.ClientEvent>): Option<CachedLogin> {
    if events == [] then cache
    else
      var last := events[|events| - 1];
      if last.Saved? then Some(CachedLogin(key, last.target, last.tokens))
      else CacheAfter(key, cache, events[..|events| - 1])
  }

  lemma {:induction false} NothingSaved(key: LoginKey, cache: Option<CachedLogin>, events: seq<D.ClientEvent>)
    requires forall e | e in events :: !e.Saved?
    ensures CacheAfter(key, cache, events) == cache
  {
    if events != [] {
      NothingSaved(key, cache, events[..|events| - 1]);
    }
  }

  /** The system after the steps is the one before, with the client and the cache file that the call leaves. */
  predicate SameOutcome(cfg: S.Settings, s: S.System, p: S.Pid, files: FileAnswers,
                        after: S.System, call: D.CallResult) {
    && after.procs == s.procs[p := S.Process(call.client, S.Idle)] && after.lock == s.lock && after.clock == s.clock
    && after.cache == if files.written then CacheAfter(cfg.key, s.cache, call.events) else s.cache
  }

  /** `now` is `s` but for invocation `p`, the lock and the provider's bookkeeping. */
  predicate Stands(s: S.System, now: S.System, p: S.Pid, c: Client, phase: S.Phase, lock: Option<S.Pid>) {
    && now.procs == s.procs[p := S.Process(c, phase)] && now.lock == lock
    && now.cache == s.cache && now.clock == s.clock
  }

  /** The cache file is written exactly when something was granted. */
  lemma FinishedCache(key: LoginKey, cache: Option<CachedLogin>, client: D.ClientSettings, attempt: D.GrantAttempt)
    requires client.hasCache && forall e | e in attempt.events :: !e.Saved?
    ensures CacheAfter(key, cache, D.Finish(client, attempt).events)
         == if attempt.granted.Some?
            then Some(CachedLogin(key, attempt.granted.value.0, attempt.granted.value.1)) else cache
  {
    if attempt.granted.None? {
      NothingSaved(key, cache, attempt.events);
    }
  }

  /** Saving, or failing to, ends the attempt as the client ends it. */
  lemma SavedAlike(cfg: S.Settings, client: D.ClientSettings, s: S.System, now: S.System, p: S.Pid, files: FileAnswers,
                   attempt: D.GrantAttempt)
    requires client.hasCache && attempt.granted.Some? && forall e | e in attempt.events :: !e.Saved?
    requires s.lock != Some(p) && (files.locked ==> s.lock.None?)
    requires Stands(s, now, p, attempt.client, S.Unsaved(attempt.granted.value.0, attempt.granted.value.1),
                    Holder(s, p, files))
    ensures S.Enabled(now, S.Step.Save(p, files.written))
    ensures SameOutcome(cfg, s, p, files, S.Next(cfg, now, S.Step.Save(p, files.written)), D.Finish(client, attempt))
  {
    hide S.CacheLive, CacheAfter;
    FinishedCache(cfg.key, s.cache, client, attempt);
    var after := S.Next(cfg, now, S.Step.Save(p, files.written));
    assert now.procs[p := after.procs[p]] == s.procs[p := after.procs[p]];
  }

  /** A granted refresh puts the granted tokens in the hands of the invocation. */
  lemma RefreshedAlike(cfg: S.Settings, client: D.ClientSettings, s: S.System, now: S.System, p: S.Pid,
                       lock: Option<S.Pid>, gate: Gate, a: D.Answers)
    requires gate.NeedGrant? && Stands(s, now, p, gate.client, S.Granting(a.now, gate.target, gate.previous), lock)
    requires D.Offers(client, gate, a.now).Some? && a.refresh.Ok?
    requires ProviderKeepsFaith(now, D.Offers(client, gate, a.now), a)
    ensures
      var offered := D.Offers(client, gate, a.now);
      var step, granted := Refreshing(p, offered, a), D.TryGrants(client, gate, a).granted;
      && S.Enabled(now, step) && S.Presented(now, step) == offered && granted.Some?
      && Stands(s, S.Next(cfg, now, step), p, gate.client, S.Unsaved(granted.value.0, granted.value.1), lock)
  {
    var granted := D.TryGrants(client, gate, a).granted.value;
    assert now.procs[p := S.Process(gate.client, S.Unsaved(granted.0, granted.1))]
        == s.procs[p := S.Process(gate.client, S.Unsaved(granted.0, granted.1))];
  }

  /** A refresh that fails, or is not to be sent, leaves a password login to try. */
  lemma NotRefreshedAlike(cfg: S.Settings, client: D.ClientSettings, s: S.System, p: S.Pid, files: FileAnswers,
                          gate: Gate,
                          a: D.Answers)
    requires gate.NeedGrant? && s.lock != Some(p) && (files.locked ==> s.lock.None?)
    requires !(D.Offers(client, gate, a.now).Some? && a.refresh.Ok?)
    ensures
      var now := With(s, p, gate.client, S.Granting(a.now, gate.target, gate.previous), Holder(s, p, files));
      var offered := D.Offers(client, gate, a.now);
      var step := Refreshing(p, offered, a);
      && S.Enabled(now, step) && S.Presented(now, step) == offered
      && S.Next(cfg, now, step) == With(s, p, gate.client, S.NeedPassword(gate.target), Holder(s, p, files))
  {
    MovedTwice(s, p, gate.client, S.Granting(a.now, gate.target, gate.previous), files,
               gate.client, S.NeedPassword(gate.target));
  }

  /** A password login leads to the granted tokens, or ends the attempt as the client ends it. */
  lemma PasswordAlike(cfg: S.Settings, client: D.ClientSettings, s: S.System, p: S.Pid, files: FileAnswers, gate: Gate,
                      a: D.Answers)
    requires gate.NeedGrant? && client.overrides == cfg.overrides
    requires s.lock != Some(p) && (files.locked ==> s.lock.None?)
    requires a.grant.Ok? && a.grant.value.refreshToken.Some? ==> a.grant.value.refreshToken.value !in s.issued
    ensures
      var now := With(s, p, gate.client, S.NeedPassword(gate.target), Holder(s, p, files));
      var step, attempt := PasswordStep(client, p, gate, a), D.PasswordLogin(client, gate.client, gate.target, a);
      && S.Enabled(now, step)
      && var after, granted := S.Next(cfg, now, step), attempt.granted;
         if granted.Some?
         then Stands(s, after, p, attempt.client, S.Unsaved(granted.value.0, granted.value.1), Holder(s, p, files))
         else Stands(s, after, p, attempt.client, S.Idle, s.lock)
  {
    hide ResolveAuthTarget;
    var now := With(s, p, gate.client, S.NeedPassword(gate.target), Holder(s, p, files));
    var step := PasswordStep(client, p, gate, a);
    assert S.Enabled(now, step);
    var after := S.Next(cfg, now, step);
    assert now.procs[p := after.procs[p]] == s.procs[p := after.procs[p]];
  }

  // ---------------------------------------------------------------- the whole call

  lemma GrantsSaveNothing(client: D.ClientSettings, gate: Gate, a: D.Answers)
    requires gate.NeedGrant?
    ensures forall e | e in D.TryGrants(client, gate, a).events :: !e.Saved?
  {
    hide ResolveAuthTarget;
  }

  lemma AskingSavesNothing(client: D.ClientSettings, c: Client, a: D.Answers)
    ensures forall e | e in D.AskedFirst(client, c, a) :: !e.Saved?
  {
  }

  /** What `authenticate` makes of a call that needs a grant. */
  function Attempted(client: D.ClientSettings, c: Client, gate: Gate, a: D.Answers): D.GrantAttempt
    requires gate.NeedGrant?
  {
    var attempt := D.TryGrants(client, gate, a);
    attempt.(events := D.AskedFirst(client, c, a) + attempt.events)
  }

  lemma RefreshPath(cfg: S.Settings, client: D.ClientSettings, s: S.System, p: S.Pid, a: D.Answers, files: FileAnswers)
    returns (after: S.System)
    requires SameView(cfg, client, s, p, a, files) && !HoldsValidAccess(s.procs[p].client, a.now)
    requires
      var gate := D.GateOf(client, s.procs[p].client, a);
      && gate.NeedGrant? && D.Offers(client, gate, a.now).Some? && a.refresh.Ok?
      && ProviderKeepsFaith(s, D.Offers(client, gate, a.now), a)
    ensures Runs(cfg, s, CallSteps(client, s.procs[p].client, p, a, files), after)
    ensures SameOutcome(cfg, s, p, files, after, D.Authenticate(client, s.procs[p].client, a))
  {
    hide Runs, D.GateOf, S.Next, S.Enabled, FirstSteps, Refreshing, SameOutcome, D.Finish, D.Offers, D.AskedFirst;
    var c := s.procs[p].client;
    var gate, lock := D.GateOf(client, c, a), Holder(s, p, files);
    var now := With(s, p, gate.client, S.Granting(a.now, gate.target, gate.previous), lock);
    var step, save := Refreshing(p, D.Offers(client, gate, a.now), a), S.Step.Save(p, files.written);
    ReachesGate(cfg, client, s, p, a, files);
    RefreshedAlike(cfg, client, s, now, p, lock, gate, a);
    RunsOn(cfg, s, FirstSteps(p, a, files), now, step);
    var held := S.Next(cfg, now, step);
    GrantsSaveNothing(client, gate, a);
    AskingSavesNothing(client, c, a);
    SavedAlike(cfg, client, s, held, p, files, Attempted(client, c, gate, a));
    RunsOn(cfg, s, FirstSteps(p, a, files) + [step], held, save);
    after := S.Next(cfg, held, save);
  }

  lemma PasswordPath(cfg: S.Settings, client: D.ClientSettings, s: S.System, p: S.Pid, a: D.Answers, files: FileAnswers)
    returns (after: S.System)
    requires SameView(cfg, client, s, p, a, files) && !HoldsValidAccess(s.procs[p].client, a.now)
    requires
      var gate := D.GateOf(client, s.procs[p].client, a);
      && gate.NeedGrant? && !(D.Offers(client, gate, a.now).Some? && a.refresh.Ok?)
      && ProviderKeepsFaith(s, D.Offers(client, gate, a.now), a)
    ensures Runs(cfg, s, CallSteps(client, s.procs[p].client, p, a, files), after)
    ensures SameOutcome(cfg, s, p, files, after, D.Authenticate(client, s.procs[p].client, a))
  {
    hide Runs, D.GateOf, S.Next, S.Enabled, FirstSteps, Refreshing, PasswordStep, D.Offers, D.AskedFirst,
         D.PasswordLogin, CacheAfter;
    var c := s.procs[p].client;
    var gate, lock := D.GateOf(client, c, a), Holder(s, p, files);
    var now := With(s, p, gate.client, S.Granting(a.now, gate.target, gate.previous), lock);
    var first, refresh := FirstSteps(p, a, files), Refreshing(p, D.Offers(client, gate, a.now), a);
    ReachesGate(cfg, client, s, p, a, files);
    NotRefreshedAlike(cfg, client, s, p, files, gate, a);
    RunsOn(cfg, s, first, now, refresh);
    var need := With(s, p, gate.client, S.NeedPassword(gate.target), lock);
    var password := PasswordStep(client, p, gate, a);
    PasswordAlike(cfg, client, s, p, files, gate, a);
    RunsOn(cfg, s, first + [refresh], need, password);
    after := S.Next(cfg, need, password);
    GrantsSaveNothing(client, gate, a);
    AskingSavesNothing(client, c, a);
    var attempt := Attempted(client, c, gate, a);
    if attempt.granted.Some? {
      SavedAlike(cfg, client, s, after, p, files, attempt);
      RunsOn(cfg, s, first + [refresh] + [password], after, S.Step.Save(p, files.written));
      after := S.Next(cfg, after, S.Step.Save(p, files.written));
    } else {
      FinishedCache(cfg.key, s.cache, client, attempt);
      assert first + [refresh] + [password] + [] == first + [refresh] + [password];
    }
  }

  /** For every system state, reachable or not, and everything that the lock, the cache file, the server and
   *  the provider may answer: the undisturbed steps of one invocation are possible, and end in the client,
   *  the cache file and the lock that one `authenticate` call ends in. */
  lemma CallRefines(cfg: S.Settings, client: D.ClientSettings, s: S.System, p: S.Pid, a: D.Answers, files: FileAnswers)
    returns (after: S.System)
    requires SameView(cfg, client, s, p, a, files)
    requires
      var gate := D.GateOf(client, s.procs[p].client, a);
      gate.NeedGrant? ==> ProviderKeepsFaith(s, D.Offers(client, gate, a.now), a)
    ensures Runs(cfg, s, CallSteps(client, s.procs[p].client, p, a, files), after)
    ensures SameOutcome(cfg, s, p, files, after, D.Authenticate(client, s.procs[p].client, a))
  {
    hide ProviderKeepsFaith, PassGate, D.Offers, ResolveAuthTarget;
    var c := s.procs[p].client;
    var gate := D.GateOf(client, c, a);
    if HoldsValidAccess(c, a.now) {
      after := s;
      assert Runs(cfg, s, [], s);
      RunsOn(cfg, s, [], s, S.Begin(p));
      assert [] + [S.Begin(p)] == [S.Begin(p)];
      assert s.procs == s.procs[p := s.procs[p]];
    } else if gate.Finished? {
      after := With(s, p, gate.client, S.Idle, s.lock);
      ReachesGate(cfg, client, s, p, a, files);
      AskingSavesNothing(client, c, a);
      NothingSaved(cfg.key, s.cache, D.AskedFirst(client, c, a));
    } else if D.Offers(client, gate, a.now).Some? && a.refresh.Ok? {
      after := RefreshPath(cfg, client, s, p, a, files);
    } else {
      after := PasswordPath(cfg, client, s, p, a, files);
    }
  }

  /** A rejected request and a logout change the client of a step as they change the client of a call. */
  lemma OthersAlike(cfg: S.Settings, client: D.ClientSettings, s: S.System, p: S.Pid)
    requires p in s.procs && s.procs[p].phase.Idle?
    ensures
      var rejected := S.Next(cfg, s, S.Unauthorized(p));
      var leaving := S.Next(cfg, s, S.Logout(p));
      && p in rejected.procs && rejected.procs[p].phase.Idle? && rejected.cache == s.cache
      && rejected.procs[p].client == D.Perform(client, s.procs[p].client, D.Unauthorized).client
      && p in leaving.procs && leaving.procs[p].phase.Idle? && leaving.cache.None?
      && leaving.procs[p].client == D.Perform(client, s.procs[p].client, D.LoggedOut).client
  {
  }
}
