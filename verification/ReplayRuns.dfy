/** Every clause of the hypotheses of `SharedLogin` is needed: for each there is a run from an initial
 *  state that breaks this clause once, breaks no other, and ends with a rotated token presented again.
 */
module ReplayRuns {
  import opened Prelude
  import opened Tokens
  import opened TokenCache
  import opened LoginRules
  import opened SharedLogin

  // ---------------------------------------------------------------- one login, two invocations

  const TARGET := AuthTarget("https://idp/token", "decman", None)
  const CFG := Settings(LoginKey("https://node", "user"), Overrides(Some("https://idp/token"), Some("decman"), None))

  /** An expired access token, and a refresh token without expiry. */
  const TOKENS := TokenSet("a0", Some(0), Some("t0"), None)

  const LOADED := Client(Some(Some(TARGET)), Some(TOKENS), true, None)
  const ASKING := LOADED.(tokens := None)

  const START := System(map[], Some(CachedLogin(CFG.key, TARGET, TOKENS)), None, 0, {"t0"}, {}, None, None)

  /** Invocation 1 has the lock and may refresh; invocation 2 has loaded the same login. */
  const GRANTING := START.(
    procs := map[1 := Process(ASKING, Granting(0, TARGET, Some(TOKENS))), 2 := Process(LOADED, Idle)],
    lock := Some(1))

  const OPENING: seq<Step> := [Start(1, true)] + [Start(2, true)] + Attempt(1)

  /** The run reaches `now` from the initial state and has broken `breaches`. */
  predicate Stands(steps: seq<Step>, now: System, breaches: seq<Clause>) {
    At(CFG, START, steps, now, breaches)
  }

  lemma Takes(steps: seq<Step>, now: System, breaches: seq<Clause>, step: Step)
    requires Stands(steps, now, breaches) && Enabled(now, step)
    ensures Stands(steps + [step], Next(CFG, now, step), breaches + Listed(Broken(CFG, now, step)))
  {
    hide Enabled, Next, Broken, Possible, Reached, Breaches;
    Extend(CFG, START, steps, step);
  }

  lemma TakesQuietly(steps: seq<Step>, now: System, breaches: seq<Clause>, step: Step)
    requires Stands(steps, now, breaches) && Enabled(now, step) && Broken(CFG, now, step).None?
    ensures Stands(steps + [step], Next(CFG, now, step), breaches)
  {
    hide Enabled, Next, Broken, Stands;
    Takes(steps, now, breaches, step);
    assert breaches + [] == breaches;
  }

  lemma Loads(procs: map<Pid, Process>, p: Pid)
    requires p !in procs
    ensures Enabled(START.(procs := procs), Start(p, true)) && Broken(CFG, START.(procs := procs), Start(p, true)).None?
    ensures Next(CFG, START.(procs := procs), Start(p, true)) == START.(procs := procs[p := Process(LOADED, Idle)])
  {
  }

  const BOTH := START.(procs := map[1 := Process(LOADED, Idle), 2 := Process(LOADED, Idle)])

  lemma BothLoad()
    ensures Init(CFG, START) && Stands([Start(1, true)] + [Start(2, true)], BOTH, [])
  {
    assert Stands([], START, []);
    hide Enabled, Next, Broken, Stands;
    Loads(map[], 1);
    assert START.(procs := map[]) == START;
    TakesQuietly([], START, [], Start(1, true));
    assert [] + [Start(1, true)] == [Start(1, true)];
    var s1 := START.(procs := map[][1 := Process(LOADED, Idle)]);
    Loads(s1.procs, 2);
    TakesQuietly([Start(1, true)], s1, [], Start(2, true));
    assert s1.procs[2 := Process(LOADED, Idle)] == BOTH.procs;
  }

  lemma FirstAttempt()
    ensures NeedsLogin(CFG, BOTH, 1) && BOTH.clock == 0
  {
  }

  lemma FirstGate()
    ensures
      var s4 := Move(Move(BOTH, 1, LOADED, Waiting(0)), 1, LOADED, Entered(0)).(lock := Some(1));
      Next(CFG, s4, Step.Gate(1, Failed, true)) == GRANTING
  {
    var s4 := Move(Move(BOTH, 1, LOADED, Waiting(0)), 1, LOADED, Entered(0)).(lock := Some(1));
    assert Next(CFG, s4, Step.Gate(1, Failed, true)).procs == GRANTING.procs;
  }

  lemma Opens()
    ensures Init(CFG, START) && Stands(OPENING, GRANTING, [])
  {
    hide Init, At, Next, NeedsLogin;
    BothLoad();
    FirstAttempt();
    FirstGate();
    var begun := [Start(1, true)] + [Start(2, true)];
    AttemptBegins(CFG, START, begun, BOTH, [], 1);
    var s3 := Move(BOTH, 1, LOADED, Waiting(0));
    AttemptLocks(CFG, START, begun + [Begin(1)], s3, [], 1);
    var s4 := Move(s3, 1, LOADED, Entered(0)).(lock := Some(1));
    AttemptPassesGate(CFG, START, begun + [Begin(1)] + [Lock(1, true)], s4, [], 1);
    assert begun + [Begin(1)] + [Lock(1, true)] + [Step.Gate(1, Failed, true)] == OPENING;
  }

  // ---------------------------------------------------------------- what invocation 1 goes on to do

  /** Invocation 1 is in this phase, and invocation 2 as it was after loading. */
  predicate Placed(now: System, phase: Phase) {
    && 1 in now.procs && now.procs[1].phase == phase
    && now.lock == (if Critical(phase) then Some(1) else None)
    && 2 in now.procs && now.procs[2] == Process(LOADED, Idle)
  }

  function Cached(tokens: TokenSet): Option<CachedLogin> {
    Some(CachedLogin(CFG.key, TARGET, tokens))
  }

  lemma Rotates(now: System, previous: TokenSet, response: TokenResponse, at: int)
    requires Placed(now, Granting(now.clock, TARGET, Some(previous)))
    requires UsableRefreshToken(previous, now.clock) == Some("t0") && "t0" !in now.consumed
    requires response.refreshToken == Some("t1") && "t1" !in now.issued
    ensures
      var step := Refresh(1, Rotated(response, at));
      && Enabled(now, step)
      && Broken(CFG, now, step)
         == Unless(ExpiresNoLater(now.top, ExpiresAt(response.refreshExpiresIn, at)), RotatedOutlasts)
      && var after := Next(CFG, now, step);
         && Placed(after, Unsaved(TARGET, FromResponse(response, at, Some(previous))))
         && after.cache == now.cache && after.clock == now.clock && "t0" in after.consumed
  {
  }

  lemma Renews(response: TokenResponse)
    requires response.refreshToken == Some("t0")
    ensures
      var step := Refresh(1, Renewed(response, 0));
      && Enabled(GRANTING, step)
      && Broken(CFG, GRANTING, step)
         == Unless(ExpiresNoLater(None, ExpiresAt(response.refreshExpiresIn, 0)), RenewedOutlasts)
      && var after := Next(CFG, GRANTING, step);
         && Placed(after, Unsaved(TARGET, FromResponse(response, 0, Some(TOKENS))))
         && after.clock == 0 && after.consumed == {} && after.issued == {"t0"}
         && after.top == ExpiresAt(response.refreshExpiresIn, 0) && after.procs[1].client == ASKING
  {
  }

  lemma Loses(expiry: Option<int>)
    ensures
      var step := Refresh(1, Lost("t1", expiry));
      && Enabled(GRANTING, step)
      && Broken(CFG, GRANTING, step) == Unless(ExpiresNoLater(None, expiry), LostOutlasts)
      && var after := Next(CFG, GRANTING, step);
         && Placed(after, NeedPassword(TARGET)) && after.procs[1].client == ASKING
         && after.cache == Cached(TOKENS) && after.clock == 0
         && after.consumed == {"t0"} && after.issued == {"t0", "t1"} && after.top == expiry
  {
  }

  /** The refresh token of a password grant, and how long it lasts, are the provider's choice. */
  lemma LogsIn(now: System, response: TokenResponse)
    requires Placed(now, NeedPassword(TARGET)) && now.procs[1].client == ASKING
    requires response.refreshToken.Some? ==> response.refreshToken.value !in now.issued
    ensures
      var step := Password(1, Failed, Ok("secret"), Granted(response, 0));
      && Enabled(now, step)
      && Broken(CFG, now, step)
         == (if response.refreshToken.None? then Some(GrantBringsRefresh)
             else Unless(ExpiresNoLater(now.top, ExpiresAt(response.refreshExpiresIn, 0)), GrantedOutlasts))
      && var after := Next(CFG, now, step);
         && Placed(after, Unsaved(TARGET, FromResponse(response, 0, None)))
         && after.cache == now.cache && after.clock == now.clock && after.consumed == now.consumed
  {
  }

  lemma Saves(now: System, tokens: TokenSet, written: bool)
    requires Placed(now, Unsaved(TARGET, tokens))
    ensures
      var step := Step.Save(1, written);
      && Enabled(now, step) && Broken(CFG, now, step) == Unless(written, SaveIsWritten)
      && var after := Next(CFG, now, step);
         && Placed(after, Idle) && after.cache == (if written then Cached(tokens) else now.cache)
         && after.clock == now.clock && after.consumed == now.consumed && after.issued == now.issued
         && after.top == now.top && after.procs[1].client == now.procs[1].client.(tokens := Some(tokens))
  {
    hide CacheLive;
  }

  // ---------------------------------------------------------------- the replays

  /** The run breaks this clause and no other, and its last invocation is about to present a rotated token. */
  predicate Replays(steps: seq<Step>, now: System, clause: Clause, p: Pid) {
    && Stands(steps, now, [clause]) && Enabled(now, Refresh(p, Rejected))
    && Presented(now, Refresh(p, Rejected)) == Some("t0") && "t0" in now.consumed
  }

  /** The cache file has nothing to replace the refresh token that invocation 2 has loaded. */
  predicate NothingNewer(cache: Option<CachedLogin>, clock: int) {
    cache.Some? ==>
      && !AccessValid(cache.value.tokens, clock)
      && (cache.value.tokens.refreshToken == Some("t0") || UsableRefreshToken(cache.value.tokens, clock).None?)
  }

  lemma SecondReplays(steps: seq<Step>, now: System, clause: Clause) returns (run: seq<Step>, after: System)
    requires Stands(steps, now, [clause]) && 2 in now.procs && now.procs[2] == Process(LOADED, Idle)
    requires now.lock.None? && now.clock >= 0 && "t0" in now.consumed && NothingNewer(now.cache, now.clock)
    ensures Replays(run, after, clause, 2)
  {
    hide At, MatchesOverrides;
    assert NeedsLogin(CFG, now, 2) && WouldPresent(CFG, now, 2) == Some("t0");
    after := NextAttemptPresents(CFG, START, steps, now, [clause], 2);
    run := steps + Attempt(2);
  }

  /** A run in which nothing has replaced the token of invocation 2, although it was rotated. */
  predicate Behind(now: System, phase: Phase, cache: Option<CachedLogin>, clock: int) {
    Placed(now, phase) && now.cache == cache && now.clock == clock && "t0" in now.consumed
  }

  function Response(refreshToken: Option<string>, lifetime: Option<int>): TokenResponse {
    TokenResponse("a1", Some(60), refreshToken, lifetime)
  }

  function Brought(refreshToken: Option<string>, lifetime: Option<int>): TokenSet {
    TokenSet("a1", Some(60), refreshToken, ExpiresAt(lifetime, 0))
  }

  lemma RotatedRun(lifetime: Option<int>) returns (steps: seq<Step>, now: System)
    ensures Stands(steps, now, Listed(Unless(ExpiresNoLater(None, ExpiresAt(lifetime, 0)), RotatedOutlasts)))
    ensures Behind(now, Unsaved(TARGET, Brought(Some("t1"), lifetime)), Cached(TOKENS), 0)
  {
    hide Stands, Enabled, Next, Broken;
    var step := Refresh(1, Rotated(Response(Some("t1"), lifetime), 0));
    Opens();
    Rotates(GRANTING, TOKENS, Response(Some("t1"), lifetime), 0);
    Takes(OPENING, GRANTING, [], step);
    steps, now := OPENING + [step], Next(CFG, GRANTING, step);
    assert [] + Listed(Broken(CFG, GRANTING, step)) == Listed(Broken(CFG, GRANTING, step));
  }

  lemma LostRun(expiry: Option<int>) returns (steps: seq<Step>, now: System)
    ensures Stands(steps, now, Listed(Unless(ExpiresNoLater(None, expiry), LostOutlasts)))
    ensures Behind(now, NeedPassword(TARGET), Cached(TOKENS), 0)
    ensures now.procs[1].client == ASKING && now.issued == {"t0", "t1"} && now.top == expiry && CacheStale(now)
  {
    hide Stands, Enabled, Next, Broken;
    var step := Refresh(1, Lost("t1", expiry));
    Opens();
    Loses(expiry);
    Takes(OPENING, GRANTING, [], step);
    steps, now := OPENING + [step], Next(CFG, GRANTING, step);
    assert [] + Listed(Broken(CFG, GRANTING, step)) == Listed(Broken(CFG, GRANTING, step));
  }

  /** A lost answer, then a password grant. */
  lemma LoggedInRun(expiry: Option<int>, refreshToken: Option<string>, lifetime: Option<int>)
    returns (steps: seq<Step>, now: System)
    requires refreshToken.Some? ==> refreshToken.value == "t2"
    ensures
      var lost := Unless(ExpiresNoLater(None, expiry), LostOutlasts);
      var granted := if refreshToken.None? then Some(GrantBringsRefresh)
                     else Unless(ExpiresNoLater(expiry, ExpiresAt(lifetime, 0)), GrantedOutlasts);
      Stands(steps, now, Listed(lost) + Listed(granted))
    ensures
      Behind(now, Unsaved(TARGET, if refreshToken.Some? then Brought(refreshToken, lifetime) else Brought(None, None)),
             Cached(TOKENS), 0)
  {
    hide Stands, Enabled, Next, Broken;
    var step := Password(1, Failed, Ok("secret"), Granted(Response(refreshToken, lifetime), 0));
    var before;
    steps, before := LostRun(expiry);
    LogsIn(before, Response(refreshToken, lifetime));
    Takes(steps, before, Listed(Unless(ExpiresNoLater(None, expiry), LostOutlasts)), step);
    steps, now := steps + [step], Next(CFG, before, step);
  }

  lemma SavedRun(before: seq<Step>, s: System, breaches: seq<Clause>, tokens: TokenSet, clock: int)
    returns (steps: seq<Step>, now: System)
    requires Stands(before, s, breaches) && Behind(s, Unsaved(TARGET, tokens), Cached(TOKENS), clock)
    ensures Stands(steps, now, breaches) && Behind(now, Idle, Cached(tokens), clock)
    ensures now.procs[1].client == s.procs[1].client.(tokens := Some(tokens))
  {
    hide Stands, Enabled, Next, Broken;
    Saves(s, tokens, true);
    TakesQuietly(before, s, breaches, Step.Save(1, true));
    steps, now := before + [Step.Save(1, true)], Next(CFG, s, Step.Save(1, true));
  }

  /** Saved, and then so much later that what was saved has run out. */
  lemma ExpiredReplays(before: seq<Step>, s: System, clause: Clause, tokens: TokenSet, clock: nat, seconds: nat)
    returns (steps: seq<Step>, after: System)
    requires Stands(before, s, [clause]) && Behind(s, Unsaved(TARGET, tokens), s.cache, clock)
    requires NothingNewer(Cached(tokens), clock + seconds)
    ensures Replays(steps, after, clause, 2)
  {
    hide Stands, Broken, Enabled, NothingNewer;
    var now, later;
    Saves(s, tokens, true);
    TakesQuietly(before, s, [clause], Step.Save(1, true));
    steps, now := before + [Step.Save(1, true)], Next(CFG, s, Step.Save(1, true));
    TickIsQuiet(now, seconds);
    TakesQuietly(steps, now, [clause], Tick(seconds));
    steps, later := steps + [Tick(seconds)], now.(clock := clock + seconds);
    steps, after := SecondReplays(steps, later, clause);
  }

  lemma TickIsQuiet(now: System, seconds: nat)
    ensures Enabled(now, Tick(seconds)) && Broken(CFG, now, Tick(seconds)).None?
    ensures Next(CFG, now, Tick(seconds)) == now.(clock := now.clock + seconds)
  {
  }

  // ---------------------------------------------------------------- one run for each clause

  lemma ShortenedRotationReplays() returns (steps: seq<Step>, after: System)
    ensures Replays(steps, after, RotatedOutlasts, 2)
  {
    hide Stands, Replays;
    var s;
    steps, s := RotatedRun(Some(40));
    steps, after := ExpiredReplays(steps, s, RotatedOutlasts, Brought(Some("t1"), Some(40)), 0, 100);
  }

  lemma ShortenedLossReplays() returns (steps: seq<Step>, after: System)
    ensures Replays(steps, after, LostOutlasts, 2)
  {
    hide Stands, Replays;
    var s;
    steps, s := LoggedInRun(Some(40), Some("t2"), Some(40));
    assert [LostOutlasts] + [] == [LostOutlasts];
    steps, after := ExpiredReplays(steps, s, LostOutlasts, Brought(Some("t2"), Some(40)), 0, 100);
  }

  lemma ShortenedGrantReplays() returns (steps: seq<Step>, after: System)
    ensures Replays(steps, after, GrantedOutlasts, 2)
  {
    hide Stands, Replays;
    var s;
    steps, s := LoggedInRun(None, Some("t2"), Some(40));
    assert [] + [GrantedOutlasts] == [GrantedOutlasts];
    steps, after := ExpiredReplays(steps, s, GrantedOutlasts, Brought(Some("t2"), Some(40)), 0, 100);
  }

  lemma GrantWithoutRefreshReplays() returns (steps: seq<Step>, after: System)
    ensures Replays(steps, after, GrantBringsRefresh, 2)
  {
    hide Stands, Replays;
    var s;
    steps, s := LoggedInRun(None, None, None);
    assert [] + [GrantBringsRefresh] == [GrantBringsRefresh];
    steps, after := ExpiredReplays(steps, s, GrantBringsRefresh, Brought(None, None), 0, 100);
  }

  lemma FailedSaveReplays() returns (steps: seq<Step>, after: System)
    ensures Replays(steps, after, SaveIsWritten, 2)
  {
    hide Stands, Replays, Enabled, Next, Broken;
    var s;
    steps, s := RotatedRun(None);
    Saves(s, Brought(Some("t1"), None), false);
    Takes(steps, s, [], Step.Save(1, false));
    assert [] + [SaveIsWritten] == [SaveIsWritten];
    steps, after := SecondReplays(steps + [Step.Save(1, false)], Next(CFG, s, Step.Save(1, false)), SaveIsWritten);
  }

  lemma LogsOut(now: System)
    requires Placed(now, Idle)
    ensures Enabled(now, Logout(1)) && Broken(CFG, now, Logout(1)) == Some(NobodyLogsOut)
    ensures
      var after := Next(CFG, now, Logout(1));
      && Placed(after, Idle) && after.cache.None? && after.clock == now.clock && after.consumed == now.consumed
  {
  }

  lemma LoggingOutReplays() returns (steps: seq<Step>, after: System)
    ensures Replays(steps, after, NobodyLogsOut, 2)
  {
    hide Stands, Replays, Enabled, Next, Broken;
    var s;
    steps, s := RotatedRun(None);
    steps, s := SavedRun(steps, s, [], Brought(Some("t1"), None), 0);
    LogsOut(s);
    Takes(steps, s, [], Logout(1));
    assert [] + [NobodyLogsOut] == [NobodyLogsOut];
    steps, after := SecondReplays(steps + [Logout(1)], Next(CFG, s, Logout(1)), NobodyLogsOut);
  }

  lemma FailedPasswordReplays() returns (steps: seq<Step>, after: System)
    ensures Replays(steps, after, NoGivingUp, 1)
  {
    hide At;
    var lost;
    Opens();
    lost, after := GivingUpAfterLostRotationReplays(CFG, START, OPENING, GRANTING, 1, "t1");
    steps := OPENING + [lost] + [Password(1, Failed, Failed, Denied)] + Attempt(1);
  }

  predicate StopBreaks(phase: Phase, clause: Clause) {
    if phase.NeedPassword? then clause == NoStopBeforePassword else phase.Unsaved? && clause == NoStopBeforeSave
  }

  lemma Stops(now: System, phase: Phase, clause: Clause)
    requires Placed(now, phase) && CacheStale(now)
    requires StopBreaks(phase, clause)
    ensures Enabled(now, Stop(1)) && Broken(CFG, now, Stop(1)) == Some(clause)
    ensures
      var after := Next(CFG, now, Stop(1));
      && 2 in after.procs && after.procs[2] == Process(LOADED, Idle) && after.lock.None?
      && after.cache == now.cache && after.clock == now.clock && after.consumed == now.consumed
  {
  }

  lemma StoppedReplays(before: seq<Step>, s: System, phase: Phase, clause: Clause)
    returns (steps: seq<Step>, after: System)
    requires Stands(before, s, []) && Behind(s, phase, Cached(TOKENS), 0)
    requires StopBreaks(phase, clause)
    ensures Replays(steps, after, clause, 2)
  {
    hide Stands, Replays, Enabled, Next, Broken;
    Stops(s, phase, clause);
    Takes(before, s, [], Stop(1));
    assert [] + [clause] == [clause];
    steps, after := SecondReplays(before + [Stop(1)], Next(CFG, s, Stop(1)), clause);
  }

  lemma CrashBeforePasswordReplays() returns (steps: seq<Step>, after: System)
    ensures Replays(steps, after, NoStopBeforePassword, 2)
  {
    hide Stands, Replays;
    var s;
    steps, s := LostRun(None);
    steps, after := StoppedReplays(steps, s, NeedPassword(TARGET), NoStopBeforePassword);
  }

  lemma CrashBeforeSaveReplays() returns (steps: seq<Step>, after: System)
    ensures Replays(steps, after, NoStopBeforeSave, 2)
  {
    hide Stands, Replays;
    var s;
    steps, s := RotatedRun(None);
    steps, after := StoppedReplays(steps, s, Unsaved(TARGET, Brought(Some("t1"), None)), NoStopBeforeSave);
  }

  /** Invocation 2 goes on without the lock while invocation 1 holds it. */
  lemma Intrudes(now: System)
    requires now == GRANTING
    ensures
      var s1, s2, s3 := Move(now, 2, LOADED, Waiting(0)), Move(now, 2, LOADED, Entered(0)),
                        Move(now, 2, ASKING, Granting(0, TARGET, Some(TOKENS)));
      && Enabled(now, Begin(2)) && Broken(CFG, now, Begin(2)).None? && Next(CFG, now, Begin(2)) == s1
      && Enabled(s1, Lock(2, false)) && Broken(CFG, s1, Lock(2, false)) == Some(LockIsGranted)
      && Next(CFG, s1, Lock(2, false)) == s2
      && Enabled(s2, Step.Gate(2, Failed, true)) && Broken(CFG, s2, Step.Gate(2, Failed, true)).None?
      && Next(CFG, s2, Step.Gate(2, Failed, true)) == s3
  {
    var s1, s2, s3 := Move(now, 2, LOADED, Waiting(0)), Move(now, 2, LOADED, Entered(0)),
                      Move(now, 2, ASKING, Granting(0, TARGET, Some(TOKENS)));
    assert s1.procs[2 := Process(LOADED, Entered(0))] == s2.procs;
    assert s2.procs[2 := s3.procs[2]] == s3.procs;
  }

  lemma LateRotation(now: System)
    requires now == Move(GRANTING, 2, ASKING, Granting(0, TARGET, Some(TOKENS)))
    ensures
      var step := Refresh(1, Rotated(Response(Some("t1"), None), 0));
      && Enabled(now, step) && Broken(CFG, now, step).None?
      && var after := Next(CFG, now, step);
         && "t0" in after.consumed && Enabled(after, Refresh(2, Rejected))
         && Presented(after, Refresh(2, Rejected)) == Some("t0")
  {
  }

  lemma RefusedLockReplays() returns (steps: seq<Step>, after: System)
    ensures Replays(steps, after, LockIsGranted, 2)
  {
    hide Stands, Enabled, Next, Broken, Presented;
    Opens();
    Intrudes(GRANTING);
    var s1, s2, s3 := Move(GRANTING, 2, LOADED, Waiting(0)), Move(GRANTING, 2, LOADED, Entered(0)),
                      Move(GRANTING, 2, ASKING, Granting(0, TARGET, Some(TOKENS)));
    TakesQuietly(OPENING, GRANTING, [], Begin(2));
    Takes(OPENING + [Begin(2)], s1, [], Lock(2, false));
    assert [] + [LockIsGranted] == [LockIsGranted];
    TakesQuietly(OPENING + [Begin(2)] + [Lock(2, false)], s2, [LockIsGranted], Step.Gate(2, Failed, true));
    steps := OPENING + [Begin(2)] + [Lock(2, false)] + [Step.Gate(2, Failed, true)];
    LateRotation(s3);
    var step := Refresh(1, Rotated(Response(Some("t1"), None), 0));
    TakesQuietly(steps, s3, [LockIsGranted], step);
    steps, after := steps + [step], Next(CFG, s3, step);
  }

  /** Invocation 2 asks for a login in its turn and finds nothing in the cache file. */
  lemma FindsNothing(now: System)
    requires Placed(now, Idle) && now.clock == 0
    ensures
      var s1, s2, s3 := Move(now, 2, LOADED, Waiting(0)), Move(now, 2, LOADED, Entered(0)).(lock := Some(2)),
                        Move(now, 2, ASKING, Granting(0, TARGET, Some(TOKENS))).(lock := Some(2));
      && Enabled(now, Begin(2)) && Broken(CFG, now, Begin(2)).None? && Next(CFG, now, Begin(2)) == s1
      && Enabled(s1, Lock(2, true)) && Broken(CFG, s1, Lock(2, true)).None? && Next(CFG, s1, Lock(2, true)) == s2
      && Enabled(s2, Step.Gate(2, Failed, false)) && Broken(CFG, s2, Step.Gate(2, Failed, false)) == Some(CacheIsRead)
      && Next(CFG, s2, Step.Gate(2, Failed, false)) == s3
      && Enabled(s3, Refresh(2, Rejected)) && Presented(s3, Refresh(2, Rejected)) == Some("t0")
  {
    var s1, s2, s3 := Move(now, 2, LOADED, Waiting(0)), Move(now, 2, LOADED, Entered(0)).(lock := Some(2)),
                      Move(now, 2, ASKING, Granting(0, TARGET, Some(TOKENS))).(lock := Some(2));
    assert s1.procs[2 := Process(LOADED, Entered(0))] == s2.procs;
    assert s2.procs[2 := s3.procs[2]] == s3.procs;
  }

  lemma UnreadCacheReplays() returns (steps: seq<Step>, after: System)
    ensures Replays(steps, after, CacheIsRead, 2)
  {
    hide Stands, Enabled, Next, Broken, Presented;
    var s;
    steps, s := RotatedRun(None);
    steps, s := SavedRun(steps, s, [], Brought(Some("t1"), None), 0);
    FindsNothing(s);
    var s1, s2 := Move(s, 2, LOADED, Waiting(0)), Move(s, 2, LOADED, Entered(0)).(lock := Some(2));
    TakesQuietly(steps, s, [], Begin(2));
    TakesQuietly(steps + [Begin(2)], s1, [], Lock(2, true));
    Takes(steps + [Begin(2)] + [Lock(2, true)], s2, [], Step.Gate(2, Failed, false));
    assert [] + [CacheIsRead] == [CacheIsRead];
    steps := steps + [Begin(2)] + [Lock(2, true)] + [Step.Gate(2, Failed, false)];
    after := Move(s, 2, ASKING, Granting(0, TARGET, Some(TOKENS))).(lock := Some(2));
  }

  /** The first token is renewed with a shorter life, and saved. */
  lemma RenewedRun() returns (steps: seq<Step>, now: System)
    ensures Stands(steps, now, [RenewedOutlasts]) && Placed(now, Idle)
    ensures now.cache == Cached(Brought(Some("t0"), Some(1000))) && now.clock == 100
    ensures now.consumed == {} && now.issued == {"t0"} && now.top == Some(1000)
    ensures now.procs[1].client == ASKING.(tokens := Some(Brought(Some("t0"), Some(1000))))
  {
    hide Stands, Enabled, Next, Broken;
    var tokens := Brought(Some("t0"), Some(1000));
    var renew := Refresh(1, Renewed(Response(Some("t0"), Some(1000)), 0));
    Opens();
    Renews(Response(Some("t0"), Some(1000)));
    Takes(OPENING, GRANTING, [], renew);
    assert [] + [RenewedOutlasts] == [RenewedOutlasts];
    var s1 := Next(CFG, GRANTING, renew);
    Saves(s1, tokens, true);
    TakesQuietly(OPENING + [renew], s1, [RenewedOutlasts], Step.Save(1, true));
    var s2 := Next(CFG, s1, Step.Save(1, true));
    TickIsQuiet(s2, 100);
    steps := OPENING + [renew] + [Step.Save(1, true)];
    TakesQuietly(steps, s2, [RenewedOutlasts], Tick(100));
    steps, now := steps + [Tick(100)], Next(CFG, s2, Tick(100));
  }

  lemma ShortenedRenewalReplays() returns (steps: seq<Step>, after: System)
    ensures Replays(steps, after, RenewedOutlasts, 2)
  {
    hide At, Enabled, Next, Broken, Replays;
    var s, tokens := START, Brought(Some("t0"), Some(1000));
    steps, s := RenewedRun();
    assert NeedsLogin(CFG, s, 1);
    var s1 := NextAttemptPresents(CFG, START, steps, s, [RenewedOutlasts], 1);
    steps := steps + Attempt(1);
    var response := Response(Some("t1"), Some(900));
    Rotates(s1, tokens, response, 100);
    TakesQuietly(steps, s1, [RenewedOutlasts], Refresh(1, Rotated(response, 100)));
    var s2 := Next(CFG, s1, Refresh(1, Rotated(response, 100)));
    steps := steps + [Refresh(1, Rotated(response, 100))];
    steps, after := ExpiredReplays(steps, s2, RenewedOutlasts, FromResponse(response, 100, Some(tokens)), 100, 1000);
  }

  // ---------------------------------------------------------------- together

  /** No clause can be dropped: breaking it once, and no other, is enough for a replay. */
  lemma EachClauseIsNeeded(clause: Clause) returns (steps: seq<Step>, after: System, p: Pid)
    ensures Init(CFG, START) && Replays(steps, after, clause, p)
  {
    hide Replays, Init;
    Opens();
    p := if clause.NoGivingUp? then 1 else 2;
    match clause
    case LockIsGranted => steps, after := RefusedLockReplays();
    case CacheIsRead => steps, after := UnreadCacheReplays();
    case SaveIsWritten => steps, after := FailedSaveReplays();
    case NobodyLogsOut => steps, after := LoggingOutReplays();
    case RotatedOutlasts => steps, after := ShortenedRotationReplays();
    case RenewedOutlasts => steps, after := ShortenedRenewalReplays();
    case LostOutlasts => steps, after := ShortenedLossReplays();
    case GrantedOutlasts => steps, after := ShortenedGrantReplays();
    case GrantBringsRefresh => steps, after := GrantWithoutRefreshReplays();
    case NoGivingUp => steps, after := FailedPasswordReplays();
    case NoStopBeforePassword => steps, after := CrashBeforePasswordReplays();
    case NoStopBeforeSave => steps, after := CrashBeforeSaveReplays();
  }

  /** After a run that breaks only clauses in `allowed`, no step presents a rotated token. */
  predicate SafeRun(allowed: set<Clause>, cfg: Settings, s: System, steps: seq<Step>, next: Step) {
    Init(cfg, s) && Possible(cfg, s, steps) && (forall c | c in Breaches(cfg, s, steps) :: c in allowed)
    && Enabled(Reached(cfg, s, steps), next) && Presented(Reached(cfg, s, steps), next).Some? ==>
      Presented(Reached(cfg, s, steps), next).value !in Reached(cfg, s, steps).consumed
  }

  /** The exact condition: when an environment may break some of the clauses, and only those, no rotated
   *  token is ever presented if and only if it may break none. */
  lemma HypothesesAreExact(allowed: set<Clause>)
    ensures (forall cfg, s, steps, next :: SafeRun(allowed, cfg, s, steps, next)) <==> allowed == {}
  {
    if allowed == {} {
      forall cfg, s, steps, next
        ensures SafeRun(allowed, cfg, s, steps, next)
      {
        NoneAllowedIsSafe(cfg, s, steps, next);
      }
    } else {
      var clause :| clause in allowed;
      var steps, after, p := EachClauseIsNeeded(clause);
      hide Possible, Reached, Breaches, Enabled, Init, Presented;
      assert !SafeRun(allowed, CFG, START, steps, Refresh(p, Rejected));
    }
  }

  lemma NoneAllowedIsSafe(cfg: Settings, s: System, steps: seq<Step>, next: Step)
    ensures SafeRun({}, cfg, s, steps, next)
  {
    hide Reached, Breaches, Enabled, Init, Presented;
    if Init(cfg, s) && Possible(cfg, s, steps) && (forall c | c in Breaches(cfg, s, steps) :: c in {})
       && Enabled(Reached(cfg, s, steps), next) {
      NothingListed(Breaches(cfg, s, steps));
      NoConsumedTokenPresented(cfg, s, steps, next);
    }
  }

  lemma NothingListed(breaches: seq<Clause>)
    requires forall c | c in breaches :: c in {}
    ensures breaches == []
  {
    if breaches != [] {
      FirstIsListed(breaches);
    }
  }

  lemma FirstIsListed(breaches: seq<Clause>)
    requires breaches != []
    ensures breaches[0] in breaches
  {
  }
}
