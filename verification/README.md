# Verified model of the decentralization manager's clients

This project models the parts of the decentralization manager that run on the operator's and the wallet's side, and
proves what they promise:

- **Logging in** (`Tokens`, `TokenCache`, `LoginRules`, `DecmanClients`, `SharedLogin`, `ReplayRuns`,
  `LoginRefinement`). How one client of the node's API gets, refreshes, shares and drops tokens; the cache file; any
  number of invocations that share one cache file, one lock and one identity provider, interleaved step by step; and that
  every call of the client is a run of that step machine.
- **Wallet flows** (`WalletNetwork`, `WalletFlow`, `AcsRelay`). Onboarding a party on several hosts, changing its
  threshold, and adding hosts with the relay of the party's contracts, against hosts that may answer anything.
- **Identifiers** (`CantonIds`). Parsing and printing of Canton ids, their file form, prefixes and key fingerprints.
- **Governance forms** (`Composer`, `JsonPaths`, `Payloads`, `TypedFields`, `DeployForms`, `ThresholdForms`,
  `ListSelection`). The JSON payload of a composed form and the meaning of what was typed, the default quorum, the forms
  that change a threshold under any key sequence, and the selections of the list tabs.
- **Display** (`CivilDate`, `JsonLexer`). Timestamps as civil dates, and the JSON tokenizer.

`Texts` holds the string functions of the standard library that the others need, `Prelude` the shared result types.

State that the program updates in place is a class here (`DecmanClient`, `CacheDir`, `Screen`, `App` with one `TableState`
per tab); each method updates its fields and is proved equal to a function of the old state, and the theorems are about
that function. Flows that talk to hosts are methods over a `World` value: the hosts are one arbitrary function over an
arbitrary state, and the log records each call with its answer. HTTP, the clock, the password command, base64, SHA-256
and signing are parameters.

Where a promise does not hold for every input, the lemma gives the exact condition:

- The password is meant to go only to a freshly discovered target. `password_login` clears its flag before the discovery
  that may fail, so after a failed discovery the next call can send the password to the target read from the cache:
  exactly then, if that target may be called at all.
- Rotated refresh tokens are never presented again as long as locks and saves succeed, an invocation that holds a refresh
  token can read the saved login under the lock, nobody logs out, refresh expiry is never shortened, a password grant
  brings a refresh token, and no attempt ends between a rotation and the save. None of these twelve clauses can be dropped:
  breaking any one of them once is enough for a replay. The clock may be set back.
- The relay forwards a block's own number without comparing it to the one it asked for. The joiner ends up with the whole
  export exactly when the source echoes the numbers.
- A timestamp above 1,000,000,000,000 counts as milliseconds, so order is kept within a unit, not across the switch.
- The add and change forms add 1 to a 32-bit threshold. In a release build it wraps around once the owner count lets the
  highest threshold reach the 32-bit limit.
- A file with the plain form of an id is read back unless its prefix is `PAR` or starts with white space.

## Model

| member | source | states |
|---|---|---|
| `Tokens.GrantedTokensLast` | crates/decman-cli/src/auth.rs:124-161 | Granted tokens are usable until 30 seconds before the lifetime given, or for ever without one; an answer without a refresh token leaves the previous one with its expiry; dropping the access token ends it and leaves the refresh token. |
| `TokenCache.LoadForgetsOrIsOwn` | crates/decman-cli/src/auth.rs:202-259 | Over every sequence of saves and clears by any logins, colliding file names included, a load gives exactly that login's own last record, or nothing if and only if a login with the same file name wrote or cleared later: the file cache refines a per-login map that may only forget. |
| `TokenCache.CollisionForgets` | crates/decman-cli/src/auth.rs:202-231 | Two different logins do share a file name; after both save, the first reads nothing and the second its own record. |
| `TokenCache.Sanitized` | crates/decman-cli/src/auth.rs:202-214 | Character by character, ASCII letters and digits stay and everything else becomes an underscore. |
| `TokenCache.CollideExactly` | crates/decman-cli/src/auth.rs:202-214 | Two logins share a file if and only if URL, dash and username agree letter by letter and digit by digit, any other two characters looking alike. |
| `TokenCache.CacheDir.constructor` | crates/decman-cli/src/auth.rs:202-214 | An empty directory is the state after no operation. |
| `TokenCache.CacheDir.SaveLogin` | crates/decman-cli/src/auth.rs:234-259 | A save that succeeds is the specification's save, and is what the login loads next; one that fails changes nothing. |
| `TokenCache.CacheDir.LoadLogin` | crates/decman-cli/src/auth.rs:217-231 | Loading gives a record only when it is readable and belongs to the same URL and username. |
| `TokenCache.CacheDir.ClearLogin` | crates/decman-cli/src/auth.rs:290-296 | Clearing removes the file and tells whether there was one; a file that exists and cannot be deleted is an error and stays. |
| `LoginRules.ResolveAuthTarget` | crates/decman-cli/src/api.rs:1833-1893 | Whatever the server answers, a resolved target agrees with the explicit settings, so no saved login is one that a client with the same settings refuses; `DiscoveryExactly` and `DiscoveredPieces` say what it is. |
| `LoginRules.DiscoveryExactly` | crates/decman-cli/src/api.rs:1833-1893 | With a token URL and a client id given they are the target; otherwise no login is needed if and only if the node was asked and says so, and discovery fails if and only if the node could not be asked, or requires a login and leaves the client id or the endpoint open. |
| `LoginRules.DiscoveredPieces` | crates/decman-cli/src/api.rs:1847-1892 | The URL, client id and audience of a discovered target one by one: explicit settings win, Auth0 comes before Keycloak with its own URL shape, and only Auth0 brings an audience. |
| `LoginRules.KeycloakUrl` | crates/decman-cli/src/api.rs:720-726 | The Keycloak URL is the host without any slashes at its end, the realm and the fixed path. |
| `LoginRules.DifferingLoginIsIgnored` | crates/decman-cli/src/api.rs:815-846 | A cached login is ignored, at the start and later, if and only if an explicit setting differs from it; at the start any other is taken whole and marked as cached. |
| `LoginRules.AdoptsAccessExactly` | crates/decman-cli/src/api.rs:848-870 | A client without a valid access token has one after looking into the cache if and only if the cache holds another valid one of a login it may use; whatever is adopted comes from the cache. |
| `LoginRules.GateExactly` | crates/decman-cli/src/api.rs:1729-1750 | Before any grant: no grant is needed exactly when the cache brought a valid access token or the node needs no login, the call fails here exactly when the target is unknown and cannot be discovered, and otherwise a grant is tried at the known or discovered target with the tokens that were held. |
| `LoginRules.AdoptNeverRevivesAccess` | crates/decman-cli/src/api.rs:848-870 | Adopting the cached login never makes the rejected access token valid again. |
| `LoginRules.AdoptLeavesOnlyCachedRefresh` | crates/decman-cli/src/api.rs:848-870 | When no other refresh token the client holds outlasts the cached one, a refresh token still usable after adopting is the cached one. |
| `SharedLogin.StepKeepsInv` | crates/decman-cli/src/api.rs:1708-1796 | Every step of every invocation, of the cache file and of the provider keeps the invariant: one holder of the lock past the gate, every held refresh token is the cached one or runs out no later, a rotated token in the cache only while its holder still has to save. |
| `SharedLogin.NoConsumedTokenPresented` | crates/decman-cli/src/api.rs:1708-1771 | In every interleaving that keeps the hypotheses, loads that give nothing and a clock that is set back included, no step presents a refresh token that was rotated, and what it presents is the one in the cache file. |
| `SharedLogin.GivingUpAfterLostRotationReplays` | crates/decman-cli/src/api.rs:1750-1771 | From any point of any run at which an invocation may refresh: when the answer to its rotation is lost and its password login fails, the rotated token stays in the cache and the next attempt presents it. `ReplayRuns.FailedPasswordReplays` reaches such a point from the start. |
| `SharedLogin.LogoutReplays` | crates/decman-cli/src/api.rs:924-932 | From any point of any run at which an invocation holds a rotated token: after a logout elsewhere it presents that token. `ReplayRuns.LoggingOutReplays` reaches such a point from the start. |
| `ReplayRuns.EachClauseIsNeeded` | crates/decman-cli/src/api.rs:1708-1796 | For each of the twelve clauses of the hypotheses there is a run from a concrete initial state that breaks this clause once, breaks no other, and ends with a rotated token about to be presented. |
| `ReplayRuns.CrashBeforeSaveReplays` | crates/decman-cli/src/api.rs:1759-1770 | A stop between a rotation and its save does so too. |
| `ReplayRuns.CrashBeforePasswordReplays` | crates/decman-cli/src/api.rs:1750-1762 | A stop after a lost rotation and before the password login does so too. |
| `ReplayRuns.FailedPasswordReplays` | crates/decman-cli/src/api.rs:1759-1762 | A lost rotation and a failed password login leave the rotated token in the cache. |
| `ReplayRuns.GrantWithoutRefreshReplays` | crates/decman-cli/src/api.rs:1784-1796 | A password grant without a refresh token replaces nothing that the others hold. |
| `ReplayRuns.ShortenedGrantReplays` | crates/decman-cli/src/api.rs:1784-1796 | The same when a password grant brings the shorter life. |
| `ReplayRuns.ShortenedLossReplays` | crates/decman-cli/src/api.rs:1784-1796 | The same when the answer with the shorter life was lost and a password login followed. |
| `ReplayRuns.ShortenedRenewalReplays` | crates/decman-cli/src/api.rs:848-870 | The same after a renewal that shortens the life of the same token, two refreshes later. |
| `ReplayRuns.ShortenedRotationReplays` | crates/decman-cli/src/api.rs:848-870 | A rotated token that runs out before the one it replaced lets the old one be presented. |
| `ReplayRuns.LoggingOutReplays` | crates/decman-cli/src/api.rs:924-932 | A logout after a rotation leaves another invocation with the rotated token only. |
| `ReplayRuns.FailedSaveReplays` | crates/decman-cli/src/api.rs:1763-1770 | A rotation whose save fails leaves the rotated token to the others. |
| `ReplayRuns.RefusedLockReplays` | crates/decman-cli/src/api.rs:1716-1728 | Going on without the lock, while another invocation refreshes, replays a token. |
| `ReplayRuns.UnreadCacheReplays` | crates/decman-cli/src/api.rs:848-851 | An invocation that holds a rotated token and whose load gives nothing, because the file cannot be read, does not parse or was overwritten by a colliding login, presents that token. |
| `ReplayRuns.HypothesesAreExact` | crates/decman-cli/src/api.rs:1708-1796 | The exact condition: if the environment may break a given set of clauses and no others, no run of the step machine ever presents a rotated token if and only if that set is empty. |
| `DecmanClients.PasswordLoginKeepsTrust` | crates/decman-cli/src/api.rs:1784-1796 | A password login sends the password only to the latest discovered target, and leaves a target that may be trusted if and only if it did not fail to discover a cached one again. |
| `DecmanClients.AuthenticateKeepsTrust` | crates/decman-cli/src/api.rs:1708-1796 | The step of the proof for a whole `authenticate` call, whatever it is answered: passwords go to the latest discovered target, and the client ends trusted if and only if it did not fail to discover a cached target again. |
| `DecmanClients.PasswordOnlyToDiscoveredTarget` | crates/decman-cli/src/api.rs:815-870 | In every run in which discovering a cached target again never fails, every password went to the target of the client's latest discovery; `FailedRediscoveryExposes` is the other direction. |
| `DecmanClients.NextPasswordIsSafeExactly` | crates/decman-cli/src/api.rs:1784-1796 | On the passwords themselves: whatever the next call is answered, every password goes to the latest discovered target, if and only if the client is not exposed, that is, unless it may come to need a login and holds a callable target that it takes for discovered and that the latest discovery did not answer. |
| `DecmanClients.FailedRediscoveryExposes` | crates/decman-cli/src/api.rs:1784-1792 | Over runs: after any run without such a failure and one more call, the passwords of whatever call comes next are safe if and only if that one call did not fail to discover a cached target again, or left a target that may not be called. |
| `DecmanClients.CachedTargetCanGetPassword` | crates/decman-cli/src/api.rs:1784-1792 | Without that condition two calls suffice to send the password to a target that was only read from the cache. |
| `DecmanClients.LoginReplacesAccess` | crates/decman-cli/src/api.rs:1708-1771 | A login sends no request, and leaves an access token that was not valid before only if a grant brought that very string. |
| `DecmanClients.NoTokensMeansNoLogin` | crates/decman-cli/src/api.rs:1737-1748 | A call that succeeds and leaves no tokens: the client knew already that the node needs no login, or the node was asked and said so. |
| `DecmanClients.GrantsExactly` | crates/decman-cli/src/api.rs:1750-1812 | Which grants are tried and granted, in both directions: the refresh first, with the token held; the password only after a refresh that failed or could not be tried, and to which target; and the tokens each brings. |
| `DecmanClients.GrantedIsHeldAndSaved` | crates/decman-cli/src/api.rs:1759-1770 | A login that needed a grant succeeds if and only if it got one; then the client holds what was granted and it is saved; otherwise it holds and saves nothing. |
| `DecmanClients.RetryDoesNotRepeatRejectedToken` | crates/decman-cli/src/api.rs:1003-1018 | At most two requests are sent, the second only after a 401, and it carries the rejected token only if a grant in between answered with that string, whatever the cache file holds. |
| `DecmanClients.SendsExactly` | crates/decman-cli/src/api.rs:1003-1018 | The requests that are sent, exactly: none if the first login fails; one, with the bearer held after it, if its answer failed or was no 401 or the second login failed; otherwise two, the second with the bearer of the client that is left. The call succeeds if and only if its last login did and its last request was answered. |
| `DecmanClients.RetriesAfter401` | crates/decman-cli/src/api.rs:1012-1017 | After a 401 and with a refresh that would succeed, a second request is sent, with the refreshed access token. |
| `DecmanClients.DecmanClient.constructor` | crates/decman-cli/src/api.rs:786-812 | A new client has no target, no tokens and an empty log. |
| `DecmanClients.DecmanClient.UseTokenCache` | crates/decman-cli/src/api.rs:815-827 | Loading the cache is the specification's first step. |
| `DecmanClients.DecmanClient.Adopt` | crates/decman-cli/src/api.rs:848-870 | Adopting in place equals the specification. |
| `DecmanClients.DecmanClient.LoginWithPassword` | crates/decman-cli/src/api.rs:1784-1812 | The client and the log after a password login are the specification's, error paths included. |
| `DecmanClients.DecmanClient.ReachGate` | crates/decman-cli/src/api.rs:1729-1750 | The part of a login before any grant leaves the specification's state and log. |
| `DecmanClients.DecmanClient.Grant` | crates/decman-cli/src/api.rs:1750-1761 | Refresh first, password second, with the specification's outcome. |
| `DecmanClients.DecmanClient.EnsureAccess` | crates/decman-cli/src/api.rs:1708-1771 | The whole `authenticate` call equals the specification. |
| `DecmanClients.DecmanClient.Send` | crates/decman-cli/src/api.rs:1003-1018 | A request with its one retry equals the specification. |
| `LoginRefinement.RefreshedAlike` | crates/decman-cli/src/api.rs:1750-1760 | The refresh step of the step machine presents exactly the token that the client offers, and a granted answer leaves it the same tokens. |
| `LoginRefinement.PasswordAlike` | crates/decman-cli/src/api.rs:1784-1796 | The password step leads to the same target and tokens, or ends the attempt with the same client, as the client's password login. |
| `LoginRefinement.CallRefines` | crates/decman-cli/src/api.rs:1708-1771 | From every system state and for all answers of the lock, of loads and saves of the cache file, of the server and of the provider, the undisturbed steps of one invocation are possible and end with exactly the client, the cache file and the lock that one `authenticate` call ends with. |
| `LoginRefinement.OthersAlike` | crates/decman-cli/src/api.rs:924-932 | A rejected request and a logout change the client of a step as they change the client of a call. |
| `WalletNetwork.Ask` | crates/decman-wallet/src/client.rs:120-180 | A call adds exactly itself with its answer to a log that replays against the hosts. |
| `WalletFlow.PrepareAll` | crates/decman-wallet/src/flow.rs:161-179 | Hosts are asked in order and asking stops at the first that fails. |
| `WalletFlow.FirstDisagreement` | crates/decman-wallet/src/flow.rs:197-218 | The first host whose answer differs from the first host's in a field its flow compares, or none. |
| `WalletFlow.DisagreementExactly` | crates/decman-wallet/src/flow.rs:197-218 | Two answers count as different if and only if they are, and the detail names the first field that differs. |
| `WalletFlow.SignAll` | crates/decman-wallet/src/flow.rs:232-236 | Each signed message is the decoded hash at the same index; signing stops at the first failure, with a signing error exactly when the last message got no signature and a decoding error exactly when the next hash cannot be decoded. |
| `WalletFlow.SubmitAll` | crates/decman-wallet/src/flow.rs:246-264 | Every submitting host gets the one bundle in order whatever the others answer, with one report each, index by index. |
| `WalletFlow.PrepareSignSubmit` | crates/decman-wallet/src/flow.rs:134-272 | Any run against any hosts keeps the order, succeeds if and only if everything was agreed and signed, lines up its reports, and names the first reason when it fails. |
| `WalletFlow.ExecuteCoValidated` | crates/decman-wallet/src/flow.rs:134-272 | Onboarding needs two hosts. On the log: every host is asked in turn for this hint, key and threshold with exactly the other participants as peers; nothing is signed unless all answered alike with the party id derived from the key; each signature is over the hash whose turn it is; every host then gets the agreed transactions with these signatures. It succeeds exactly when all of that happened, fails after an agreement only in signing, and its reports line up. |
| `WalletFlow.RaiseThreshold` | crates/decman-wallet/src/flow.rs:629-718 | The same on the log of a change of threshold: every host is asked for this party, threshold and serial, and all must agree on transactions, hashes and serial. |
| `WalletFlow.DisciplinedLog` | crates/decman-wallet/src/flow.rs:161-264 | What discipline means on the log alone, position by position: who is asked, that everybody agreed before the first signature, what each signature is over, and what each submitter gets. |
| `WalletFlow.AgreementIsEnough` | crates/decman-wallet/src/flow.rs:197-236 | The converse: when every host answered alike, with the expected party id and as many hashes as transactions, signing begins. |
| `WalletFlow.SignedOnlyWhatEachHostReturned` | crates/decman-wallet/src/flow.rs:161-236 | With arbitrary other hosts, every message ever signed is the hash that host `k` itself returned at that index. |
| `WalletFlow.OneHonestHostIsEnough` | crates/decman-wallet/src/flow.rs:161-264 | With one honest host, each signature of a submitted bundle is over the hash of the bundle's own transaction, one that the honest host showed. |
| `WalletFlow.DisagreementSignsNothing` | crates/decman-wallet/src/flow.rs:642-693 | Two hosts with different transactions or hashes: nothing is signed or submitted. |
| `WalletFlow.LogOrder` | crates/decman-wallet/src/flow.rs:134-272 | In the log a signature comes after all prepares returned and agreed, a submit after one signature per transaction at the same index. |
| `AcsRelay.WaitForMarkerClear` | crates/decman-wallet/src/flow.rs:293-321 | At most forty polls; true exactly when `Hosted` was seen before another sleep would reach the deadline. |
| `AcsRelay.PolledForTwoMinutes` | crates/decman-wallet/src/flow.rs:293-320 | A joiner that answers at once and is never seen hosting is polled exactly forty times. |
| `AcsRelay.FindSource` | crates/decman-wallet/src/flow.rs:533-554 | Block 1 comes from the first source that serves it; none only if all refused. |
| `AcsRelay.RelayAcs` | crates/decman-wallet/src/flow.rs:508-603 | Every relay, whatever the hosts answer, is well formed: one source, blocks asked for in order, each imported before the next is asked for, completion only at the last; and the loop's own flags say whether it failed and whether the first block lacked the preflight. |
| `AcsRelay.RelayFollowsRoute` | crates/decman-wallet/src/flow.rs:508-600 | On the log of any relay: every export asks a source of the route for the next block of the party, for the joiner; every import goes to the joiner and carries the number, chunk, end, length, checksum and package ids that the export right before it brought, with the party and serial; only the joiner is polled. |
| `AcsRelay.RelayToAll` | crates/decman-wallet/src/flow.rs:491-604 | One relay for each joiner whose own submit succeeded and none for the others; the flags collected over the loop make `replicated` true exactly when all succeeded. |
| `AcsRelay.AddHosts` | crates/decman-wallet/src/flow.rs:374-613 | On the log: the current hosts are asked first and then the joining ones, all for this party, permission, serial and the joiners' participants in order; all must agree before anything is signed; the joining hosts alone get the bundle; then exports only of this party from its current hosts, each import passing on what the export right before it brought. `replicated` if and only if every joiner's submit, import and marker succeeded, and aligned reports. |
| `AcsRelay.ExportAfterSubmit` | crates/decman-wallet/src/flow.rs:491-604 | In the log of adding hosts every export for a joiner comes after that joiner's own submit, and that one succeeded. |
| `AcsRelay.PreflightListedOnce` | crates/decman-wallet/src/flow.rs:556-562 | The list names exactly the joiners whose first block lacked the preflight, each once and in order, also when several have one base URL. |
| `AcsRelay.CompletedRelayDeliversExport` | crates/decman-wallet/src/flow.rs:508-600 | The joiner is a machine over the import requests in the log. When it reports completion it was fed the one source's whole export in order, with no gap, duplicate or leftover, if and only if that source echoed the block numbers. |
| `AcsRelay.RelayEndsWithinExport` | crates/decman-wallet/src/flow.rs:588-599 | The relay stops at the end of an export, whatever the source would serve beyond it: it takes at most as many rounds as the export has blocks, and completes exactly when it took them all. |
| `AcsRelay.FaithfulRelayDelivers` | crates/decman-wallet/src/flow.rs:508-600 | From what hosts promise call by call, with any calls failing: for a completed relay the chunks of the accepted import requests, in log order, are the whole export of the one source, whatever session was left at the joiner. |
| `AcsRelay.RelayWithinExport` | crates/decman-wallet/src/flow.rs:508-603 | The run itself against such hosts: with a budget of the longest export the relay always ends, its flag says whether it succeeded, its log follows the route, and on completion the joiner was fed exactly that export. |
| `AcsRelay.RestartedNumberingLosesBlocks` | crates/decman-wallet/src/flow.rs:564-600 | A joiner that keeps its contract takes a second block numbered 1 again and completes with half of the export. |
| `AcsRelay.RelayFromRestarting` | crates/decman-wallet/src/flow.rs:508-600 | The run itself: against hosts that number so, the wallet's relay completes and counts as a success while the joiner was fed the second block only. |
| `CantonIds.DecodeEncode` | crates/common/src/canton_id.rs:26-42 | Decoding an encoded namespace gives its bytes back, and encoding gives lower-case digits, two per byte. |
| `CantonIds.Decodable` | crates/common/src/canton_id.rs:26-37 | A text can be decoded if and only if it is hex digits in pairs. |
| `CantonIds.EncodeDecode` | crates/common/src/canton_id.rs:26-42 | Encoding what was decoded gives the text back exactly when it was in lower case. |
| `CantonIds.ParseExactly` | crates/common/src/canton_id.rs:207-222 | What parsing accepts, said without splitting: a separable prefix, `::` and a namespace in hex. |
| `CantonIds.ParsePrint` | crates/common/src/canton_id.rs:207-248 | Parsing a printed id gives it back if and only if the prefix has no `::` and does not end in a colon. |
| `CantonIds.PrintParse` | crates/common/src/canton_id.rs:207-248 | Every parsed id has such a prefix and so round-trips, and prints to the parsed text exactly when its hex part was in lower case. |
| `CantonIds.FileRoundTrip` | crates/common/src/canton_id.rs:224-237 | The file form round-trips for exactly the same ids, the prefix `PAR` included. |
| `CantonIds.PlainFileRoundTrip` | crates/common/src/canton_id.rs:224-232 | The plain form in a file is read back exactly when in addition the prefix is not `PAR` and does not start with white space. |
| `CantonIds.AcceptedPrefixes` | crates/common/src/canton_id.rs:299-330 | The node's and the terminal client's prefix checks accept the same prefixes, and every id with an accepted prefix round-trips. |
| `CantonIds.PrefixRules` | crates/common/src/canton_id.rs:299-330 | Which prefixes are accepted, code point by code point, and the first rule that a refused one breaks. |
| `CantonIds.FingerprintsAreDigests` | crates/common/src/canton_id.rs:63-112 | A text is accepted as a fingerprint if and only if it is the multihash form of some 32-byte digest, and of one only. |
| `CantonIds.PartyIdParses` | crates/decman-wallet/src/signer.rs:44-53 | A party id derived from a key parses to its hint and fingerprint exactly when the hint is separable. |
| `CivilDate.CivilFromDaysIsInverse` | crates/decman-cli/src/ui.rs:785-795 | The civil-from-days arithmetic gives a valid Gregorian date whose forward day count is the day it started from. |
| `CivilDate.ShownIsTheMinute` | crates/decman-cli/src/ui.rs:773-796 | For every positive epoch the shown tuple is valid and the only valid one that counts forward to the same minute. |
| `CivilDate.ShownMinute` | crates/decman-cli/src/ui.rs:777-782 | Up to the limit the number counts seconds and the shown minute is a sixtieth of it; above it the shown minute is the number divided by 60,000. |
| `CivilDate.ShownInOrder` | crates/decman-cli/src/ui.rs:773-796 | Of two instants one shows an earlier tuple if and only if its minute is earlier. |
| `CivilDate.SameUnitInOrder` | crates/decman-cli/src/ui.rs:777-781 | Within seconds, and within milliseconds, a later epoch never shows an earlier tuple. |
| `CivilDate.MillisecondsBreakOrder` | crates/decman-cli/src/ui.rs:777-781 | Across the switch to milliseconds a larger epoch does show an earlier tuple. |
| `JsonLexer.ScanString` | crates/decman-cli/src/ui.rs:635-647 | A string ends behind its first quote that an even run of backslashes precedes, or with the line, a trailing backslash included. |
| `JsonLexer.NextSpan` | crates/decman-cli/src/ui.rs:631-680 | The span at a position is the string, key, number, keyword or maximal run without tokens that begins there. |
| `JsonLexer.HighlightJson` | crates/decman-cli/src/ui.rs:627-683 | For every line the spans are a lexing of it, each where the one before ends, and join back to the line. |
| `JsonLexer.LexingUnique` | crates/decman-cli/src/ui.rs:627-683 | A line has only one lexing. |
| `JsonLexer.PunctuationHasNoToken` | crates/decman-cli/src/ui.rs:671-700 | Spans hold the line's characters, and no position inside a punctuation span starts a token. |
| `JsonLexer.NumberIsOneSpan` | crates/decman-cli/src/ui.rs:658-667 | Every number of JSON's grammar is one span, whatever comes behind it that could not be a part of a number. |
| `JsonLexer.KeywordIsOneSpan` | crates/decman-cli/src/ui.rs:686-692 | Each of JSON's three keywords is one span, whatever surrounds it. |
| `JsonLexer.StringIsOneSpan` | crates/decman-cli/src/ui.rs:633-657 | Every string of JSON's grammar, escapes included, is one span, a key exactly when a colon comes behind it and any spaces. |
| `JsonPaths.LookupInserted` | crates/decman-cli/src/composer.rs:724-743 | An inserted value is found at its path, objects are found on the way to it, nothing below a plain value, and every path apart from it is as before. |
| `JsonPaths.InsertionsCommute` | crates/decman-cli/src/composer.rs:724-743 | Insertions at paths of which neither is on the way to the other commute, whatever was there. |
| `JsonPaths.ComparableDoNotCommute` | crates/decman-cli/src/composer.rs:724-743 | Where one path is on the way to the other the order shows. |
| `Composer.ParseRows` | crates/decman-cli/src/composer.rs:692-719 | The loop gives the records of the lines that are not blank, or fails at the first of the wrong width. |
| `Composer.BuildRecord` | crates/decman-cli/src/composer.rs:708-712 | The inner loop pairs columns and cells. |
| `Composer.RecordMeans` | crates/decman-cli/src/composer.rs:708-712 | A record has exactly the declared columns, and with distinct columns each holds its own cell. |
| `Composer.RowsAccepted` | crates/decman-cli/src/composer.rs:692-719 | Rows are accepted if and only if every line that is not blank has one comma fewer than there are columns; then there is one record per such line, with exactly the declared columns. |
| `Composer.RowsRoundTrip` | crates/decman-cli/src/composer.rs:692-719 | Printed rows of trimmed cells without commas and newlines are read back cell by cell. |
| `Composer.BlankField` | crates/decman-cli/src/composer.rs:644-719 | What a blank field does for every kind: left out when optional, refused or sent empty when not. |
| `Composer.WholeNumber` | crates/decman-cli/src/composer.rs:658-667 | A printed number is sent as that number exactly when it fits 64 bits, and refused otherwise. |
| `Composer.ListedLines` | crates/decman-cli/src/composer.rs:679-691 | A list field is sent as its lines in order. |
| `Payloads.BuildPayload` | crates/decman-cli/src/composer.rs:620-641 | The two loops succeed if and only if every field is valid, report the first invalid field otherwise, and give the specified payload; `TypedFields.PayloadMeans` says what that is for what was typed. |
| `Payloads.PayloadExactly` | crates/decman-cli/src/composer.rs:620-641 | With keys of which none is on the way to another and none is under `type`, the payload holds the type, each value at its key, nothing for a field left out, an object on the way to each value and at each dotted key's first segment, and nothing at any other path. |
| `Payloads.OrderDoesNotMatter` | crates/decman-cli/src/composer.rs:620-641 | Such fields give the same payload in every order, or are refused in every order. |
| `Payloads.TwoFieldOrder` | crates/decman-cli/src/composer.rs:635-639 | For two fields with values, the order is immaterial if and only if the keys are apart, or are one key with one value. |
| `TypedFields.TypedIsTrim` | crates/decman-cli/src/composer.rs:645-646 | Every value holds exactly one text with nothing but blanks around it, and that is what is read. |
| `TypedFields.ContentIsEntries` | crates/decman-cli/src/composer.rs:679-719 | A list or table reads the texts between the line breaks that are not blank: blanks around the whole, carriage returns and blank lines make no difference. |
| `TypedFields.EntriesTyped` | crates/decman-cli/src/composer.rs:679-685 | Lines typed with blanks around them give exactly the texts that are not blank, in order. |
| `TypedFields.CellsTyped` | crates/decman-cli/src/composer.rs:700-701 | The cells of a line are the texts between its commas, without the blanks around them. |
| `TypedFields.MeansExactly` | crates/decman-cli/src/composer.rs:644-721 | For every kind of field, against a reading that does not use the code: a text or picked id as typed, the two outcomes of a toggle, the five of a select, the numerals that are whole numbers of 64 bits and the texts that are not, lists, tables, blank and optional fields. A field is sent as what it means and as nothing else. |
| `TypedFields.PayloadMeans` | crates/decman-cli/src/composer.rs:620-641 | With separate keys the payload holds, at the path that a field's key spells out, the meaning of what was typed into that field, and a form is sent only if every field means something. |
| `TypedFields.TextIsSent` | crates/decman-cli/src/composer.rs:654-657 | In particular a filled text or picker field is sent as the text that was typed, without the blanks around it. |
| `Texts.ReadsExactly` | crates/decman-cli/src/composer.rs:663-666 | A text is read as a number if and only if it is a sign if wanted, zeros if wanted and the digits of a number that fits 64 bits. |
| `DeployForms.BuildDeployForm` | crates/decman-cli/src/app.rs:1266-1304 | The form lists participants and parties of the resolved members in one order, with the default threshold; it fails only if the packages or the members could not be fetched. |
| `DeployForms.DefaultIsQuorum` | crates/decman-cli/src/app.rs:1288-1291 | For every member count n of at least 1 the default t has 1 <= t <= n and 3t >= 2n, and is the smallest such t that is at least 2 where n is. |
| `DeployForms.QuorumsIntersect` | crates/decman-cli/src/app.rs:1288-1291 | Any two sets of that size share at least a third of the members. |
| `DeployForms.FreshFormIsValid` | crates/decman-cli/src/app.rs:1308-1355 | A form passes validation as built if and only if there is a package and a resolved member; the request has the members in one order, the default threshold and a day's timeout. |
| `DeployForms.ValidatesExactly` | crates/decman-cli/src/app.rs:1308-1355 | Any form, edited or not, passes if and only if it has a package, a member, a whole threshold between 1 and the number of members and a whole positive timeout; the request carries what the form says. |
| `DeployForms.FirstProblem` | crates/decman-cli/src/app.rs:1308-1337 | What is reported is the first thing that is wrong. |
| `ThresholdForms.Screen.OpenKickForm` | crates/decman-cli/src/app.rs:3124-3177 | Opening the kick form sets the form's fields to the specified ones, or shows a message, and sends nothing. |
| `ThresholdForms.Screen.OpenAddPartyForm` | crates/decman-cli/src/app.rs:3200-3250 | The same for the add-party form. |
| `ThresholdForms.Screen.OpenChangeThresholdForm` | crates/decman-cli/src/app.rs:3273-3295 | The same for the change-threshold form. |
| `ThresholdForms.Screen.Confirm` | crates/decman-cli/src/app.rs:3180-3313 | Confirming sends the selected candidate with the threshold shown, or nothing for an unchanged threshold, and closes the form. |
| `ThresholdForms.Screen.Press` | crates/decman-cli/src/app.rs:2093-2141 | The field updates of a key press amount to the specified step. |
| `ThresholdForms.Screen.PressAll` | crates/decman-cli/src/app.rs:2093-2141 | Pressing any keys on an opened form gives the specified run, and below the 32-bit limit sends at most one request, a sound one. |
| `ThresholdForms.KickableAre` | crates/decman-cli/src/app.rs:3141-3155 | The candidates for a kick are exactly the owner participants other than this node. |
| `ThresholdForms.AddableAre` | crates/decman-cli/src/app.rs:3216-3230 | The candidates to add are exactly the peers that are neither this node nor a member. |
| `ThresholdForms.RunKeepsOk` | crates/decman-cli/src/app.rs:2093-2141 | Every key sequence keeps the threshold between 1 and the highest one, a candidate selected, at most one request sent, and every request sound. |
| `ThresholdForms.RightsCountUp` | crates/decman-cli/src/app.rs:2107-2109 | At the 32-bit limit the right key counts up and wraps around. |
| `ThresholdForms.FormsSendOnlySound` | crates/decman-cli/src/app.rs:2093-2141 | Over every key sequence an opened form sends at most one request, with a threshold between 1 and the owner count after the operation and, for a change, different from the old one, if and only if its highest threshold is below the 32-bit limit; for a kick that always holds. |
| `ThresholdForms.EveryChoiceCanBeSent` | crates/decman-cli/src/app.rs:2093-2141 | The partner: on an opened form every candidate and every threshold in range can be chosen by some key sequence and sent in one request. |
| `ThresholdForms.SuggestedThreshold` | crates/decman-cli/src/app.rs:3160-3167 | The kick form opens with half of the remaining owners, rounded up. |
| `ThresholdForms.OpensExactly` | crates/decman-cli/src/app.rs:3124-3299 | A form opens if and only if there is something to do: another owner participant and two owners to kick, a peer that is no member to add, two owners to change. |
| `ThresholdForms.OpensWithOwnThreshold` | crates/decman-cli/src/app.rs:3237-3293 | The add and change forms open with the party's own threshold where it is in range, and go up to the owner count that there will be. |
| `ThresholdForms.SelfIsFirst` | crates/decman-cli/src/app.rs:3130-3135 | This node is the first peer marked as itself. |
| `ThresholdForms.KeysAlike` | crates/decman-cli/src/app.rs:2093-2141 | The letters and signs do what the arrows do, and escape closes the form without a request. |
| `ThresholdForms.OtherKeysDoNothing` | crates/decman-cli/src/app.rs:2093-2141 | Any other key does nothing. |
| `ThresholdForms.UpUndoesDown` | crates/decman-cli/src/app.rs:2096-2103 | The arrows up and down undo each other, and do nothing where there is nothing to select. |
| `ListSelection.ClampSelection` | crates/decman-cli/src/app.rs:706-712 | A table's own selection is kept in range in place. |
| `ListSelection.App.constructor` | crates/decman-cli/src/app.rs:1547-1578 | The tables are separate, and every tab's selection fits its empty list. |
| `ListSelection.App.Load` | crates/decman-cli/src/app.rs:1709-1739 | A successful update of a tab changes its list and clamps its own table as specified, and keeps all selections fitting. |
| `ListSelection.App.DrainUpdates` | crates/decman-cli/src/app.rs:1706-1742 | Any sequence of updates, failed ones included, amounts to the events of the successful ones. |
| `ListSelection.App.ResetSelection` | crates/decman-cli/src/app.rs:3478-3481 | The active table gets its first row selected, or none when it shows none. |
| `ListSelection.App.OnSearchKey` | crates/decman-cli/src/app.rs:2395-2418 | A search key changes the query of the active tab, if it has one, resets its selection, and keeps all selections fitting. |
| `ListSelection.App.SelectNext` | crates/decman-cli/src/app.rs:3484-3492 | Moving down the active table amounts to the specified step and keeps all selections fitting. |
| `ListSelection.App.SelectPrevious` | crates/decman-cli/src/app.rs:3495-3503 | The same for moving up. |
| `ListSelection.App.OnClick` | crates/decman-cli/src/app.rs:1945-1951 | A click selects a row that exists and nothing else. |
| `ListSelection.App.SwitchTo` | crates/decman-cli/src/app.rs:3411-3417 | Switching tabs changes no selection. |
| `ListSelection.SelectionsFit` | crates/decman-cli/src/app.rs:3453-3503 | Over every run of updates, searches, clicks and moves, each tab has a selection exactly when its filtered list is not empty, and then in range. |
| `ListSelection.FilterKeeps` | crates/decman-cli/src/app.rs:636-665 | A searchable tab shows exactly the items that fit its query, in their order. |
| `ListSelection.NextIsBelow` | crates/decman-cli/src/app.rs:3484-3503 | Next goes to the row below, from the last to the first; previous to the row above, from the first to the last; nothing else changes. |
| `ListSelection.TypedQuery` | crates/decman-cli/src/app.rs:2395-2418 | What is typed into the search box becomes the query, a backspace takes the last letter back, escape all of them, and each time the first row is selected. |
| `ListSelection.ClickSelects` | crates/decman-cli/src/app.rs:1945-1951 | A click on a row that is shown selects the item in it. |
| `ListSelection.OtherTabsStay` | crates/decman-cli/src/app.rs:1706-1740 | An event touches no tab but the one it is for. |
| `ListSelection.UpdateKeepsItemExactly` | crates/decman-cli/src/app.rs:706-712 | New data keep the selected item if and only if the tab then shows that item at the same index, or too few rows and that item first. |
| `ListSelection.AppendedRowsKeepItem` | crates/decman-cli/src/app.rs:706-712 | Rows that only grow at the end keep the selected item. |
| `ListSelection.ReorderedRowsMoveSelection` | crates/decman-cli/src/app.rs:706-712 | The same items in another order move the selection to another item. |
| `ListSelection.MovesUndo` | crates/decman-cli/src/app.rs:3484-3503 | Moving down and up again, or up and down, leaves everything as it was. |

## Left out

- The server: workflows, the Noise transport and the Canton side are not part of this model.
- HTTP, serde, TLS, base64, SHA-256 and Ed25519: each is a parameter that may answer or fail.
- File permissions, symbolic links, atomic file replacement and the password command: a load or save is told whether it succeeds.
- JsonPaths.InsertPath: is modelled on values; the walk through mutable references to nested maps, and so aliasing, is not captured.
- AcsRelay.RelayAcs: takes a budget of blocks, because the loop has no bound of its own against hosts that never end; `Unfinished` and `CutOff` mark a run looked at while it still went on, and correspond to no error of the source. For finite exports a budget of the longest cuts nothing off, by `RelayWithinExport`.
- AcsRelay.AddHosts: passes that budget on, so a run with an endless export ends in `CutOff`.
- Token lifetimes and clock readings are unbounded integers; an overflow of a 64-bit expiry time is not modelled.
- DeployForms.BuildDeployForm: computes the default threshold without 64-bit wrap-around, which would take more members than fit in memory.
- The identity provider issues fresh refresh token strings on rotation and on a password grant, and refreshes no rotated token; that, and one login with one set of explicit settings for all invocations, is built into the step machine of `SharedLogin` and is no clause.
- `merge_peers`, `statuses`, the field tables of the individual forms and the enum tables: they would only add easy members.
- Search matching: `ListSelection` takes as a parameter whether an item fits a query, so case folding is not modelled.
- Drawing, colours, the layout of tabs and the text of error messages; a click is modelled by the row index it falls on.
- The other overlays, mouse scrolling and tab-bar geometry: they would only add easy members.
