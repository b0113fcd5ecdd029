# XanhTab: a verified model

XanhTab is a single-user remote browser: a daemon (`xanhtabd`) pairs one controller, runs one disposable
browsing session for it, and asks a privileged helper (`xanhtab-netd`) to confine the browser's UID to one of
five egress modes. This project models those parts in Dafny and proves what they keep, over every interleaving
and every failure of their surroundings.

## What is modelled

- **The privileged network helper** (`NetPlans`, `NetTransition`, `NetSafety`, `NetProgress`, `NetAnswers`, `NetHelper`). The
  machine is an nft table with first-match rules, the interface `wg0`, policy-routing rules and routes. Every
  command has a meaning on it, including what it leaves behind when it fails; an nft script is one transaction.
  What the outside decides (does a command succeed, can it be spawned at all, does the deadline cut the helper off
  while it runs) is read from a *tape*, and an empty tape is a cancellation, so a statement about all tapes
  speaks of every prefix of every run. `NetHelper.Helper` is the helper as an object whose methods change the
  machine command by command; each method is tied to the functions the theorems are about.
- **Authentication** (`Auth`, `AuthRuns`, `AuthExact`). One-time pairing, the lockout, cookies and purpose-bound tickets.
  `Auth.AuthManager` is the object behind the lock; `AuthRuns` and
  `AuthExact` prove properties of all sequences of calls.
- **The session and the daemon** (`Session`, `SessionLaws`, `Lifecycle`, `LifecycleInv`, `LifecycleSteps`,
  `LifecycleTheorems`, `LifecycleBooks`, `LifecycleAdmission`, `LifecycleRecovery`, `LifecycleAutoBurn`,
  `LifecycleProgress`, `LifecycleGaps`, `LifecycleAbandoned`, `Daemon`, `DaemonReplies`). `Session.SessionManager` has
  one method per critical section. `Lifecycle` is a transition system whose steps are those critical sections and the backend calls: at most one operation
  holds the lifecycle lock, pairing, cookies, tickets, settings and the clock move between any two of its steps,
  every backend call may fail, and a request may be dropped at any await. The daemon may find a helper and a bridge
  that have served any requests of an earlier one. What the backends do is not assumed: an
  egress call is a request to the helper model with any tape, a browser call is a command to the bridge model with
  any fate, and either may get lost on the way, as may its answer. `Daemon.AppState` is the imperative daemon, whose
  methods pause between steps; each is proved to take exactly the steps of the transition system and to give
  exactly the answer that goes with them.
- **WireGuard profiles** (`WireGuardConfig`, `WireGuardValidator`, `WireGuardText`, `WireGuardNumbers`,
  `WireGuardGrammar`). The one-pass validator with its flags accepts exactly a declarative grammar, from characters
  to policy; numbers, prefixes and ports are stated against a printer, and the grammar line by line.
- **The blocklist** (`Blocklist`, `BlocklistTools`, `BlocklistLaws`, `BlocklistLines`): hosts files, compilation,
  merging, matching, and what a line, a domain and a match are as text.
- **The browser bridge** (`BrowserHistory`, `BrowserLaws`): back/forward history as a vector with a position, refining a zipper.

`Types` and `Text` hold shared values and the string operations of the original's standard library.

## Where the code does less than it says

Each of these is a theorem, not a conjecture, and the runs of `LifecycleGaps` exist in every configuration in which
they could matter.

- A helper without a committed mode reports that the browser is "held by the transition kill-switch". After a
  failed first kill-switch, or when the deadline strikes while the policy is being committed, that is not so
  (`NetSafety.HeldReportCanBeWrong`; `NetSafety.HeldReportExact` says exactly when it is).
- The lockout bound of five compared guesses per 30 seconds needs the guess that sets a lock not to read the clock
  before the first guess of its round. The code reads the clock before it takes the lock
  (`AuthRuns.LockoutNeedsOrderedReadings`; `AuthRuns.LockoutBound`).
- A burn, the clean-up of a failed start and a rollback reset the egress to Direct even when stopping the browser
  has failed; the mode the surviving browser was launched with is enforced afterwards exactly if it was Direct
  (`LifecycleGaps.BurnCanUnconfine`; `LifecycleTheorems.FailedStopThenReset`).
- A daemon that starts stops no browser that an earlier one has left running, and its first start may change the
  egress mode under it (`LifecycleGaps.RestartCanUnconfine`; `LifecycleTheorems.EgressCallUnderBrowser` says exactly
  when the browser's own mode is still enforced).
- After the bridge's deadline has cut a command off, a page can be opened without a new start, and then under
  Direct. The session stays active meanwhile, and the machine goes on enforcing the session's mode; the mode the
  browser was launched with is enforced exactly if no deadline has come since the last successful start, or that mode
  is Direct (`LifecycleGaps.DeadlineCanMismatch`; `LifecycleTheorems.RunningBrowserIsConfined`,
  `BrowserHistory.NavigationAfterDeadline`).
- A start or a switch whose request is dropped between two calls leaves the session starting or burning. Nothing but a
  burn gets it out of that phase, and until then every start is refused (`LifecycleAbandoned.StartCanBeAbandoned`;
  `LifecycleAbandoned.AbandonedUntilBurn`).
- A controller who changes a setting between the watchdog's look at the idle time and the burn loses the session all
  the same (`LifecycleGaps.AutoBurnInSpiteOfActivity`; `LifecycleAutoBurn.AutoBurnWasDue`).

A browser is called *stray* from the moment a failed stop or start leaves it, or a starting daemon finds it, until a
call leaves no browser or a start succeeds. What is promised of running browsers is promised of those that are not
stray.

## Model

| member | source | states |
|---|---|---|
| NetPlans.PolicyScriptMeaning | src/netd.rs:320-390 | the policy transaction of a mode, run on any existing table, leaves exactly that mode's rules whatever was there before, and fails on a missing table |
| NetPlans.KillScriptMeaning | src/netd.rs:153-167 | the kill-switch transaction leaves exactly one rule, the unconditional drop of the browser UID |
| NetPlans.PolicyRulesEnforce | src/netd.rs:320-390 | under first-match semantics the rules of a mode accept a packet if and only if the mode's design allows it: everything in Direct, the one TCP endpoint in Tor, Warp and Proxy, only wg0 in WireGuard |
| NetPlans.PolicyIsNotDrop | src/netd.rs:169-180 | no mode's rules are a kill-switch: each lets some packet of the browser through |
| NetTransition.RoutingKeepsFirewall | src/bin/xanhtab-netd.rs:334-392 | a plan without nft commands leaves the ruleset alone in every intermediate state, whatever fails |
| NetTransition.PlanBoundsRules | src/bin/xanhtab-netd.rs:334-392 | in every intermediate state of any run of a plan, each family has at most as many more UID rules as the plan has add commands, and routes exist only with wg0 |
| NetTransition.TeardownFacts | src/bin/xanhtab-netd.rs:279-320 | teardown ignores command failures, yet its success means no wg0 and no UID rule, because of its own checks; the ruleset never moves |
| NetTransition.StrictPlanCommitsAll | src/bin/xanhtab-netd.rs:334-392 | a plan run without tolerance completes only if every command has committed in turn |
| NetTransition.SetupFacts | src/netd.rs:182-252 | from a torn-down machine the WireGuard setup never exceeds one UID rule per family, and completing means interface, both routes and both rules are there |
| NetTransition.KillSwitchFacts | src/netd.rs:153-167 | the kill-switch touches the ruleset only; until its script commits the old rules stay, and it completes only with the drop rule installed |
| NetSafety.InnerFacts | src/bin/xanhtab-netd.rs:248-277 | from a dropping machine every state up to the policy commit drops; success makes firewall, interface, routes and rules all agree with the mode; an error leaves dropping |
| NetSafety.RecoverFacts | src/bin/xanhtab-netd.rs:229-238 | the recovery after a failed transition stays dropping in every state and never ends in success |
| NetSafety.AttemptFacts | src/bin/xanhtab-netd.rs:220-246 | the invariant of every intermediate state of a whole transition |
| NetSafety.NoLeakWindow | src/bin/xanhtab-netd.rs:220-277 | after the first kill-switch commits, every state but the last drops every browser packet; only the last may carry the requested policy; an error ends dropping unless that kill-switch never committed, and then rules and routing are untouched |
| NetSafety.HeldReportExact | src/bin/xanhtab-netd.rs:185-197 | after an unsuccessful transition the ruleset drops if and only if the machine dropped before or the script of the first kill-switch commits, unless teardown and preparation succeed and the deadline strikes in the policy transaction too late to keep it from committing |
| NetSafety.HeldReportCanBeWrong | src/bin/xanhtab-netd.rs:185-197 | a concrete run in which the helper reports the kill-switch while every packet is accepted |
| NetSafety.TransitionKeepsNetInv | src/bin/xanhtab-netd.rs:220-246 | every transition, failed or cancelled, keeps: a reported mode agrees with the machine, at most one UID rule per family in every intermediate state |
| NetSafety.InitializeEstablishes | src/bin/xanhtab-netd.rs:199-202 | a helper that starts at all starts dropping, without wg0 or UID rules, whatever an earlier instance left |
| NetSafety.ServeFacts | src/bin/xanhtab-netd.rs:140-154 | one request keeps the invariant, and a positive answer names the mode now enforced |
| NetSafety.FailClosedCommitment | src/bin/xanhtab-netd.rs:140-154 | after any run of requests, whatever fails or is cancelled, a reported mode is enforced packet for packet, with wg0, routes and UID rules present exactly in WireGuard mode |
| NetSafety.EnforcedModes | src/netd.rs:320-354 | a machine that enforces one mode enforces another if and only if both are pinned to the same policy; Direct and WireGuard share theirs with nobody |
| NetProgress.SmoothTransition | src/bin/xanhtab-netd.rs:220-277 | a transition with its endpoint or profile in order that meets no fault commits its mode |
| NetProgress.NeverStuck | src/bin/xanhtab-netd.rs:119-165 | after any run of requests, however it failed, the next fault-free request is granted and its mode enforced |
| NetAnswers.GrantExact | src/bin/xanhtab-netd.rs:220-277 | a transition is granted if and only if its mode is configured (an endpoint for Tor, Warp and Proxy, the proxy file agreeing with it, a valid profile for WireGuard) and event by event its commands run as they must: the kill-switch commits, teardown removes what was there, the inspections, the setup commands or the probe, and the policy transaction succeed |
| NetAnswers.AnswersExact | src/bin/xanhtab-netd.rs:140-197 | the answer to every request and the mode on record afterwards: an apply as GrantExact says, a reset as an apply of Direct, and a status query reports exactly the committed mode and changes nothing |
| NetAnswers.RunsAnswerExactly | src/bin/xanhtab-netd.rs:119-165 | the same for the next request after any run of requests |
| NetAnswers.GrantedIsConfigured | src/bin/xanhtab-netd.rs:248-277 | on any machine and any tape, a granted mode is configured, and a proxied one has had its endpoint answer the probe |
| NetAnswers.RefusedProfileStaysDown | src/bin/xanhtab-netd.rs:263-266 | with a profile that the validator refuses, or in any other mode, no state of the transition has wg0 unless it was there from the start, once gone it stays gone, and WireGuard is never granted |
| NetAnswers.DownAfterTeardown | src/bin/xanhtab-netd.rs:248-266 | and from the end of the teardown on there is no wg0 in any state |
| NetAnswers.TeardownExact | src/bin/xanhtab-netd.rs:279-296 | teardown succeeds exactly when every command runs to an exit, each one that has something to remove succeeds, and both inspections do |
| NetAnswers.TeardownOutcome | src/netd.rs:254-318 | what the teardown commands leave: exactly the rules, the interface and the routes whose own commands failed |
| NetAnswers.SmoothRecovery | src/bin/xanhtab-netd.rs:229-238 | a recovery without faults ends with the drop rule and nothing of WireGuard |
| NetAnswers.RefusalCleansUp | src/bin/xanhtab-netd.rs:220-246 | a request for a mode that is not configured, meeting no fault, is refused and leaves the machine dropping, without wg0 and UID rules, whatever it enforced before |
| NetHelper.Helper.RunCommands | src/bin/xanhtab-netd.rs:334-392 | the loop over commands goes through exactly the states of the plan's specification and ends as it says |
| NetHelper.Helper.PolicyRuleRemains | src/bin/xanhtab-netd.rs:298-320 | inspecting the rules succeeds only if the command does and no rule remains |
| NetHelper.Helper.TeardownWireguard | src/bin/xanhtab-netd.rs:279-296 | teardown with its checks, state by state |
| NetHelper.Helper.ProbeProxy | src/bin/xanhtab-netd.rs:322-332 | the probe changes nothing and may fail or be cancelled |
| NetHelper.Helper.PrepareMode | src/bin/xanhtab-netd.rs:250-268 | endpoint, profile and setup, state by state |
| NetHelper.Helper.ApplyPolicy | src/bin/xanhtab-netd.rs:248-277 | the inner transition, state by state |
| NetHelper.Helper.RestoreKillSwitch | src/bin/xanhtab-netd.rs:229-238 | the recovery, which never reports success |
| NetHelper.Helper.ChangeMode | src/bin/xanhtab-netd.rs:220-246 | the whole transition; a mode is on record afterwards if and only if it completed |
| NetHelper.Helper.Handle | src/bin/xanhtab-netd.rs:119-165 | one request changes machine and mode as specified, keeps the invariant, and answers positively only for an enforced mode |
| Auth.AuthManager.Rotate | src/auth.rs:100-120 | new material, a new generation, and nothing left of the old one; without randomness nothing changes |
| Auth.AuthManager.Exchange | src/auth.rs:158-209 | lockout, either secret, failure counting, consumption before the tokens are drawn |
| Auth.AuthManager.Login | src/auth.rs:211-238 | a cookie is accepted only while its session lives, with its CSRF token where one is required |
| Auth.AuthManager.Validate | src/auth.rs:240-255 | a context is current or not, after pruning |
| Auth.AuthManager.Issue | src/auth.rs:257-286 | tickets are issued to current contexts only |
| Auth.AuthManager.Consume | src/auth.rs:288-308 | presenting a ticket destroys it even when it is refused |
| Auth.AuthManager.Revoke | src/auth.rs:310-314 | all sessions and tickets go |
| Auth.AuthManager.InvalidateUnpublishedPairing | src/auth.rs:316-325 | unpublished material and everything else goes |
| Auth.AuthManager.PairingRecoveryRequired | src/auth.rs:327-340 | true exactly when pairing is used up and no session lives |
| Auth.AuthManager.PruneExpired | src/auth.rs:348-356 | exactly the expired and the older generations' entries go |
| AuthRuns.ReachableAuthInv | src/auth.rs:100-356 | in every reachable state an available pairing excludes sessions and tickets, at most one session exists, and everything stored carries the current generation |
| AuthRuns.SingleExchangePerGeneration | src/auth.rs:158-209 | two successful exchanges are separated by a rotation |
| AuthRuns.TicketsExact | src/auth.rs:257-308 | whatever the order of clock readings, a ticket is accepted if and only if it was issued for this purpose less than its lifetime ago, nothing destroyed it since and nothing that prunes read the clock past its expiry; it yields the context it was issued for |
| AuthRuns.TicketsInOrder | src/auth.rs:257-308 | with readings in order the condition on pruning goes without saying |
| AuthRuns.TicketSingleUse | src/auth.rs:288-308 | no ticket is accepted twice, whatever the order of clock readings |
| AuthRuns.CookiesExact | src/auth.rs:211-238 | whatever the order of clock readings, a cookie is accepted if and only if its exchange succeeded less than its lifetime ago, nothing revoked or rotated since, nothing that prunes read the clock past its expiry, and the CSRF token fits where required |
| AuthRuns.CookieOrigin | src/auth.rs:211-238 | the only-if half, which needs no fresh draws either |
| AuthRuns.CookiesInOrder | src/auth.rs:211-238 | with readings in order the condition on pruning goes without saying |
| AuthRuns.LockoutBound | src/auth.rs:158-184 | within one generation and before the exchange, wrong guesses whose readings span T are compared at most five times per started 30 seconds, provided no guess that sets a lock reads the clock before the first guess of its round |
| AuthRuns.LockoutInOrder | src/auth.rs:158-184 | in particular when the attempts read the clock in order, whatever other operations read |
| AuthRuns.LockoutNeedsOrderedReadings | src/auth.rs:158-184 | after any first rotation, a concrete run of wrong guesses with one stale reading in each round compares eleven within 30 seconds, where ten are allowed |
| AuthExact.ExchangesExact | src/auth.rs:158-209 | an attempt at pairing succeeds if and only if no lockout holds, it presents either secret of material that a rotation drew and nothing has used up or withdrawn since, and the tokens can be drawn; it yields those tokens |
| AuthExact.FifthGuessLocks | src/auth.rs:158-209 | four wrong guesses set no lock, the fifth locks for 30 seconds from its own reading; until then even the right secret is refused without effect, from that instant on it is accepted |
| AuthExact.RotationLiftsLockout | src/auth.rs:100-120 | new material is accepted at once by either of its secrets, whatever was locked or counted |
| AuthExact.ContextsExact | src/auth.rs:240-255 | a held context validates if and only if the exchange that made it is less than its lifetime ago and nothing revoked, rotated or pruned it since |
| AuthExact.GrantsExact | src/auth.rs:257-286 | a ticket is issued exactly to such contexts, if a token can be drawn, and is that token |
| AuthExact.RecoveryExact | src/auth.rs:327-340 | recovery is due if and only if pairing was offered at some time, no material is open and nobody is a controller any more |
| AuthExact.LoginRefusals | src/auth.rs:211-238 | a login is unauthorized exactly without a live cookie and fails on its CSRF token exactly with one, where it is required, missing or wrong |
| Session.PushKeepsLastEntries | src/session.rs:453-461 | pushing onto the last 128 entries of a log gives the last 128 of the longer log |
| Session.SessionManager.constructor | src/session.rs:73-105 | a new session is idle with the initial settings |
| Session.SessionManager.NavigationAllowed | src/session.rs:416-427 | http and https URLs are refused exactly when the blocklist is enabled and matches their host |
| Session.SessionManager.Push | src/session.rs:453-461 | the oldest entry goes when 128 are held |
| Session.SessionManager.StartBegins | src/session.rs:116-137 | phase, blocklist and lease are checked before anything changes |
| Session.SessionManager.StartFinishes | src/session.rs:162-165 | the session becomes active and its URL enters the history |
| Session.SessionManager.Fails | src/session.rs:406-414 | the phase becomes failed and the failure is recorded, nothing else |
| Session.SessionManager.BurnBegins | src/session.rs:186-192 | an idle session is left alone, any other becomes burning |
| Session.SessionManager.BurnFinishes | src/session.rs:206-222 | settings, lease and history are reset in either case; the phase says whether everything was clean |
| Session.SessionManager.NavigateBegins | src/session.rs:236-243 | only the active lease holder gets past, and counts as active even when the URL is blocked |
| Session.SessionManager.NavigateFinishes | src/session.rs:245-249 | an explicit navigation sets the URL and enters the history |
| Session.SessionManager.Set | src/session.rs:256-304 | settings change only for the active lease holder; a threshold over a day is refused first |
| Session.SessionManager.SwitchBegins | src/session.rs:316-328 | the active lease holder's session becomes burning |
| Session.SessionManager.SwitchFinishes | src/session.rs:384-392 | new id and mode, history restarted with the shown URL |
| Session.SessionManager.RollbackFinishes | src/session.rs:356-379 | new id, previous mode, history restarted with the shown URL |
| Session.SessionManager.SwitchFails | src/session.rs:357-367 | history cleared and failed |
| SessionLaws.StartDecision | src/session.rs:115-137 | a start is refused exactly for its phase, then for a blocked page while the list is on, then for the lease; an accepted one takes the lease and id and keeps every setting |
| SessionLaws.LeaseDecision | src/session.rs:437-451 | whoever does not hold the lease gets a lease conflict, the holder of a session that is not active is told so |
| SessionLaws.NavigateDecision | src/session.rs:231-246 | a navigation is refused exactly for the lease, then for a blocked page while the list is on; a blocked one counts as activity and changes nothing else |
| SessionLaws.NavigationOutcome | src/session.rs:244-255 | a finished visit is the page shown and the newest entry; other commands change nothing |
| SessionLaws.SettingDecision | src/session.rs:256-304 | an accepted setting has the value asked for and no other moves; a threshold over 86400 seconds is refused whoever asks |
| SessionLaws.SwitchDecision | src/session.rs:311-330 | a switch is refused like a setting; an accepted one suspends the session and changes nothing else |
| SessionLaws.SwitchOutcome | src/session.rs:331-396 | after a switch or a rollback the same page, profile and settings under the mode reached, with a new id and a history of one page |
| SessionLaws.FailureOutcome | src/session.rs:406-414 | a failure keeps page, settings and lease, a failed switch forgets the history too; a burn leaves an idle session alone |
| LifecycleSteps.ActionKeepsInv | src/lib.rs:43-151 | every step of every operation, and everything that runs beside it, keeps the invariant |
| LifecycleSteps.RunsKeepInv | src/lib.rs:43-151 | so does every interleaving |
| LifecycleTheorems.ReachableInv | src/main.rs:86-137 | every state that any interleaving reaches has the invariant, from any start-up, a restarted daemon's beside a used helper and a used bridge included |
| LifecycleTheorems.LeaseBelongsToGeneration | src/lib.rs:43-134 | in every reachable state the lease is held by the one client that paired in the current generation, or by nobody |
| LifecycleTheorems.NoLeaseConflict | src/session.rs:429-443 | an operation whose context was validated never meets a lease conflict, so a burn never rotates the pairing and leaves the session to somebody else |
| LifecycleTheorems.OnlyTheCurrentClientActs | src/api.rs:224-333 | every successful setting, ticket or step of an operation, also on the paths without lock or validation, is the current generation's client's |
| LifecycleTheorems.OnlyTheCurrentClientConnects | src/api.rs:479-512 | the same for a WebSocket that consumed a ticket earlier and looks at the lease now |
| LifecycleTheorems.PhasesCohere | src/session.rs:115-254 | idle means no id, URL, lease or history; active means id, URL and lease and no failure; a switch never ends in session-not-active after it has set burning; the second half of a navigation only ever meets an active session |
| LifecycleTheorems.HistoryRefinesLog | src/session.rs:453-461 | the history is the last 128 visits since the last clear; empty while idle, starting or failed; ends with the shown URL while active |
| LifecycleTheorems.ActiveSessionIsEnforced | src/session.rs:115-169 | while a session is active the last successful browser start was for its id and mode, the last successful egress call for its mode, and the helper's machine accepts exactly the packets of that mode |
| LifecycleTheorems.RunningBrowserIsConfined | src/session.rs:311-396 | in every state of every interleaving the machine enforces the mode of the last successful start under any running browser that is not stray, one relaunched by a navigation included; the mode that browser was launched with is enforced if and only if no bridge deadline has cut a command off since that start or the mode is Direct |
| LifecycleTheorems.RelaunchAfterDeadline | src/bin/xanhtab-browser.rs:86-112 | a navigation cut off by the deadline leaves the session active without a browser; the next page is launched under Direct, behind the session's policy |
| LifecycleTheorems.NoEgressChangeUnderBrowser | src/session.rs:311-396 | no step changes the machine under a running browser that is not stray, relaunched ones included |
| LifecycleTheorems.EgressCallUnderBrowser | src/session.rs:139-396 | an egress call granted under a running browser, stray as it is, leaves the mode asked for enforced, so the browser's own mode is enforced if and only if it shares that policy |
| LifecycleTheorems.FailedStopThenReset | src/session.rs:185-205 | in a burn, after a failed start and in a rollback, a failed stop followed by a granted reset leaves the surviving browser under Direct, so its own mode is enforced if and only if that is Direct |
| LifecycleBooks.BrowserIsAsAsked | src/session.rs:139-169 | in every reachable state, when a start, a switch or a rollback is about to finish, the bridge runs exactly the page of the session, in its profile, under its mode, the mode asked for or the previous one |
| LifecycleBooks.ActiveWithItsBrowser | src/session.rs:331-396 | so every step that makes a session active leaves it with the browser its snapshot names |
| LifecycleBooks.CallsInOrder | src/session.rs:115-396 | at every step the calls made so far are exactly those of the operation in their order, each after the success of the one before, with the clean-up that fits the first failure |
| LifecycleBooks.IdIsTheNamedOne | src/lib.rs:153-161 | past its check an operation works on the session whose id the request named |
| LifecycleBooks.SettingsAndFlags | src/session.rs:51-105 | an idle session, at start-up and after every burn, has the blocklist on and the configured settings; failure and controller flags agree with phase and lease |
| LifecycleBooks.BurnRestoresSettings | src/session.rs:206-229 | a burn restores the configured settings and turns the blocklist on, clean or not |
| LifecycleBooks.BridgeIsTold | src/session.rs:139-255 | what each step sends to the bridge: the page, profile and mode of the session on a launch, the command itself on a navigation, otherwise nothing or a stop |
| LifecycleBooks.ActionKeepsBooks | src/lib.rs:43-151 | every action of anything keeps these books |
| LifecycleAdmission.BlockedExact | src/session.rs:416-427 | a URL is blocked if and only if it is http or https and its normalised host is a listed domain or ends in a dot and one |
| LifecycleAdmission.BlockedIsRefused | src/session.rs:115-137 | while the list is on, a start or a visit of a blocked page releases the lock and leaves backends, snapshot, lease and history as they were |
| LifecycleAdmission.AllowedIsAdmitted | src/session.rs:231-246 | a page that is not barred goes on to its first call |
| LifecycleAdmission.RunsConfined | src/lib.rs:43-75 | over every run, everything logged, shown or known to the bridge was admitted before |
| LifecycleAdmission.OnlyAdmittedIsVisited | src/session.rs:115-255 | from any start-up, every URL that is logged or shown, and every page the bridge did not know from an earlier daemon, was let through at some step of the run, at which it was not blocked or the list was off |
| LifecycleRecovery.BurnIsAllOrFailed | src/session.rs:185-229 | a burn has attempted stop, reset and clear whatever failed, forgets the session either way, is idle if and only if all succeeded, and cannot be dropped before revocation and rotation |
| LifecycleRecovery.IdleOnlyAfterCleanBurn | src/session.rs:185-229 | the only way into idle is a burn whose three calls have just succeeded |
| LifecycleRecovery.BurnedGenerationIsOver | src/lib.rs:124-134 | whenever no operation is under way, the generation whose session was burned is rotated away or has nothing left to present |
| LifecycleRecovery.AlwaysAWayIn | src/lib.rs:105-151 | whenever no operation is under way, the hand-off file holds exactly the accepted material, or a live session exists, or recovery is due |
| LifecycleRecovery.RecoveryStarts | src/lib.rs:105-110 | the watchdog's check lets a recovery through if and only if recovery is required |
| LifecycleRecovery.RecoveryNeedPersists | src/auth.rs:327-340 | once recovery is required it stays required through every step of anything until a burn rotates the pairing, and that ends it |
| LifecycleRecovery.FaultFreeRecovery | src/lib.rs:105-122 | beside any other activity, a recovery without faults ends within nine steps idle with a new generation published, from any phase, stranded ones included |
| LifecycleRecovery.RecoveryCompletes | src/lib.rs:105-122 | the same from the moment the watchdog looks, in any reachable state in which recovery is required |
| LifecycleProgress.StartCanSucceed | src/session.rs:115-169 | from every reachable state in which nothing runs, failed ones included, a run leads on to a session started by a current controller on an allowed page: active, with the lease its own, the mode enforced, and the browser on that page in the profile and mode of the session |
| LifecycleProgress.PairAndStart | src/auth.rs:158-209 | so for whoever reads an open hand-off file: wait out a lockout, exchange the secret, use the cookie, start |
| LifecycleProgress.BurnCanFinish | src/session.rs:185-229 | a burn past its checks that has met no fault can be brought to idle with new pairing material published |
| LifecycleProgress.BurnAndPair | src/lib.rs:77-86 | a current controller can burn whatever session there is, one stranded in starting or burning included |
| LifecycleProgress.RecoverAndPair | src/lib.rs:105-122 | when recovery is required it can be carried through from any phase |
| LifecycleProgress.NoDeadEnd | src/lib.rs:43-151 | from every reachable state in which no operation is under way, whatever failed, was dropped or was stranded, a run leads on to an active session on any page that is not blocked, with its mode enforced |
| LifecycleGaps.BurnCanUnconfine | src/session.rs:194-205 | wherever sessions start in a mode other than Direct, some run leads to a burn whose lost stop and granted reset leave the browser running with its mode not enforced |
| LifecycleGaps.DeadlineCanMismatch | src/bin/xanhtab-browser.rs:340-347 | and some run leads to an active session whose browser, after a deadline and a visit, was launched under Direct while the session's mode is enforced |
| LifecycleGaps.RestartCanUnconfine | src/main.rs:86-137 | for any two configured modes with policies of their own, some restarted daemon's first egress call takes the enforced mode from a browser that an earlier daemon left |
| LifecycleGaps.AutoBurnInSpiteOfActivity | src/lib.rs:88-103 | wherever inactivity burns at all, some run burns a session that was active at that very instant |
| LifecycleAbandoned.DropAbandons | src/lib.rs:43-75 | a request dropped between two calls of a start or a switch leaves the session in its phase with the lock free |
| LifecycleAbandoned.ActionKeepsAbandoned | src/session.rs:115-396 | every action but the beginning of a burn leaves such a session in its phase |
| LifecycleAbandoned.AbandonedUntilBurn | src/session.rs:115-396 | so over every run: if the phase has changed, a burn has begun |
| LifecycleAbandoned.StartCanBeAbandoned | src/lib.rs:43-51 | a run to such a session exists for every configuration and every page that is not blocked |
| LifecycleAutoBurn.AutoBurnWasDue | src/lib.rs:88-103 | in every run an inactivity burn commits only after a check that found the threshold passed, with no step of an operation in between; the last activity is still the one it saw unless a setting was accepted since, and then it is no earlier than the check |
| LifecycleAutoBurn.ThresholdWasSet | src/lib.rs:88-97 | the threshold compared is the number of seconds that was set when the watchdog looked |
| LifecycleAutoBurn.WatchdogDecides | src/lib.rs:88-103 | the watchdog burns exactly an active session with a threshold that has been idle for that many seconds, and changes nothing otherwise |
| LifecycleAutoBurn.ActivityExact | src/session.rs:231-304 | which actions count as activity, and that they count at their own instant |
| Daemon.AppState.constructor | src/main.rs:117-137 | start-up draws and publishes the first pairing material and leaves the helper and the bridge as it finds them |
| Daemon.AppState.RunOther | src/api.rs:224-333 | each request outside the lifecycle lock, run by the managers, does what its step in the transition system does |
| Daemon.AppState.Pause | src/lib.rs:48-50 | between two steps other requests run, and the request goes on or, at an await, disappears |
| Daemon.AppState.StartSession | src/lib.rs:43-51 | the whole operation takes exactly the steps of the transition system and gives exactly its answer, beside any script of interference, failures and dropping |
| Daemon.AppState.Open | src/session.rs:139-169 | apply, start and the clean-up that fits the failure |
| Daemon.AppState.CleanUpStart | src/session.rs:139-160 | reset and clear whatever failed, then fail the session |
| Daemon.AppState.Navigate | src/lib.rs:53-63 | as for StartSession |
| Daemon.AppState.SwitchEgress | src/lib.rs:65-75 | as for StartSession |
| Daemon.AppState.Reopen | src/session.rs:331-341 | stop, reset, clear, apply, start, up to the first failure |
| Daemon.AppState.Restore | src/session.rs:343-356 | the same for the previous mode, ignoring a failed stop |
| Daemon.AppState.RollBack | src/session.rs:343-382 | an unsuccessful switch ends rolled back or failed and is reported as unavailable |
| Daemon.AppState.BurnUnchecked | src/session.rs:185-229 | each of the three calls is made whatever the others did, and the outcome is kept for after the rotation |
| Daemon.AppState.RevokeAndRotate | src/lib.rs:130-151 | revocation, rotation, publication and withdrawal without a point where the request can be dropped |
| Daemon.AppState.BurnAndRotate | src/lib.rs:124-134 | the burn's failure is reported first, the rotation's second |
| Daemon.AppState.BurnControllerSession | src/lib.rs:77-86 | as for StartSession, the lease conflict that still rotates included |
| Daemon.AppState.AutoBurnIfDue | src/lib.rs:88-103 | as for StartSession, with phase and idle time looked at separately |
| Daemon.AppState.RecoverExpiredAuth | src/lib.rs:105-122 | as for StartSession |
| Daemon.ProceedIsReachable | src/lib.rs:43-151 | an operation run to its end beside anything the world can do stays within the reachable states |
| Daemon.OperationStaysReachable | src/lib.rs:43-151 | so whatever is proved of reachable states holds when an operation of the daemon returns |
| DaemonReplies.AnswersAreTrue | src/lib.rs:43-161 | every answer of every operation, beside any interference, is true of the state it leaves: a start or a switch reported done leaves an active session of the caller with its browser on the page, profile and mode it names and that mode enforced; a burn reported done leaves idle with new material published; each refusal names a condition that holds, and an unauthorized caller is one |
| DaemonReplies.LastStep | src/lib.rs:43-151 | an operation that is not dropped ends with a step from a reachable state for the request it was acquired with, and answers what that step answers |
| WireGuardConfig.ValidateCidrList | src/egress.rs:242-272 | succeeds if and only if every piece is a CIDR of its family, and reports a default exactly if some piece is one |
| WireGuardConfig.EndpointGrammar | src/egress.rs:299-320 | the endpoint check accepts exactly `host:port` and `[IPv6]:port` with a port from 1 to 65535 |
| WireGuardConfig.RenderInjective | src/egress.rs:95-230 | a profile describes at most one configuration |
| WireGuardValidator.ScanInterface | src/egress.rs:165-189 | one Interface directive: which are refused, which flags move |
| WireGuardValidator.ScanPeer | src/egress.rs:190-214 | one Peer directive: which are refused, which flags move |
| WireGuardValidator.HeaderStep | src/egress.rs:130-154 | what a section header does to the verdict on the lines still to come |
| WireGuardValidator.Scan | src/egress.rs:95-230 | the loop's flags decide the verdict on the remaining lines at every iteration |
| WireGuardValidator.VerdictSound | src/egress.rs:95-230 | what the scan accepts is a rendering of a valid configuration with that policy |
| WireGuardValidator.VerdictComplete | src/egress.rs:95-230 | every rendering of every valid configuration is accepted with its policy |
| WireGuardValidator.ValidateWireGuardConfig | src/egress.rs:95-230 | success if and only if the text describes a valid configuration: one Interface with exactly one PrivateKey, exactly one Table=off and an Address, then peers with exactly one PublicKey, exactly one Endpoint and an AllowedIPs each, only listed keys with valid values, some default route; the flags are the disjunction over all peers |
| WireGuardText.DirectiveLine | src/egress.rs:122-163 | exactly which lines read as a directive: any spacing, any letter case of the key, any comment |
| WireGuardText.PrintedTextDescribes | src/egress.rs:95-230 | printing a configuration and reading it back gives that configuration |
| WireGuardText.HeaderLine | src/egress.rs:122-154 | exactly which lines open an Interface or a Peer section: the name in brackets, in any letter case, with spacing and comment |
| WireGuardText.EmptyLine | src/egress.rs:122-127 | exactly which lines are skipped: white space and a comment |
| WireGuardText.LinesOfText | src/egress.rs:122 | a text is read as its lines whichever line ends it uses, the last one terminated or not |
| WireGuardNumbers.ParseUnsignedExact | src/egress.rs:274-297 | a text reads as a number if and only if it is its decimal text, after an optional plus sign and zeros, and the number is in range |
| WireGuardNumbers.DecimalReads | src/egress.rs:274-297 | the decimal text of every number reads as that number if it is in range and not at all otherwise |
| WireGuardNumbers.NumbersExact | src/egress.rs:274-297 | a numeral passes as a port exactly from 1 to 65535, as an MTU exactly from 576 to 9000, as a keepalive exactly up to 65535 |
| WireGuardNumbers.OnlyNumerals | src/egress.rs:274-297 | and nothing but a numeral does |
| WireGuardNumbers.ParseCidrExact | src/egress.rs:242-268 | a list piece reads as an address with its prefix exactly when, blanks aside, it is that address, a slash and a numeral of at most 32 or 128 |
| WireGuardNumbers.CidrReads | src/egress.rs:242-268 | an address and a prefix in decimal are accepted exactly if the address parses and the prefix is at most 32 or 128, and are a default exactly for the unspecified address and 0 |
| WireGuardNumbers.EndpointReads | src/egress.rs:299-320 | a host name or a bracketed IPv6 address with a port in decimal is an endpoint exactly for a port from 1 to 65535 |
| WireGuardGrammar.ProfileExact | src/egress.rs:95-230 | the configurations accepted are exactly those of the documented grammar written out line by line, and the policy names the families with a default route |
| WireGuardGrammar.ListExact | src/egress.rs:242-272 | a list joined from parts is accepted exactly if every part is an address with its prefix |
| WireGuardGrammar.HooksAreRefused | src/egress.rs:185-187 | no configuration with DNS, PreUp, PostUp, PreDown, PostDown or SaveConfig anywhere is valid |
| BlocklistTools.Matcher.Contains | src/blocklist.rs:45-56 | true if and only if some label-aligned suffix of the normalised host is listed; hits count exactly the matches |
| BlocklistTools.SetBuilder.Append | src/blocklist.rs:94-99 | insertion succeeds exactly in strictly ascending order |
| BlocklistTools.WriteList | src/blocklist.rs:94-99 | writing an ascending list never meets an insertion out of order |
| BlocklistTools.CompileHosts | src/blocklist.rs:76-103 | the list holds exactly the valid domains of the existing inputs, ascending; the count is their number |
| BlocklistTools.MergeHostsWithBase | src/blocklist.rs:105-139 | the merged list holds exactly the domains of both, ascending; the count is the size of the union |
| BlocklistTools.ValidateLine | src/blocklist.rs:160-190 | one line of the strict validator |
| BlocklistTools.ValidateHostsFile | src/blocklist.rs:154-194 | accepts exactly the files whose every non-blank line names at least one host and only valid ones, and counts the distinct domains |
| BlocklistLaws.StrictAndLenientAgree | src/blocklist.rs:154-214 | the strict validator accepts a file exactly when the lenient compiler drops nothing from it, and both count the same domains |
| BlocklistLaws.EntryIsFixpoint | src/blocklist.rs:220-246 | a compiled entry normalises to itself, and a line with just the entry parses to it |
| BlocklistLaws.RecompileIsIdentity | src/blocklist.rs:76-103 | printing a compiled list and compiling the print gives the same list |
| BlocklistLaws.MergedMatching | src/blocklist.rs:105-139 | a host matches the merged list if and only if it matches the base or the custom list |
| BlocklistLaws.NormalizeUnderLabels | src/blocklist.rs:216-218 | a normalised host keeps its place under added labels |
| BlocklistLaws.SubLabelsMatch | src/blocklist.rs:45-56 | listing a host lists everything below it |
| BlocklistLines.AddressLine | src/blocklist.rs:196-214 | a line of an address and any number of names, with any spacing and comment, is read as exactly the names |
| BlocklistLines.NamesLine | src/blocklist.rs:196-214 | a line that does not start with an address is read as all its words |
| BlocklistLines.EveryLineIsLaidOut | src/blocklist.rs:196-214 | every line there is is one of the two |
| BlocklistLines.NormalizeExact | src/blocklist.rs:216-218 | a host is normalised to the lower case of what is left without the white space around it and the dots at its end |
| BlocklistLines.DomainExact | src/blocklist.rs:220-246 | a candidate is kept exactly if its normal form is two or more labels of 1 to 63 letters, digits and inner hyphens with dots between, at most 253 characters, and no address |
| BlocklistLines.ListedExact | src/blocklist.rs:76-103 | what the inputs list: the domains among the normal forms of the candidates of their lines |
| BlocklistLines.MatchesExact | src/blocklist.rs:45-56 | a host matches exactly if, normalised, it is a listed domain or ends in a dot and one |
| BlocklistLines.LessExact | src/blocklist.rs:94-99 | the order of a list: the first difference decides, a proper prefix comes first |
| BrowserHistory.Pipeline.Move | src/bin/xanhtab-browser.rs:86-107 | the vector and its position change as the zipper does, and the page to load is its current one |
| BrowserHistory.Pipeline.ApplyCommand | src/bin/xanhtab-browser.rs:70-119 | every command refines its step on the zipper, and fails only if its launch does |
| BrowserHistory.Pipeline.Handle | src/bin/xanhtab-browser.rs:323-358 | garbage changes nothing; the deadline, which can only strike while a process is being stopped, resets everything |
| BrowserHistory.BacksThenForwards | src/bin/xanhtab-browser.rs:93-100 | k steps back and k forward restore the state, for every k there is room for |
| BrowserHistory.ForwardsThenBacks | src/bin/xanhtab-browser.rs:93-100 | and the other way round |
| BrowserHistory.MovesKeepPages | src/bin/xanhtab-browser.rs:86-107 | without a visit the list stays, and the place in it is a walk clamped at both ends |
| BrowserHistory.VisitDropsForwardPart | src/bin/xanhtab-browser.rs:88-92 | a visit keeps exactly the pages up to the current one, and going back returns to it |
| BrowserHistory.RunsStayCoherent | src/bin/xanhtab-browser.rs:70-163 | over every run of requests a running browser shows the current page with the settings on record |
| BrowserHistory.RunsUseLastStart | src/bin/xanhtab-browser.rs:323-358 | and those settings are the last start's since the last deadline, or the defaults |
| BrowserHistory.StartAndStopAreExact | src/bin/xanhtab-browser.rs:72-85 | an answered start leaves a browser with exactly its settings if it succeeded and none if it failed; an answered stop leaves none |
| BrowserHistory.NavigationAfterDeadline | src/bin/xanhtab-browser.rs:340-347 | after the deadline cut off a command that was waiting for a process to die, a visit opens its page under Direct |
| BrowserLaws.NavigationExact | src/bin/xanhtab-browser.rs:86-119 | each navigation over the list of pages and the place in it: which page it shows, under the settings on record; one that leads nowhere changes nothing, and a stop of loading ends the process and keeps the list |
| BrowserLaws.StartAndStopKeepBooks | src/bin/xanhtab-browser.rs:70-85 | a start begins a list of one page and records its settings; a stop keeps list and settings |
| BrowserLaws.AnswersExact | src/bin/xanhtab-browser.rs:323-358 | a request is answered with an error exactly for garbage, a process that outlives the deadline, or a failed launch; the deadline alone makes the bridge start over under Direct |

## Left out

- Sockets, JSON framing, process spawning, TLS, systemd, the web client, metrics, the configuration file and its
  validation, the installer: replaced by outcomes of the calls they carry, or not part of this model.
- Cryptography and randomness: a keyed hash is taken to be injective, so the secret itself is stored; tokens,
  secrets and ids are numbers never drawn before; a draw may fail.
- Time: nanoseconds as natural numbers. The daemon's clock never runs backwards; the statements of AuthRuns that
  need ordered readings say so.
- The generation counter is unbounded where the code wraps at 2^64.
- Event delivery, `started_at`, failure messages and the snapshot that replies carry: a reply is the kind of its
  error, and any failing backend call is reported as unavailable.
- The fallback backends of the development mode (the mock egress, the stdio bridge and its request order).
- API checks that only refuse requests (message lengths, origins, the session id check of the settings): the model
  lets any context ever handed out act at any time, so it allows more runs, not fewer.
- Dropped requests: the watchdog's operations may be dropped at their awaits too, although nothing drops them.
- A request that times out at the daemon, or whose caller is dropped while it waits, is taken to be over at the
  helper or the bridge before the daemon's next call; the deadlines of both are shorter than the daemon's.
- A restart of the helper or of the bridge while the daemon runs: the daemon's service is bound to both and stops
  with them (`systemd/xanhtabd.service`); a daemon that starts afterwards is covered.
- A killed browser is taken to be gone, with its whole process tree, and a running one to run until it is stopped.
- The helper machine has no other actor: nothing else edits the table, the interface or the rules, and the other
  tables and chains of the host are not modelled. `cleanup_network`, which runs at shutdown, is not modelled.
- A partial write of an nft script to the command's input counts as a failed command, and so does an nft command
  whose end could not be awaited: neither is taken to have committed.
- NetTransition.PlanBoundsRules: the rules counted are those of the browser's user in the dedicated table, by priority,
  not by their full text; rules of other users are not part of the machine.
- BrowserHistory.Pipeline.Handle: what a command cut off by the deadline had changed is not modelled, since the
  reset overwrites all of it; whether a launch works is an outcome that also covers URL schemes, the proxy file
  and the argument list.
- IP literals, IPv6 literals and base64 keys of 32 bytes are predicates given to the WireGuard validator and the
  blocklist; Rust's integer parser is modelled.
- WireGuardValidator.ValidateWireGuardConfig: which message a refusal carries is not modelled.
- BlocklistTools.CompileHosts: read errors and the automaton file are not modelled; the set is an ascending list,
  and the length of a host counts characters, which agrees with bytes on every host that passes the other checks.
- NormalizeHost is not claimed to be idempotent on text with inner white space.
- Reading and writing files (owner, mode, size limits) and clearing the runtime directory: outcomes.
