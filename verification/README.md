# Verified model of HNS DANE Browser's protocols

This Dafny project models the stateful and algorithmic cores of the HNS DANE
Browser repository and proves what they promise over every input or every run:

- the hand-written Punycode decoder (`Punycode*.dfy`), against the section 6.3
  encoder of RFC 3492 over unbounded integers;
- the proxy generation protocol (`Proxy*.dfy`): the epoch-tagged state machine, the
  coordinator on the main actor, and the serial lifecycle queue that starts and
  joins native sessions;
- the crash-safe bulk name runner (`BulkRunner*.dfy`);
- the process lifecycle (`Process*.dfy`): preparation, transactional network
  switch, coalesced synchronization, safe points and close;
- the one-shot wallet authority (`OneShotAuthority.dfy`);
- the ES256 signature parser (`DerSignature.dfy`), the upload range check
  (`UploadRanges.dfy`), the dependency worklist (`DependencyClosure.dfy`) and the
  bounded tab set (`BrowserTabs.dfy`).

## How the models are built

Code that updates state is written twice. A class or method with the source's
fields, loops and branches is proved equal to a transition function
(`ProxyStateMachine`, `ProxyCoordinatorObject`, `ProcessObject`, `BulkRunnerProgram`,
`BrowserTabsObject`, `PunycodeDecoder`); invariants and theorems are then proved about
the functions, over every sequence of events. What an operation is for is stated
independently of its function: the tabs by a strip with one tab selected, an invocation
of the runner by the requests and the file it leaves, an attempt on the authority by its
outcome, the decoder by the encoder of RFC 3492 with its own parameters and vectors.

- **Proxy.** One main-actor event and everything it executes is one step. The
  lifecycle queue's job is split into created, callback delivered, and kept or
  joined. `Env` holds what the surroundings answer during a step: whether the profile
  accepts an endpoint, which navigation WebKit names, whether a delegate is there and
  can schedule. A scheduled recovery may fire any number of times or never. The epoch
  and the recovery generation wrap as in the source; theorems over runs assume a run
  that stays clear of the wrap (`Unwrapped`). Sessions are numbered in creation order.
  Only the coordinator calls its own resume, so a resume is not an event of its own.
- **Bulk runner.** A run is its list of effects on the outside: atomic replacements of
  the checkpoint file, and requests. A crash leaves a prefix of that list. A server
  may charge for a request that fails. One runner per checkpoint; the digest of the
  names is injective.
- **Process.** A method that runs callbacks leaves the rest of its work on a stack, and
  any method may be called at any time in between, so callbacks that call back are
  covered. Results of the worker are delivered in any order.
- **One-shot authority.** Attempts, discards and callbacks of one service interleave
  freely; an operation may be interrupted by any of them.

Three statements one might expect are false of the code. Each has a run that shows it
and the exact condition under which it holds: a switch to the current network can lose
its completion (`JoinedSwitchCanBeLost`; exactly when close ends while it waits,
`LostExactlyByClose`); the documented fee exposure can be exceeded by retrying a charged
request (`ChargedRetryOverspends`; exactly when the total does not cover what was spent
and the names left, `RetryKeepsTotalExactly`); a synchronization can run on a closed
runtime (`ObserverCanCloseItsRuntime`; exactly when a preparation observer gave the
runtime up, `SyncMeetsClosedRuntime`). The last concerns the closure a caller of
resumeForegroundSync hands over: it needs one that calls close, which the only one the
application passes (ios/HnsDaneBrowser/UI/BrowserViewController.swift:165) does not.
Two more are settled by an if-and-only-if: a
finished batch whose last name was resolved by hand never has the status "complete"
(`CompleteMeansBroadcast`), and a label with a leading last delimiter or upper-case
digits is not re-encoded to itself (`DecodeThenEncode`, `DecodesExactly`). A lease can
die before the use it carries is gone, while the attempt that consumed it stands before
its claim (`UseCanOutliveItsLease`; exactly then, `GrantedLeaseIsSpent`).

## Model

| member | source | states |
|---|---|---|
| PunycodeTheorems.EncodeThenDecode | ios/HnsDaneBrowser/Core/BrowserNavigationParser.swift:55-109 | decoding the RFC 3492 section 6.3 encoding of a non-empty string gives that string back exactly when no integer on the way leaves 64 bits, and nothing otherwise; none does whenever 36 * 0x110000 * (length + 1) fits |
| PunycodeTheorems.DecodesExactly | ios/HnsDaneBrowser/Core/BrowserNavigationParser.swift:55-118 | the whole decoder as an if-and-only-if: a label decodes to u exactly when it is not empty, is the section 6.3 encoding of u up to the case of its digits and a delimiter at index 0, and no integer on the way leaves 64 bits |
| PunycodeTheorems.DecodeThenEncode | ios/HnsDaneBrowser/Core/BrowserNavigationParser.swift:55-118 | an accepted label is the encoding of what it decodes to if and only if its extended digits are lower-case and its last delimiter is not at index 0 |
| PunycodeTheorems.LabelsDecodeAlike | ios/HnsDaneBrowser/Core/BrowserNavigationParser.swift:55-118 | two accepted labels decode to the same string if and only if they agree up to the case of their digits and a delimiter at index 0 |
| PunycodeTheorems.DecodedInsertions | ios/HnsDaneBrowser/Core/BrowserNavigationParser.swift:67-103 | every accepted label is its basic part with code points from 128 up inserted in strictly increasing (code point, position) order, and its digits, in either case, spell exactly these insertions |
| PunycodeTheorems.LeadingDelimiterSkipped | ios/HnsDaneBrowser/Core/BrowserNavigationParser.swift:55-66 | the departure from section 6.2: "-" is accepted as the empty string, which encodes to nothing; the empty label is not |
| PunycodeTheorems.ScalarsAreUnicode | ios/HnsDaneBrowser/Core/BrowserNavigationParser.swift:96-97 | the code points let through are the Unicode scalar values |
| PunycodeEncoder.AdaptAgrees | ios/HnsDaneBrowser/Core/BrowserNavigationParser.swift:120-129 | the bias adaptation is that of section 6.1, written from base 36, tmin 1, tmax 26, skew 38 and damp 700, on all inputs |
| PunycodeEncoder.ThresholdAgrees | ios/HnsDaneBrowser/Core/BrowserNavigationParser.swift:82 | the digit threshold is k - bias clamped to tmin .. tmax, as section 3.3 has it |
| PunycodeVectors.SampleL | ios/HnsDaneBrowser/Core/BrowserNavigationParser.swift:55-129 | sample (L) of section 7.1 of RFC 3492 decodes to its eight code points |
| PunycodeVectors.Nihon | ios/HnsDaneBrowser/Core/BrowserNavigationParser.swift:55-129 | "wgv71a", whose second integer depends on the adapted bias, decodes to U+65E5 U+672C |
| PunycodeInsertions.InsertionsUnique | ios/HnsDaneBrowser/Core/BrowserNavigationParser.swift:99-103 | a string has exactly one increasing sequence of insertions that builds it |
| PunycodeRoundTrip.IntegerRoundTrip | ios/HnsDaneBrowser/Core/BrowserNavigationParser.swift:74-91 | a variable-length integer written for a bias is read back with its exact value when the total and the weights of its digits fit in 64 bits, and an overflow is reported otherwise |
| PunycodeRoundTrip.IntegerUnique | ios/HnsDaneBrowser/Core/BrowserNavigationParser.swift:74-91 | for a fixed bias, whatever lower-case digits are read as a value are the digits section 6.3 writes for it |
| PunycodeEncoding.EncodeRenders | ios/HnsDaneBrowser/Core/BrowserNavigationParser.swift:67-103 | the section 6.3 encoder, over unbounded integers, writes the prefix and the string's insertions, in order |
| PunycodeDecoder.DecodePunycodeLabel | ios/HnsDaneBrowser/Core/BrowserNavigationParser.swift:55-109 | the loop over the scalars is the section 6.2 decoder; every unchecked 64-bit operation stays in range, every index is in bounds and the final scalar conversion cannot fail |
| PunycodeDecoder.CopyBasic | ios/HnsDaneBrowser/Core/BrowserNavigationParser.swift:60-64 | copies the part before the delimiter exactly when it is all ASCII |
| PunycodeDecoder.DecodeDigits | ios/HnsDaneBrowser/Core/BrowserNavigationParser.swift:71-91 | the inner loop ends and adds exactly one variable-length integer, or fails on a missing or bad digit or on overflow |
| PunycodeDecoder.AddOneDigit | ios/HnsDaneBrowser/Core/BrowserNavigationParser.swift:78-90 | the checked arithmetic of one digit: overflow is reported exactly when a product or sum leaves 64 bits, and the weight grows at least tenfold |
| PunycodeDecoder.PlaceCodePoint | ios/HnsDaneBrowser/Core/BrowserNavigationParser.swift:92-103 | new bias, code point and index after an integer; fails exactly for code points that are not scalars |
| PunycodeDecoder.AdaptPunycodeBias | ios/HnsDaneBrowser/Core/BrowserNavigationParser.swift:120-129 | the adaptation loop computes the function that PunycodeEncoder.AdaptAgrees equates with section 6.1; none of its divisions or sums leaves 64 bits |
| ProxyMachine.AlwaysConsistent | ios/HnsDaneBrowser/Core/BrowserProxyStateMachine.swift:24-217 | over every sequence of calls: suspended or destroyed if and only if not foreground, starting implies a pending scope, and a phase with an epoch has the newest one |
| ProxyMachine.StartEpochsIncrease | ios/HnsDaneBrowser/Core/BrowserProxyStateMachine.swift:30-217 | over every run clear of the wrap the epochs of all requested starts strictly increase, and .starting names the newest of them; so a superseded start is never asked for again |
| ProxyMachine.EpochCountsAdvances | ios/HnsDaneBrowser/Core/BrowserProxyStateMachine.swift:30-217 | over every run clear of the wrap the epoch is the number of epochs used up: one for every interruption, two for a recovery, one for every other start |
| ProxyMachine.StartsExactlyWhen | ios/HnsDaneBrowser/Core/BrowserProxyStateMachine.swift:30-212 | a call begins a start if and only if a scope has to be served and no generation serves it or is being started: queueing in the foreground, resuming with a scope pending, a callback overtaken by another scope, the renderer's death with a scope retained, or a recovery of the active scope |
| ProxyMachine.LeavingActiveRevokes | ios/HnsDaneBrowser/Core/BrowserProxyStateMachine.swift:109-197 | whatever ends an active generation revokes its WebView first, and then stops its proxy or shows the failed admission |
| ProxyMachine.DestroyedForGood | ios/HnsDaneBrowser/Core/BrowserProxyStateMachine.swift:179-198 | once destroyed the machine never changes and never asks for a start, whatever it is called with |
| ProxyStateMachine.BrowserProxyStateMachine.QueueNavigation | ios/HnsDaneBrowser/Core/BrowserProxyStateMachine.swift:30-50 | the new state and the actions of queueNavigation, as the transition function the theorems are about |
| ProxyStateMachine.BrowserProxyStateMachine.Resume | ios/HnsDaneBrowser/Core/BrowserProxyStateMachine.swift:52-71 | new state and actions of resume, as the transition function the theorems are about |
| ProxyStateMachine.BrowserProxyStateMachine.ProxyStarted | ios/HnsDaneBrowser/Core/BrowserProxyStateMachine.swift:73-102 | new state and actions of proxyStarted, stale and failed callbacks included, as the transition function the theorems are about |
| ProxyStateMachine.BrowserProxyStateMachine.NavigationAdmitted | ios/HnsDaneBrowser/Core/BrowserProxyStateMachine.swift:104-107 | new state and actions of navigationAdmitted, as the transition function the theorems are about |
| ProxyStateMachine.BrowserProxyStateMachine.AdmissionFailed | ios/HnsDaneBrowser/Core/BrowserProxyStateMachine.swift:109-113 | new state and actions of admissionFailed, as the transition function the theorems are about |
| ProxyStateMachine.BrowserProxyStateMachine.Suspend | ios/HnsDaneBrowser/Core/BrowserProxyStateMachine.swift:115-137 | new state and actions of suspend, as the transition function the theorems are about |
| ProxyStateMachine.BrowserProxyStateMachine.RendererTerminated | ios/HnsDaneBrowser/Core/BrowserProxyStateMachine.swift:139-164 | new state and actions of rendererTerminated, as the transition function the theorems are about |
| ProxyStateMachine.BrowserProxyStateMachine.RecoverProvisionalNavigation | ios/HnsDaneBrowser/Core/BrowserProxyStateMachine.swift:166-177 | new state and actions of recoverProvisionalNavigation, as the transition function the theorems are about |
| ProxyStateMachine.BrowserProxyStateMachine.Destroy | ios/HnsDaneBrowser/Core/BrowserProxyStateMachine.swift:179-198 | new state and actions of destroy, as the transition function the theorems are about |
| ProxyStateMachine.BrowserProxyStateMachine.RestartActionsAfterStaleProxy | ios/HnsDaneBrowser/Core/BrowserProxyStateMachine.swift:206-212 | disposal of a stale candidate and the start that follows it, as the transition function the theorems are about |
| ProxySessions.AtMostOneSession | ios/HnsDaneBrowser/Core/BrowserProxyCoordinator.swift:375-502 | in every interleaving of main-actor events, callbacks and lifecycle jobs at most one native session is created and not joined; sessions are joined each once, in creation order, and the next start runs only when none is alive |
| ProxySessions.SessionsConserved | ios/HnsDaneBrowser/Core/BrowserProxyCoordinator.swift:393-500 | every created session is in exactly one place: published, held by the running job, queued for joining, joined |
| ProxySessions.PublishedSessionAgrees | ios/HnsDaneBrowser/Core/BrowserProxyCoordinator.swift:414-417 | a session is published if and only if the machine is active; it is the one started for that epoch, it is alive, and the active scope is the machine's |
| ProxySessions.LoadsUseTheirSession | ios/HnsDaneBrowser/Core/BrowserProxyCoordinator.swift:393-427 | for every load of every run: the session it went through was created by the start for the load's epoch and destination scope, and when the load happened exactly the sessions created before that one had been joined |
| ProxyNavigation.UnsafeLoadedAtMostOnce | ios/HnsDaneBrowser/Core/BrowserProxyCoordinator.swift:328-359 | a request with a method other than GET or HEAD is loaded at most as often as it was handed to enqueue, through suspension, authority changes, renderer death and recovery |
| ProxyNavigation.LoadsUseActiveScope | ios/HnsDaneBrowser/Core/BrowserProxyCoordinator.swift:504-537 | every load has the destination scope equal to the active scope, and the session it went through, the only one alive just then, was started for that scope |
| ProxyAuthority.AuthorityGatesLoads | ios/HnsDaneBrowser/Core/BrowserProxyCoordinator.swift:163-225 | in every run, whatever was loaded while the handshake authority was not ready was for the bootstrap scope and everything else for the whole-browser scope, and a shown WebView always has the active proxy and scope the authority now allows |
| ProxyAuthority.AuthorityGatesSessions | ios/HnsDaneBrowser/Core/BrowserProxyCoordinator.swift:163-225 | and the native session each load went through was started as the proxy the authority allowed just then |
| ProxyRecovery.RecoveryIsBounded | ios/HnsDaneBrowser/Core/BrowserProxyCoordinator.swift:603-715 | the replay count is the number of suppressed navigations and at most two; at most that many rotations happen between two resets; once they are used up no scheduled recovery can rotate |
| ProxyProgress.SettlesOnPendingScope | ios/HnsDaneBrowser/Core/BrowserProxyCoordinator.swift:438-502 | from any state that is starting, however the outstanding jobs and callbacks are scheduled: if all starts succeed the quiet end is active on the pending scope, after exactly one extra start if that scope changed while starting and none otherwise |
| ProxyProgress.AlwaysSettles | ios/HnsDaneBrowser/Core/BrowserProxyCoordinator.swift:438-502 | the outstanding work does end: every schedule of it has at most three steps a job, one a failed start and five more; one that cannot be continued is quiet and active on the scope that was pending, and every one can be continued until it is |
| ProxyDelivery.PendingIsLoaded | ios/HnsDaneBrowser/Core/BrowserProxyCoordinator.swift:393-427 | at the quiet end of every schedule of completions, the navigation pending when the proxy started has been loaded if it was for the scope the machine was heading for: one load more, the last, with its request, scope and epoch; it is shown, nothing is pending, and only a recovery that carried it is still counted; otherwise nothing was loaded |
| ProxyDelivery.NavigateOutcome | ios/HnsDaneBrowser/Core/BrowserProxyCoordinator.swift:328-349 | a navigation that may be browsed is loaded in the same step if and only if the active proxy serves its scope, and otherwise is pending for a proxy that is starting; one that may not be browsed hides the browser and loads nothing |
| ProxyDelivery.NavigateIsLoaded | ios/HnsDaneBrowser/Core/BrowserProxyCoordinator.swift:328-502 | a navigation that may be browsed is the last load once nothing is left to do |
| ProxyDelivery.FailedStartOutcome | ios/HnsDaneBrowser/Core/BrowserProxyStateMachine.swift:73-103 | a failed start that is still waited for begins another exactly when the pending scope has changed; otherwise the failure is shown and ends the recovery episode, and the navigation stays pending |
| ProxyDelivery.FailureIsReplayed | ios/HnsDaneBrowser/Core/BrowserProxyCoordinator.swift:603-715 | the first two lost connections of an episode are counted and, at the safe point, start a new proxy for the same navigation, which is pending again; the third ends the episode |
| ProxyResumption.SuspendedComesBack | ios/HnsDaneBrowser/Core/BrowserProxyCoordinator.swift:163-225 | a suspension hides the browser and keeps exactly the pending navigation or else the last one, if its method is GET or HEAD; when the authority allows it again, that waits for a new proxy, routed anew |
| ProxyResumption.AuthorityOutcome | ios/HnsDaneBrowser/Core/BrowserProxyCoordinator.swift:163-192 | after a change of the authority the current navigation is hidden if it may not be browsed, or was routed otherwise and may not be replayed; it is enqueued under its new route if it may be; the rest goes on in the foreground |
| ProxyResumption.RendererDeathIsReplayed | ios/HnsDaneBrowser/Core/BrowserProxyCoordinator.swift:1147-1157 | when the renderer dies the WebView is gone, its session is the next to be joined, and what may be replayed waits for a new proxy of its scope |
| ProxyResumption.ReloadOutcome | ios/HnsDaneBrowser/Core/BrowserProxyCoordinator.swift:248-267 | a reload repeats nothing unsafe, starts a new episode on a WebView, and without one is a navigation to where the last one went |
| ProxyResumption.DestroyOutcome | ios/HnsDaneBrowser/Core/BrowserProxyCoordinator.swift:227-236 | destruction hides the browser, forgets every navigation and leaves exactly the active session to be joined |
| ProxyEpisodes.AdmittedActionOutcome | ios/HnsDaneBrowser/Core/BrowserProxyCoordinator.swift:1007-1041 | an admitted main-frame request becomes the last navigation; the automatic replay, told by address and method, leaves the episode as it is, a redirect keeps the budget and voids queued recoveries, and anything else begins a new episode |
| ProxyEpisodes.OtherActionOutcome | ios/HnsDaneBrowser/Core/BrowserProxyCoordinator.swift:1044-1072 | any other main-frame request is cancelled; one that is safe and leads to another proxy is enqueued, and nothing else happens |
| ProxyEpisodes.EpisodeEnds | ios/HnsDaneBrowser/Core/BrowserProxyCoordinator.swift:1103-1145 | a finished load and the stop button end the episode, and so does a late failure unless it is of a navigation already replayed; another WebView's callbacks change nothing |
| ProxyEpisodes.ProvisionalOutcome | ios/HnsDaneBrowser/Core/BrowserProxyCoordinator.swift:1087-1132 | a provisional navigation is followed under WebKit's identity; interruptions of one no longer followed and failures of one already replayed are ignored |
| ProxyEpisodes.FailureOutcome | ios/HnsDaneBrowser/Core/BrowserProxyCoordinator.swift:646-715 | a provisional failure that is not ignored is counted and its recovery queued exactly when it is a lost connection of the navigation that is followed, safe to replay, within the budget of two, with a delegate and, the first time, a safe point to be had; any other is reported and ends the episode |
| ProxyEpisodes.VoidRecovery | ios/HnsDaneBrowser/Core/BrowserProxyCoordinator.swift:603-713 | a queued recovery of another episode, WebView or navigation, or of a destroyed coordinator, does nothing |
| ProxyEpisodes.BackoffOutcome | ios/HnsDaneBrowser/Core/BrowserProxyCoordinator.swift:691-713 | an elapsed backoff of a recovery still wanted asks for the safe point, or reports the failure and ends the episode when there is no delegate or no safe point to be had |
| ProxyEpisodes.RefusedEndpointOutcome | ios/HnsDaneBrowser/Core/BrowserProxyCoordinator.swift:401-427 | a proxy whose endpoint the profile refuses is not used: its session is joined, the failure ends the episode, and the navigation stays pending |
| ProxyCoordinatorObject.BrowserProxyCoordinator.ResetProvisionalFailureRecovery | ios/HnsDaneBrowser/Core/BrowserProxyCoordinator.swift:539-546 | ends the recovery episode and advances its generation; proved equal to its transition function |
| ProxyCoordinatorObject.BrowserProxyCoordinator.InvalidateQueuedRecoveryPreservingReplayBudget | ios/HnsDaneBrowser/Core/BrowserProxyCoordinator.swift:548-552 | queued recoveries become stale, the replay budget stays spent; proved equal to its transition function |
| ProxyCoordinatorObject.BrowserProxyCoordinator.RevokeWebView | ios/HnsDaneBrowser/Core/BrowserProxyCoordinator.swift:780-793 | drops the WebView; ends the episode unless it is carried across a rotation; proved equal to its transition function |
| ProxyCoordinatorObject.BrowserProxyCoordinator.AdmitPendingNavigation | ios/HnsDaneBrowser/Core/BrowserProxyCoordinator.swift:504-537 | loads the pending navigation exactly when its scope, the active scope and the asked scope agree; proved equal to its transition function |
| ProxyCoordinatorObject.BrowserProxyCoordinator.FailAdmission | ios/HnsDaneBrowser/Core/BrowserProxyCoordinator.swift:403-404 | only the newest active generation fails: the WebView is revoked and the episode reset; a stale failure changes nothing; proved equal to its transition function |
| ProxyCoordinatorObject.BrowserProxyCoordinator.PublishCandidate | ios/HnsDaneBrowser/Core/BrowserProxyCoordinator.swift:401-427 | without a candidate or endpoint the admission fails and a candidate is left to be joined; otherwise it is published, retained and admitted; proved equal to its transition function |
| ProxyCoordinatorObject.BrowserProxyCoordinator.Execute | ios/HnsDaneBrowser/Core/BrowserProxyCoordinator.swift:375-436 | all actions in order, nested failures included; proved equal to its transition function |
| ProxyCoordinatorObject.BrowserProxyCoordinator.Resume | ios/HnsDaneBrowser/Core/BrowserProxyCoordinator.swift:205-213 | a destroyed coordinator ignores it; otherwise the last safe navigation is retained and the machine's resume is executed; refines `DoResume` |
| ProxyCoordinatorObject.BrowserProxyCoordinator.Suspend | ios/HnsDaneBrowser/Core/BrowserProxyCoordinator.swift:215-225 | ends the recovery episode, drops an unsafe pending request, retains a safe last one and executes the machine's suspend; refines `DoSuspend` |
| ProxyCoordinatorObject.BrowserProxyCoordinator.Destroy | ios/HnsDaneBrowser/Core/BrowserProxyCoordinator.swift:227-236 | forgets all navigations for good and executes the machine's destroy; refines `DoDestroy` |
| ProxyCoordinatorObject.BrowserProxyCoordinator.Enqueue | ios/HnsDaneBrowser/Core/BrowserProxyCoordinator.swift:328-349 | routes and replaces the pending navigation, suspends first when browsing is not allowed, queues its scope, resumes when it is; refines `Enqueue` |
| ProxyCoordinatorObject.BrowserProxyCoordinator.DiscardUnsafePendingReplay | ios/HnsDaneBrowser/Core/BrowserProxyCoordinator.swift:351-359 | drops a pending request that is not safe to replay; proved equal to its transition function |
| ProxyCoordinatorObject.BrowserProxyCoordinator.UpdateAuthorityAdmission | ios/HnsDaneBrowser/Core/BrowserProxyCoordinator.swift:163-192 | reroutes the current navigation: a changed scope is enqueued again only if replay is safe; refines `DoUpdateAuthority` |
| ProxyCoordinatorObject.BrowserProxyCoordinator.Reload | ios/HnsDaneBrowser/Core/BrowserProxyCoordinator.swift:248-267 | refuses to repeat an unsafe request and enqueues the last navigation when there is no WebView; refines `DoReload` |
| ProxyCoordinatorObject.BrowserProxyCoordinator.DecidePolicy | ios/HnsDaneBrowser/Core/BrowserProxyCoordinator.swift:977-1077 | decidePolicyFor a main-frame action; it is allowed exactly when admitted; proved equal to its transition function |
| ProxyCoordinatorObject.BrowserProxyCoordinator.EvaluateNavigationAction | ios/HnsDaneBrowser/Core/BrowserProxyCoordinator.swift:1007-1025 | the automatic replay keeps the episode, a redirect during one keeps its budget but makes queued recoveries stale, anything else ends it; proved equal to its transition function |
| ProxyCoordinatorObject.BrowserProxyCoordinator.DidStartProvisionalNavigation | ios/HnsDaneBrowser/Core/BrowserProxyCoordinator.swift:1087-1089 | only the current WebView's navigation becomes the tracked one; proved equal to its transition function |
| ProxyCoordinatorObject.BrowserProxyCoordinator.DidFinish | ios/HnsDaneBrowser/Core/BrowserProxyCoordinator.swift:1103-1105 | a finished load ends the episode; proved equal to its transition function |
| ProxyCoordinatorObject.BrowserProxyCoordinator.DidFailProvisionalNavigation | ios/HnsDaneBrowser/Core/BrowserProxyCoordinator.swift:1110-1132 | a superseded policy interruption is ignored; any failure that is not recovered ends the episode; proved equal to its transition function |
| ProxyCoordinatorObject.BrowserProxyCoordinator.RecoverProvisionalNavigationIfAllowed | ios/HnsDaneBrowser/Core/BrowserProxyCoordinator.swift:646-715 | counts a failure and schedules its recovery, or declines; proved equal to its transition function |
| ProxyCoordinatorObject.BrowserProxyCoordinator.DidFail | ios/HnsDaneBrowser/Core/BrowserProxyCoordinator.swift:1134-1145 | a late failure of a recovered navigation is suppressed; proved equal to its transition function |
| ProxyCoordinatorObject.BrowserProxyCoordinator.WebContentProcessDidTerminate | ios/HnsDaneBrowser/Core/BrowserProxyCoordinator.swift:1147-1157 | as suspend for the navigations, with a new start while in the foreground; refines `DoRendererTerminated` |
| ProxyCoordinatorObject.BrowserProxyCoordinator.BackoffElapsed | ios/HnsDaneBrowser/Core/BrowserProxyCoordinator.swift:691-713 | a delayed recovery that is still wanted goes to the safe point; proved equal to its transition function |
| ProxyCoordinatorObject.BrowserProxyCoordinator.RotateProxyAndWebViewForProvisionalFailureRecovery | ios/HnsDaneBrowser/Core/BrowserProxyCoordinator.swift:603-630 | rotates proxy and WebView if still wanted; proved equal to its transition function |
| ProxyCoordinatorObject.BrowserProxyCoordinator.RunNextJob | ios/HnsDaneBrowser/Core/BrowserProxyCoordinator.swift:440-465 | one job at a time: a join destroys its session, a start creates a new one or leaves a failure to report; proved equal to its transition function |
| ProxyCoordinatorObject.BrowserProxyCoordinator.ProxyStartSucceeded | ios/HnsDaneBrowser/Core/BrowserProxyCoordinator.swift:480-494 | the candidate is handed to the machine's answer and stays unretained unless that answer publishes it; proved equal to its transition function |
| ProxyCoordinatorObject.BrowserProxyCoordinator.ProxyStartFailed | ios/HnsDaneBrowser/Core/BrowserProxyCoordinator.swift:467-479 | the failure is reported once and the machine's answer executed; proved equal to its transition function |
| ProxyCoordinatorObject.BrowserProxyCoordinator.FinishStart | ios/HnsDaneBrowser/Core/BrowserProxyCoordinator.swift:495-500 | a candidate that was not retained is joined; proved equal to its transition function |
| BulkRunnerSafety.SentAtMostOnce | tools/hns_bulk_name_actions.py:195-236 | over any sequence of runs, crashes, failed requests and resolutions, requests sent for a name number at most one plus the clearings of its record by --retry-inflight; none is sent past the next index |
| BulkRunnerSafety.CheckpointsAreSound | tools/hns_bulk_name_actions.py:314-359 | on every checkpoint on disk the completed entries are names 0 .. nextIndex-1 in order, each confirmed by the server with its hash or resolved by hand, and the in-flight record is empty or about the next name; the status agrees with the in-flight record, and the batch has acceptable arguments |
| BulkRunnerSafety.FeesWithinTotal | tools/hns_bulk_name_actions.py:274-275 | with a server that keeps to the fee cap, fees never exceed the declared total by more than what cleared attempts had cost |
| BulkRunnerFees.TotalKeptExactly | tools/hns_bulk_name_actions.py:274-359 | with nothing in flight, every continuation without --retry-inflight by servers that keep to the fee cap stays within the declared total if and only if the total covers what was spent and the maximum fee of every name left |
| BulkRunnerFees.RetryKeepsTotalExactly | tools/hns_bulk_name_actions.py:227-232 | what can be checked before --retry-inflight: afterwards the declared total is safe if and only if it covers what was spent and the maximum fee of every name from the in-flight one on |
| BulkRunnerSafety.WithoutRetries | tools/hns_bulk_name_actions.py:274-359 | without --retry-inflight each name is requested at most once and the declared total is never exceeded |
| BulkRunnerSafety.ChargedRetryOverspends | tools/hns_bulk_name_actions.py:227-232 | the total does not bound the fees when a charged request is retried: a run that spends twice its total |
| BulkRunnerSafety.CompleteMeansBroadcast | tools/hns_bulk_name_actions.py:353 | the status is "complete" if and only if all names are done and the last one was not resolved by hand |
| BulkRunnerSafety.SuccessMeansDone | tools/hns_bulk_name_actions.py:262-359 | an invocation whose loop runs to its end leaves every one of its names completed under its own identity, whatever went before; that this takes --execute and a key is BulkRunnerOutcomes.InvocationOutcome |
| BulkRunnerOutcomes.InvocationOutcome | tools/hns_bulk_name_actions.py:262-359 | what any invocation comes to after any history and for any server: refused with the error that applies, it sends nothing and leaves an existing file alone; otherwise it sends one request for each name from the next one on up to the first failure, with --execute and a key only, and outcome and file are those of exactly these requests |
| BulkRunnerOutcomes.RequestsInOrder | tools/hns_bulk_name_actions.py:314-336 | those requests: the k-th is for the k-th name from the next one on, with its server answer, and none follows a failure |
| BulkRunnerOutcomes.PlanSendsNothing | tools/hns_bulk_name_actions.py:299-301 | without --execute nothing is sent however far the invocation gets, it never reports success, and it is a plan exactly when it is not refused, with the checkpoint it validated on disk |
| BulkRunnerOutcomes.CrashSendsFirst | tools/hns_bulk_name_actions.py:262-359 | an invocation that dies has sent a first part of those requests |
| BulkRunnerOutcomes.FoldIsLower | tools/hns_bulk_name_actions.py:211-214 | --resolve-txid takes exactly 64 hexadecimal digits in either case and keeps them in lower case |
| BulkRunnerOutcomes.BeyondTheListStops | tools/hns_bulk_name_actions.py:292-294 | a file whose next index lies beyond the list is refused and left alone |
| BulkRunnerProgram.ReconcileCheckpoint | tools/hns_bulk_name_actions.py:195-236 | identity check, resolution, retry and refusal: record, write and error |
| BulkRunnerProgram.RequestOne | tools/hns_bulk_name_actions.py:314-357 | one pass of the loop: in-flight record, request, commit or ambiguity, in this order |
| BulkRunnerProgram.RequestAll | tools/hns_bulk_name_actions.py:314-359 | the loop over the names, effect by effect |
| BulkRunnerProgram.Resume | tools/hns_bulk_name_actions.py:292-359 | reconciliation, the checks and the loop |
| BulkRunnerProgram.Run | tools/hns_bulk_name_actions.py:262-359 | all effects and the outcome of a run, so that what holds of every prefix of its effects holds of the loop; the file it leaves is the one of any world in which the invocation has run to its end |
| BulkRunnerProgram.Outside.AtomicCheckpoint | tools/hns_bulk_name_actions.py:91-116 | replaces the checkpoint file as one effect |
| BulkRunnerProgram.Outside.RequestAction | tools/hns_bulk_name_actions.py:131-177 | sends one request and returns the hash of a confirmed transaction |
| ProcessRuntimes.RuntimesConserved | ios/HnsDaneBrowser/App/BrowserProcess.swift:371-463 | in every run, with methods called again from callbacks: every runtime built is in exactly one place (owned, on its way, queued for closing, closed), so it is closed at most once and never while owned; the current network is the owned runtime's |
| ProcessRuntimes.OneBuildAtATime | ios/HnsDaneBrowser/App/BrowserProcess.swift:94-247 | at most one preparation or switch is outstanding, exactly one while the process waits for it |
| ProcessRuntimes.SwitchIsTransaction | ios/HnsDaneBrowser/App/BrowserProcess.swift:423-463 | when the result of a switch arrives the process owns the new runtime on the new network with the old one queued for closing, or still the old runtime on the old network |
| ProcessSwitching.SwitchIsAccepted | ios/HnsDaneBrowser/App/BrowserProcess.swift:180-247 | a switch is accepted exactly when the process is ready on another network, none is in flight and the directory can be made; it then queues one build for the requested network |
| ProcessSwitching.SwitchReachesItsNetwork | ios/HnsDaneBrowser/App/BrowserProcess.swift:423-463 | in every run the awaited result of a switch is that of the newest accepted request: with a runtime the process is then on the network asked for, and so is that runtime; without one it stays where it was; and the completion of that request runs |
| ProcessSwitching.GenerationsAreCounted | ios/HnsDaneBrowser/App/BrowserProcess.swift:215-216 | the switch generation counts accepted requests and calls of close, modulo 2 to the 64 |
| ProcessCallbacks.OneSyncInFlight | ios/HnsDaneBrowser/App/BrowserProcess.swift:469-543 | at most one syncOnce is on its way, exactly when syncInFlight says so; between events completions and safe points wait only for it |
| ProcessCallbacks.CompletionsConserved | ios/HnsDaneBrowser/App/BrowserProcess.swift:94-543 | every completion handed over has run, still waits in one place, or was dropped; only completions that joined a preparation are ever dropped |
| ProcessCallbacks.CompletionsRunExactlyOnce | ios/HnsDaneBrowser/App/BrowserProcess.swift:180-247 | when worker and main actor are at rest every syncNow completion and every completion of a switch to another network has run exactly as often as it was handed over, even if close came between |
| ProcessCallbacks.SyncCompletionsRun | ios/HnsDaneBrowser/App/BrowserProcess.swift:249-259 | the same for syncNow completions as soon as no synchronization is in flight |
| ProcessLosses.LostExactlyByClose | ios/HnsDaneBrowser/App/BrowserProcess.swift:371-390 | at rest a completion has run less often than it was handed over if and only if at some point of the run close ended while it waited for a preparation |
| ProcessProgress.ComesToRest | ios/HnsDaneBrowser/App/BrowserProcess.swift:94-543 | after any run, with no new calls, every schedule of callbacks, jobs and results ends within the outstanding work, one that cannot be continued is at rest, and every one can be continued until it is, however builds turn out |
| ProcessProgress.EveryCompletionRuns | ios/HnsDaneBrowser/App/BrowserProcess.swift:94-543 | at the end of every such schedule each completion handed over in the run has run exactly once for each time, unless it joined a preparation that close cut off |
| ProcessCallbacks.JoinedSwitchCanBeLost | ios/HnsDaneBrowser/App/BrowserProcess.swift:190-197 | the completion of a switch to the current network that joins a preparation never runs if close intervenes |
| ProcessSafePoints.SafePointsInOrder | ios/HnsDaneBrowser/App/BrowserProcess.swift:511-519 | deferred safe points run in order and at most once, none after close, and one runs during a synchronization exactly when an earlier one of the same drain started it |
| ProcessSafePoints.EverySafePointRuns | ios/HnsDaneBrowser/App/BrowserProcess.swift:263-272 | while the process is open, idle and without a synchronization in flight, every deferred safe point has run, the i-th deferred as the i-th |
| ProcessSafePoints.RequestsConserved | ios/HnsDaneBrowser/App/BrowserProcess.swift:263-272 | every safe point asked for while the process was open has run, waits or was discarded by close; all have run when it is open and idle with no synchronization in flight |
| ProcessTimers.ForegroundFollowsCalls | ios/HnsDaneBrowser/App/BrowserProcess.swift:337-354 | in every run foreground synchronization is on exactly from a resume to the next suspension, close or accepted switch |
| ProcessTimers.TimerStartsSync | ios/HnsDaneBrowser/App/BrowserProcess.swift:521-543 | a timer scheduled at any point of a run, fired within 2 to the 64 events, starts a synchronization if and only if nothing made it stale since, the foreground is on, the process is ready with none in flight and the main actor is idle |
| ProcessTimers.SyncNowOutcome | ios/HnsDaneBrowser/App/BrowserProcess.swift:249-259 | a completion of syncNow waits for a synchronization that is then in flight if and only if the process is ready, and runs at once otherwise; the job is queued at once in the background and after its observer in the foreground |
| ProcessTimers.FinishedSyncIsReported | ios/HnsDaneBrowser/App/BrowserProcess.swift:483-509 | after its safe points a synchronization informs observers and schedules the next one exactly when foreground synchronization is on, and its completions follow either way |
| ProcessOrder.NoSyncAfterClose | ios/HnsDaneBrowser/App/BrowserProcess.swift:469-481 | no synchronization runs on a closed runtime in a run whose preparation observers all leave the runtime owned |
| ProcessOrder.SyncMeetsClosedRuntime | ios/HnsDaneBrowser/App/BrowserProcess.swift:469-481 | for every event of every run that queues a synchronization, however the run goes on: when the jobs before it have run, its runtime is closed if and only if the process no longer owned it when it was queued, which happens exactly when a preparation observer gave it up |
| ProcessOrder.ObserverCanCloseItsRuntime | ios/HnsDaneBrowser/App/BrowserProcess.swift:472-480 | a run that ends with the synchronization of a closed runtime next: the observer of the first scheduled synchronization closes the process |
| ProcessObject.BrowserProcess.Prepare | ios/HnsDaneBrowser/App/BrowserProcess.swift:94-150 | answers at once, joins the running preparation, or starts one; refines `Prepare` |
| ProcessObject.BrowserProcess.FinishPreparation | ios/HnsDaneBrowser/App/BrowserProcess.swift:398-421 | an awaited preparation becomes ready or failed and its waiters are due; any other result is closed; proved equal to its transition function |
| ProcessObject.BrowserProcess.SwitchNetwork | ios/HnsDaneBrowser/App/BrowserProcess.swift:180-247 | answers at once, joins a preparation, or starts a switch under a new generation; refines `SwitchNetwork` |
| ProcessObject.BrowserProcess.FinishNetworkSwitch | ios/HnsDaneBrowser/App/BrowserProcess.swift:423-463 | commits or rolls back the awaited switch; any other result is closed; refines `FinishSwitch` |
| ProcessObject.BrowserProcess.SyncNow | ios/HnsDaneBrowser/App/BrowserProcess.swift:249-259 | accepts the completion only when ready and starts at most one synchronization; refines `SyncNow` |
| ProcessObject.BrowserProcess.StartSyncIfNeeded | ios/HnsDaneBrowser/App/BrowserProcess.swift:469-481 | starts nothing while a synchronization is in flight; in the foreground the observer runs before the job is queued; proved equal to its transition function |
| ProcessObject.BrowserProcess.RunScheduledForegroundSync | ios/HnsDaneBrowser/App/BrowserProcess.swift:537-543 | a stale timer, a background process or one that is not ready starts nothing; proved equal to its transition function |
| ProcessObject.BrowserProcess.PerformAtSyncMaintenanceSafePoint | ios/HnsDaneBrowser/App/BrowserProcess.swift:263-272 | refused exactly when closed; runs at once unless a synchronization is in flight, else takes the next ticket; proved equal to its transition function |
| ProcessObject.BrowserProcess.FinishSync | ios/HnsDaneBrowser/App/BrowserProcess.swift:483-485 | the synchronization is over and the deferred safe points are due, in order; proved equal to its transition function |
| ProcessObject.BrowserProcess.ProceedFinishing | ios/HnsDaneBrowser/App/BrowserProcess.swift:485-509 | safe points in order until one closes the process, then observers, then the completions handed over so far; proved equal to its transition function |
| ProcessObject.BrowserProcess.Close | ios/HnsDaneBrowser/App/BrowserProcess.swift:371-381 | fences timers and switches, drops the safe points, and makes the pending completions due; proved equal to its transition function |
| ProcessObject.BrowserProcess.FinishClose | ios/HnsDaneBrowser/App/BrowserProcess.swift:382-395 | whatever runtime is then owned is queued for closing exactly once; waiters of a preparation are dropped; proved equal to its transition function |
| ProcessObject.BrowserProcess.ProceedCall | ios/HnsDaneBrowser/App/BrowserProcess.swift:410-420 | callbacks run one by one in order, and only then the rest of the method; proved equal to its transition function |
| ProcessObject.BrowserProcess.Proceed | ios/HnsDaneBrowser/App/BrowserProcess.swift:371-543 | the innermost interrupted method goes on first; proved equal to its transition function |
| ProcessObject.BrowserProcess.RunNextJob | ios/HnsDaneBrowser/App/BrowserProcess.swift:125-146 | jobs run first in, first out, and each build or synchronization posts one result; proved equal to its transition function |
| ProcessObject.BrowserProcess.BuildRuntime | ios/HnsDaneBrowser/App/BrowserProcess.swift:220-236 | a build: a runtime, none, or one that is closed at once; proved equal to its transition function |
| ProcessObject.BrowserProcess.DeliverResult | ios/HnsDaneBrowser/App/BrowserProcess.swift:237-245 | a result is taken once, and only when no callback is running; proved equal to its transition function |
| OneShotAuthority.OperationRunsAtMostOnce | ios/HnsDaneBrowser/Wallet/HrmHnsaWalletConsumer.swift:214-241 | over all attempts and leases of one service and any guard behaviour the operation runs at most once |
| OneShotAuthority.GateHeldThroughout | ios/HnsDaneBrowser/Wallet/HrmHnsaWalletConsumer.swift:333-393 | when it ran, selection and wallet were the service's, of one network and well formed, and the facts read before acquisition, after it and in the callback were exactly the one reading that opens the gate; a true result implies it ran once and returned true |
| OneShotOutcomes.AttemptOutcome | ios/HnsDaneBrowser/Wallet/HrmHnsaWalletConsumer.swift:354-393 | an attempt with nothing of others in between, both ways: the operation runs once if the gate is open at both readings, a live lease of a matching service with its use available was granted, and the first callback finds the gate open, and not at all otherwise; result, lease, use and all other attempts follow |
| OneShotOutcomes.GrantedLeaseIsSpent | ios/HnsDaneBrowser/Wallet/HrmHnsaWalletConsumer.swift:366-385 | whatever happens in between, when an attempt that was granted a live lease is done, the lease is dead, and the use is gone if and only if no other attempt that consumed the lease is just about to take it |
| OneShotOutcomes.UseCanOutliveItsLease | ios/HnsDaneBrowser/Wallet/HrmHnsaWalletConsumer.swift:264-288 | that exception: of two attempts granted one lease, the second can be done between the consumption and the claim of the first |
| OneShotOutcomes.DiscardedNeverRuns | ios/HnsDaneBrowser/Wallet/HrmHnsaWalletConsumer.swift:243-288 | once the service or a live lease of it is discarded before any attempt took the use, the operation never runs and no attempt reports true |
| OneShotAuthorityObjects.Service.TakeUse | ios/HnsDaneBrowser/Wallet/HrmHnsaWalletConsumer.swift:217-221 | takes the single use |
| OneShotAuthorityObjects.Service.Discard | ios/HnsDaneBrowser/Wallet/HrmHnsaWalletConsumer.swift:243-247 | forfeits it |
| OneShotAuthorityObjects.Lease.Consume | ios/HnsDaneBrowser/Wallet/HrmHnsaWalletConsumer.swift:269-278 | hands the service over once, only to a matching selection and wallet, and forfeits its use otherwise |
| OneShotAuthorityObjects.Lease.ConsumeFor | ios/HnsDaneBrowser/Wallet/HrmHnsaWalletConsumer.swift:264-280 | the whole of consumeFor, guard and operation included: lease, service, result and the number of times the operation ran are those of the steps consume, claim, any callbacks, guard return of the transition system |
| OneShotAuthorityObjects.Lease.Discard | ios/HnsDaneBrowser/Wallet/HrmHnsaWalletConsumer.swift:282-288 | forfeits the use of a service still retained |
| OneShotAuthorityObjects.Use.Enter | ios/HnsDaneBrowser/Wallet/HrmHnsaWalletConsumer.swift:227-235 | the callback runs the operation at most once and only while active |
| OneShotAuthorityObjects.Use.Invoke | ios/HnsDaneBrowser/Wallet/HrmHnsaWalletConsumer.swift:223-235 | any number of callbacks leave the use and the count of operations where the callback and operation steps of the transition system leave the attempt |
| OneShotAuthorityObjects.Use.Leave | ios/HnsDaneBrowser/Wallet/HrmHnsaWalletConsumer.swift:232-234 | the operation's answer is kept |
| OneShotAuthorityObjects.Use.Finish | ios/HnsDaneBrowser/Wallet/HrmHnsaWalletConsumer.swift:236-240 | the result of the whole use |
| DerSignature.RoundTrip | scripts/app_store_connect_release.py:215-236 | for all r and s below 2 to the 256 the DER encoding (X.690 sections 8.1.3 and 8.3) becomes the 64 bytes of r followed by s (RFC 7518 section 3.4) |
| DerSignature.AcceptedIsEncoded | scripts/app_store_connect_release.py:201-236 | every accepted input is a well-formed signature consumed to its end, and the 64 bytes hold its two unsigned values |
| DerSignature.ParsesEncoded | scripts/app_store_connect_release.py:201-236 | a well-formed signature, minimal or not, is accepted exactly when both integers fit 32 bytes |
| DerSignature.DerEs256ToRaw | scripts/app_store_connect_release.py:215-236 | the loop over the two integers, with every error |
| UploadRanges.CheckRanges | scripts/app_store_connect_release.py:1726-1733 | the check accepts a non-empty list of positive-length ranges if and only if they partition the file |
| UploadRanges.ChainedIsPartition | scripts/app_store_connect_release.py:1726-1733 | the cursor over the sorted ranges succeeds if and only if every byte is in exactly one range |
| UploadRanges.AcceptedUploadsRebuild | scripts/app_store_connect_release.py:1734-1739 | the slices of accepted ranges, written at their offsets in the given order, rebuild the file whatever was there before, and as many bytes are sent as it has |
| UploadRanges.ValidateAndUpload | scripts/app_store_connect_release.py:1726-1739 | slices are sent exactly for a partition, and they rebuild the file |
| DependencyClosure.ShippingPackages | scripts/generate-third-party-notices.py:210-233 | one root or an error; the result is exactly the set reachable along edges with a kind other than dev, and an error names a reachable package without a node |
| DependencyClosure.Closure | scripts/generate-third-party-notices.py:223-233 | the worklist ends on every graph, cyclic or not, with exactly the reachable set |
| DependencyClosure.AppendShipping | scripts/generate-third-party-notices.py:231-233 | appends exactly the dependencies with a kind other than dev |
| BrowserTabs.TabsAreSound | ios/HnsDaneBrowser/Core/BrowserTabs.swift:75-151 | in every run there are one to eight tabs with distinct ids that are not zero, the active one among them |
| BrowserTabs.AllocatedIsFresh | ios/HnsDaneBrowser/Core/BrowserTabs.swift:143-151 | the allocator returns an unused id that is not zero, also across the wrap |
| BrowserTabs.FirstFreeIsFree | ios/HnsDaneBrowser/Core/BrowserTabs.swift:146-148 | the pigeonhole argument: one of n + 1 consecutive ids is free when n are taken |
| BrowserTabs.OrderIsKept | ios/HnsDaneBrowser/Core/BrowserTabs.swift:96-132 | every operation keeps the order of the surviving tabs: it changes no id, removes the closed one, or appends a fresh one |
| BrowserTabs.IdsAreNeverReused | ios/HnsDaneBrowser/Core/BrowserTabs.swift:143-151 | until 2 to the 64 less one tabs have been opened the n-th gets id n, so an id does not come back |
| BrowserTabStrip.RunShowsStrip | ios/HnsDaneBrowser/Core/BrowserTabs.swift:81-141 | every run shows the strip of tabs left of the active one, it, and those right of it that its operations come to: closing the active tab activates its right neighbour, or the left one at the right end; opening appends and activates; selecting, navigating and retitling touch only the active tab |
| BrowserTabStrip.AnswersFollowStrip | ios/HnsDaneBrowser/Core/BrowserTabs.swift:96-127 | what open, select and close return is what happened on the strip, the successor's address included |
| BrowserTabStrip.AddressesFit | ios/HnsDaneBrowser/Core/BrowserTabs.swift:139-141 | in every run every tab has an address of 1 to 16384 bytes of UTF-8 |
| BrowserTabsObject.BrowserTabList.Open | ios/HnsDaneBrowser/Core/BrowserTabs.swift:96-106 | open; result and new state |
| BrowserTabsObject.BrowserTabList.AllocateID | ios/HnsDaneBrowser/Core/BrowserTabs.swift:143-151 | the search ends within eight ids, at the first free one; result and new state |
| BrowserTabsObject.BrowserTabList.Select | ios/HnsDaneBrowser/Core/BrowserTabs.swift:108-112 | select; result and new state |
| BrowserTabsObject.BrowserTabList.Close | ios/HnsDaneBrowser/Core/BrowserTabs.swift:115-127 | close; result and new state |
| BrowserTabsObject.BrowserTabList.UpdateActiveAddress | ios/HnsDaneBrowser/Core/BrowserTabs.swift:129-132 | updateActiveAddress; result and new state |
| BrowserTabsObject.BrowserTabList.UpdateActiveTitle | ios/HnsDaneBrowser/Core/BrowserTabs.swift:134-137 | updateActiveTitle with the cleaned title; new state |

## Left out

- Presentation: addresses, security summaries, sync status, loading state and delegate notifications have no effect on the protocols.
- Browser history: an entry chosen from history is handed to enqueue like any other navigation; the list itself is not modelled.
- WebKit, profiles, certificates, runtimes, native sessions and the host classifier are opaque; the verdict on header-sync browsing is a fixed attribute of a destination.
- BrowserProxyCoordinator: subframe navigations, the MarketplaceKit pass-through and downloads, which touch none of the modelled state.
- ProxyCoordinatorObject.BrowserProxyCoordinator.RunNextJob: lifecycle jobs are atomic up to the main-actor callback; blocking on the semaphore is the state in which no other job can start.
- ProxyRecovery.RecoveryIsBounded: assumes fewer than 2^64 resets, like the other results about runs of the coordinator.
- PunycodeDecoder.DecodePunycodeLabel: the array is a sequence that is replaced on insertion, and its length fits a signed 64-bit integer.
- Request bodies beyond the name: action, account, recipient and fees are those of the checkpoint's identity.
- Timestamps, printed progress, delays, the last-error text, the names file's encoding and the decimal fee parser of the bulk runner.
- Checkpoints edited by hand: malformed JSON and missing or ill-typed fields are not modelled, except a next index beyond the list.
- ProcessObject.BrowserProcess.ProceedFinishing: several observers in a row are one interruption; the latest summary and the failure counter are left out.
- Policy updates, static peers, resolver cache, header reset and proof details, which only queue work on the owned runtime.
- OneShotAuthorityObjects.Lease.ConsumeFor: its steps follow one another here; that other attempts and discards come in between is covered by the transition system.
- Adoption of an authority: the interval and format checks are one conjunction.
- UploadRanges.ValidateAndUpload: URL, method and header checks, and network failures during the upload.
- DependencyClosure.ShippingPackages: the filter and the sort of the packages that follow the worklist.
- BrowserTabsObject.BrowserTabList.UpdateActiveTitle: takes the title after trimming and cleaning.
- Deallocation of a coordinator or process with jobs outstanding.
