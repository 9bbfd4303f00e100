/** Recovery episodes: what goes on with one, what ends it, and what makes its queued
    recoveries void. */
module ProxyEpisodes {
  import opened Wrappers
  import opened ProxyMachine
  import opened ProxyCoordinator
  import opened ProxySessionSteps
  import opened ProxyAuthorityGate
  import opened ProxyAuthoritySteps
  import opened ProxyDelivery
  import opened ProxyResumption

  /** Only the recovery changes. */
  predicate RecoveryOnly(before: Coordinator, c: Coordinator) {
    c == before.(recovery := c.recovery)
  }

  /** A new episode, in which recoveries queued so far are void. */
  predicate NewEpisode(before: Recovery, r: Recovery, tracked: Option<nat>) {
    r.generation != before.generation && r == Recovery(0, r.generation, None, false, tracked, [], 0)
  }

  /** The budget is kept, but recoveries queued so far are void. */
  predicate Redirected(before: Recovery, r: Recovery) {
    && r.generation != before.generation
    && r == Recovery(before.replayCount, r.generation, None, before.preserving, None, before.suppressed, before.rotations)
  }

  /** The request is the automatic replay that the last load announced. */
  predicate IsReplay(r: Recovery, request: Request) {
    r.pendingReplay.Some? && r.pendingReplay.value.url == request.url && r.pendingReplay.value.verb == request.verb
  }

  // ---- Navigation actions ----

  /** A main-frame request in the current WebView to where its proxy leads is allowed
      and becomes the last navigation: the automatic replay leaves the episode as it
      is, a request during an episode is a redirect, and any other begins a new one. */
  lemma AdmittedActionOutcome(events: seq<(Event, Env)>, webView: nat, request: Request, classified: Destination, env: Env)
    requires Unwrapped(events) && Run(events).nav.webView == Some(webView)
    requires Run(events).life.activeScope == Some(ScopeFor(Run(events).nav.ready, classified))
    ensures var c := Run(events);
            var d := Step(c, DecidePolicy(webView, request, classified), env);
            var last := Navigation(request, classified.(scope := ScopeFor(c.nav.ready, classified)));
            && d.machine == c.machine && d.life == c.life && d.nav == c.nav.(last := Some(last))
            && if IsReplay(c.recovery, request) then d.recovery == c.recovery.(pendingReplay := None)
               else if c.recovery.suppressed != [] then Redirected(c.recovery, d.recovery)
               else NewEpisode(c.recovery, d.recovery, None)
  {
    RunGate(events);
    var place := RunSound(events);
  }

  /** Any other main-frame request is cancelled: one that is safe and leads to another
      proxy is enqueued as a navigation of its own, and nothing else happens. */
  lemma OtherActionOutcome(events: seq<(Event, Env)>, webView: nat, request: Request, classified: Destination, env: Env)
    requires Unwrapped(events) && !Run(events).machine.phase.Destroyed?
    requires var c := Run(events);
             c.nav.webView != Some(webView) || c.life.activeScope != Some(ScopeFor(c.nav.ready, classified))
    ensures var c := Run(events);
            var d := Step(c, DecidePolicy(webView, request, classified), env);
            var destination := classified.(scope := ScopeFor(c.nav.ready, classified));
            if !Safe(request) || c.life.activeScope == Some(destination.scope) then d == c
            else if !c.nav.ready && !destination.eligible then Hidden(c, d)
            else Waits(d, request, destination) && d.nav.loaded == c.nav.loaded
  {
    var c := Run(events);
    RunGate(events);
    var place := RunSound(events);
    EnqueueOutcome(c, Navigation(request, Routed(c.nav.ready, classified)), place, env);
  }

  // ---- The end of an episode ----

  /** A finished load and the user's stop end the episode; so does a late failure,
      unless it is one of a navigation already replayed; callbacks of another WebView
      change nothing. */
  lemma EpisodeEnds(c: Coordinator, webView: nat, identity: Option<nat>, env: Env)
    ensures var finished, failed := Step(c, DidFinish(webView), env), Step(c, DidFail(webView, identity), env);
            var stopped := Step(c, StopLoading, env);
            && RecoveryOnly(c, stopped) && NewEpisode(c.recovery, stopped.recovery, None)
            && (c.nav.webView != Some(webView) ==> finished == c && failed == c)
            && (c.nav.webView == Some(webView) ==>
                  && RecoveryOnly(c, finished) && NewEpisode(c.recovery, finished.recovery, None)
                  && if identity.Some? && identity.value in c.recovery.suppressed then failed == c
                     else RecoveryOnly(c, failed) && NewEpisode(c.recovery, failed.recovery, None))
  {
  }

  /** A provisional navigation is followed under the identity WebKit gives it; the
      interruption of one that is no longer followed, and the failure of one already
      replayed, are ignored. */
  lemma ProvisionalOutcome(c: Coordinator, webView: nat, identity: nat, error: ProvisionalError, env: Env)
    requires !c.nav.destroyed
    ensures var started := Step(c, DidStart(webView, Some(identity)), env);
            var failed := Step(c, DidFailProvisional(webView, Some(identity), error), env);
            && started == (if c.nav.webView == Some(webView) then c.(recovery := c.recovery.(tracked := Some(identity))) else c)
            && Step(c, DidStart(webView, None), env) == c
            && (c.nav.webView != Some(webView) || Ignored(c, identity, error) ==> failed == c)
  {
  }

  predicate Ignored(c: Coordinator, identity: nat, error: ProvisionalError) {
    || (error.InterruptedByPolicyChange? && c.recovery.tracked.Some? && c.recovery.tracked != Some(identity))
    || (identity in c.recovery.suppressed && c.nav.last.Some?)
  }

  /** A lost connection of the navigation that is followed, whose request may be
      replayed for the first or second time, and which a delegate can serve: the first
      time at once at the safe point, the second after a backoff. */
  predicate Recovers(c: Coordinator, identity: nat, error: ProvisionalError, env: Env) {
    && error.ConnectionLostOrTimedOut? && c.recovery.tracked == Some(identity) && env.hasDelegate
    && c.nav.last.Some? && Safe(c.nav.last.value.request)
    && (c.recovery.replayCount == 1 || (c.recovery.replayCount == 0 && env.schedules))
  }

  /** What is not ignored is counted and its recovery queued exactly when it recovers;
      otherwise it is reported, and ends the episode. */
  lemma FailureOutcome(c: Coordinator, identity: nat, error: ProvisionalError, env: Env)
    requires c.nav.webView.Some? && !c.nav.destroyed && !Ignored(c, identity, error) && identity !in c.recovery.suppressed
    ensures var d := Step(c, DidFailProvisional(c.nav.webView.value, Some(identity), error), env);
            if Recovers(c, identity, error, env) then
              var task := RecoveryTask(c.nav.webView.value, c.nav.last.value.request, c.nav.last.value.destination,
                                       c.recovery.generation, c.recovery.replayCount == 0);
              && d.machine == c.machine && d.life == c.life && d.nav == c.nav.(tasks := c.nav.tasks + [task])
              && d.recovery.replayCount == c.recovery.replayCount + 1
              && d.recovery == c.recovery.(replayCount := d.recovery.replayCount, suppressed := c.recovery.suppressed + [identity])
            else RecoveryOnly(c, d) && NewEpisode(c.recovery, d.recovery, None)
  {
  }

  /** A recovery whose episode, WebView or navigation is no longer the current one is
      void. */
  lemma VoidRecovery(c: Coordinator, i: nat, env: Env)
    requires i < |c.nav.tasks|
    requires var task := c.nav.tasks[i];
             c.nav.webView != Some(task.webView) || c.recovery.generation != task.generation || c.nav.destroyed
             || c.nav.last.None? || c.nav.last.value.destination != task.destination
             || c.nav.last.value.request.url != task.request.url || c.nav.last.value.request.verb != task.request.verb
    ensures Step(c, BackoffElapsed(i), env) == c && Step(c, SafePointReached(i), env) == c
  {
  }

  predicate Wanted(c: Coordinator, task: RecoveryTask) {
    && !c.nav.destroyed && c.nav.webView == Some(task.webView) && c.recovery.generation == task.generation
    && c.nav.last.Some? && c.nav.last.value.destination == task.destination
    && c.nav.last.value.request.url == task.request.url && c.nav.last.value.request.verb == task.request.verb
  }

  /** A backoff that has elapsed asks for the safe point, for the same recovery, or
      reports the failure when there is no delegate or no safe point to be had; a
      failure that WebKit does not name is reported too. */
  lemma BackoffOutcome(c: Coordinator, i: nat, error: ProvisionalError, env: Env)
    requires i < |c.nav.tasks| && !c.nav.tasks[i].atSafePoint && Wanted(c, c.nav.tasks[i])
    ensures var d := Step(c, BackoffElapsed(i), env);
            var unnamed := Step(c, DidFailProvisional(c.nav.webView.value, None, error), env);
            && (if env.hasDelegate && env.schedules then
                  d == c.(nav := c.nav.(tasks := c.nav.tasks + [c.nav.tasks[i].(atSafePoint := true)]))
                else RecoveryOnly(c, d) && NewEpisode(c.recovery, d.recovery, None))
            && RecoveryOnly(c, unnamed) && NewEpisode(c.recovery, unnamed.recovery, None)
  {
  }

  // ---- Refusals ----

  /** A proxy whose endpoint the profile refuses is not used: its session is stopped,
      the failure is shown, and the navigation stays pending. */
  lemma RefusedEndpointOutcome(events: seq<(Event, Env)>, env: Env)
    requires Roomy(Run(events)) && !env.installs && Run(events).life.worker.Created?
    requires var c := Run(events);
             c.machine.phase == Starting(c.life.worker.epoch, c.life.worker.scope)
             && c.machine.pendingScope == Some(c.life.worker.scope)
    ensures var c := Run(events);
            var d := Step(c, StartDelivered, env);
            && d.machine == c.machine.(phase := Failed(c.life.worker.epoch, c.life.worker.scope))
            && d.nav == c.nav && c.nav.webView.None? && d.life == c.life.(worker := Delivered(c.life.worker.session, false))
            && d.recovery.generation != c.recovery.generation
            && d.recovery == Recovery(0, d.recovery.generation, None, false, None, [], 0)
            && Step(d, JobFinished, env).life.joined == c.life.joined + [c.life.worker.session]
  {
    var c := Run(events);
    RunGate(events);
    Refuses(c, env);
    StoppedIsJoined(Step(c, StartDelivered, env), c.life.worker.session, env);
  }

  lemma StoppedIsJoined(c: Coordinator, session: nat, env: Env)
    requires c.life.worker == Delivered(session, false)
    ensures Step(c, JobFinished, env).life.joined == c.life.joined + [session]
  {
  }

  lemma Refuses(c: Coordinator, env: Env)
    requires Base(c) && !env.installs && c.life.worker.Created? && c.recovery.generation < MAX_EPOCH - 1
    requires c.machine.phase == Starting(c.life.worker.epoch, c.life.worker.scope)
    requires c.machine.pendingScope == Some(c.life.worker.scope)
    ensures var d := Step(c, StartDelivered, env);
            && d.machine == c.machine.(phase := Failed(c.life.worker.epoch, c.life.worker.scope))
            && d.nav == c.nav && c.nav.webView.None?
            && d.life == c.life.(worker := Delivered(c.life.worker.session, false))
            && d.recovery.generation > c.recovery.generation
            && d.recovery == Recovery(0, d.recovery.generation, None, false, None, [], 0)
  {
    var Created(epoch, scope, session) := c.life.worker;
    var step := ProxyStarted(c.machine, epoch, scope, true);
    var d := Coordinator(step.0, c.life.(worker := Delivered(session, false)), c.nav, c.recovery);
    assert step.1 == [PublishCandidateAndAdmitWebView(epoch, scope)];
    Execute1(d, PublishCandidateAndAdmitWebView(epoch, scope), Some(session), env);
    var refused := WithLife(d, Disposed(d.life, false));
    assert refused.life == d.life;
    assert DeliverStarted(c, env) == FailAdmission(refused, epoch, scope);
  }
}
