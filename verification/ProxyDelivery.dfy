/** What completions do to the navigation that waits for a proxy. */
module ProxyDeliverySteps {
  import opened Wrappers
  import opened Sequences
  import opened ProxyMachine
  import opened ProxyCoordinator
  import opened ProxySessionInvariant
  import opened ProxyProgress

  /** The pending navigation of `before` was loaded, once: it is the last load, it is
      shown, and a recovery that carried it is still counted while any other ended. */
  ghost predicate Reached(before: Coordinator, c: Coordinator, goal: Scope, epoch: nat, identity: Option<nat>) {
    var n, m := before.nav, c.nav;
    && n.pending.Some? && m.pending.None? && m.last == n.pending && m.webView.Some?
    && |m.loaded| == |n.loaded| + 1 && m.loaded[..|n.loaded|] == n.loaded
    && (var load := m.loaded[|n.loaded|];
        load.request == n.pending.value.request && load.destinationScope == goal && load.epoch == epoch && load.ready == n.ready)
    && c.machine.pendingScope.None?
    && c.recovery.tracked == identity && !c.recovery.preserving
    && (if before.recovery.preserving then
          c.recovery.replayCount == before.recovery.replayCount && c.recovery.suppressed == before.recovery.suppressed
          && c.recovery.pendingReplay == Some(n.pending.value.request)
        else c.recovery.replayCount == 0 && c.recovery.suppressed == [] && c.recovery.pendingReplay.None?)
  }

  /** Until the machine is active nothing happens to the navigation; then it has been
      loaded if it was for the scope the machine was heading for. */
  ghost predicate Carries(before: Coordinator, c: Coordinator, goal: Scope, identity: Option<nat>) {
    if c.machine.phase.Active? && PendingScope(before.nav) == Some(goal) then
      Reached(before, c, goal, c.machine.phase.epoch, identity)
    else c.nav == before.nav && c.recovery == before.recovery
  }

  lemma AdmitDelivers(before: Coordinator, c: Coordinator, epoch: nat, scope: Scope, env: Env)
    requires c.machine.phase == Active(epoch, scope) && c.nav == before.nav && c.recovery == before.recovery
    requires c.life.activeProxy.Some? && c.life.activeScope == Some(scope)
    ensures Carries(before, Admit(c, epoch, scope, env), scope, env.navigation)
  {
    var n := Admit(c, epoch, scope, env).nav;
    if PendingScope(before.nav) == Some(scope) {
      DropLast(before.nav.loaded, n.loaded[|before.nav.loaded|]);
    }
  }

  lemma StartedCarries(before: Coordinator, c: Coordinator, env: Env, goal: Scope, target: nat, place: Place)
    requires Settling(c, goal, target, place) && env.installs && target < MAX_EPOCH
    requires Carries(before, c, goal, env.navigation)
    ensures Carries(before, DeliverStarted(c, env), goal, env.navigation)
  {
    if c.life.worker.Created? {
      var Created(epoch, scope, session) := c.life.worker;
      var phase := c.machine.phase;
      if Start(phase.epoch, phase.scope) in c.life.queue {
        QueuedAbove(c.life.queue, epoch, c.machine.epoch, phase.epoch, phase.scope);
      }
      var step := ProxyStarted(c.machine, epoch, scope, true);
      var d := Coordinator(step.0, c.life.(worker := Delivered(session, false)), c.nav, c.recovery);
      Execute1(d, step.1[0], Some(session), env);
      assert step.1 == [step.1[0]];
      if step.1[0].PublishCandidateAndAdmitWebView? {
        AdmitDelivers(before, WithLife(d, Publish(d.life, session, scope)), epoch, scope, env);
      }
    }
  }

  lemma FailureChangesLife(c: Coordinator, i: nat, env: Env, goal: Scope, target: nat, place: Place)
    requires Settling(c, goal, target, place)
    ensures DeliverFailed(c, i, env) == WithLife(c, DeliverFailed(c, i, env).life)
  {
    if i < |c.life.failures| {
      assert c.life.failures[i] in c.life.failures;
    }
  }

  lemma OnlyLifeChanges(c: Coordinator, event: Event, env: Env, goal: Scope, target: nat, place: Place)
    requires Settling(c, goal, target, place) && OnlyCompletions(event, env) && !event.StartDelivered?
    ensures Step(c, event, env) == WithLife(c, Step(c, event, env).life)
  {
    match event {
      case JobTaken(_) =>
      case JobFinished =>
      case FailureDelivered(i) => FailureChangesLife(c, i, env, goal, target, place);
    }
  }

  lemma LifeIsNoMatter(before: Coordinator, c: Coordinator, life: Life, goal: Scope, identity: Option<nat>)
    requires Carries(before, c, goal, identity)
    ensures Carries(before, WithLife(c, life), goal, identity)
  {
  }

  lemma CompletionCarries(before: Coordinator, c: Coordinator, event: Event, env: Env, goal: Scope, target: nat, place: Place)
    requires Settling(c, goal, target, place) && OnlyCompletions(event, env) && target < MAX_EPOCH
    requires Carries(before, c, goal, env.navigation)
    ensures Carries(before, Step(c, event, env), goal, env.navigation)
  {
    if event.StartDelivered? {
      StartedCarries(before, c, env, goal, target, place);
    } else {
      OnlyLifeChanges(c, event, env, goal, target, place);
      LifeIsNoMatter(before, c, Step(c, event, env).life, goal, env.navigation);
    }
  }

  lemma {:induction false} ScheduleCarries(before: Coordinator, schedule: seq<(Event, Env)>, goal: Scope, target: nat, place: Place,
                                           identity: Option<nat>) returns (place': Place)
    requires Settling(before, goal, target, place) && target < MAX_EPOCH && before.machine.phase.Starting?
    requires forall step <- schedule :: OnlyCompletions(step.0, step.1) && step.1.navigation == identity
    ensures Settling(After(before, schedule), goal, target, place')
    ensures Carries(before, After(before, schedule), goal, identity)
    decreases |schedule|
  {
    place' := place;
    if schedule != [] {
      var init, last := schedule[..|schedule| - 1], schedule[|schedule| - 1];
      assert last in schedule;
      place' := ScheduleCarries(before, init, goal, target, place, identity);
      CompletionCarries(before, After(before, init), last.0, last.1, goal, target, place');
      place' := CompletionSettles(After(before, init), last.0, last.1, goal, target, place');
    }
  }
}

/** Navigations are loaded, and replayed when their connection is lost. */
module ProxyDelivery {
  import opened Wrappers
  import opened Sequences
  import opened ProxyMachine
  import opened ProxyCoordinator
  import opened ProxySessionInvariant
  import opened ProxySessionSteps
  import opened ProxyAuthorityGate
  import opened ProxyAuthoritySteps
  import opened ProxyProgress
  import opened ProxyDeliverySteps

  /** However the outstanding jobs and callbacks are scheduled: when nothing is left
      to do, the navigation that was pending when the proxy started has been loaded,
      exactly once and last, if it was for the scope the machine was heading for; and
      nothing has been loaded if not. */
  lemma PendingIsLoaded(events: seq<(Event, Env)>, schedule: seq<(Event, Env)>, identity: Option<nat>)
    requires Unwrapped(events) && Run(events).machine.epoch < MAX_EPOCH - 1
    requires NewestStartLives(Run(events))
    requires forall step <- schedule :: OnlyCompletions(step.0, step.1) && step.1.navigation == identity
    ensures var before, end := Run(events), After(Run(events), schedule);
            before.machine.pendingScope.Some? &&
            (Quiet(end.life) ==>
               var goal, target := before.machine.pendingScope.value, Target(before.machine);
               && end.machine.phase == Active(target, goal)
               && if PendingScope(before.nav) == Some(goal) then Reached(before, end, goal, target, identity)
                  else end.nav == before.nav)
  {
    var c := Run(events);
    var place := StartingSettles(events);
    place := ScheduleCarries(c, schedule, c.machine.pendingScope.value, Target(c.machine), place, identity);
  }

  // ---- A navigation is loaded at once or waits for its proxy ----

  /** The scope a destination is routed to. */
  function ScopeFor(ready: bool, d: Destination): Scope {
    if ready then WholeBrowser else if d.eligible then IcannBootstrap else WholeBrowser
  }

  /** The navigation is pending for the scope the machine is starting for. */
  predicate Waits(c: Coordinator, request: Request, destination: Destination) {
    && c.machine.phase.Starting? && c.machine.pendingScope == Some(destination.scope)
    && c.nav.pending == Some(Navigation(request, destination))
  }

  /** It was loaded in this step, through the active proxy. */
  predicate LoadedNow(before: Coordinator, c: Coordinator, request: Request, destination: Destination, identity: Option<nat>) {
    && c.machine == before.machine.(pendingScope := None) && c.nav.webView.Some?
    && (before.nav.webView.Some? ==> c.nav.webView == before.nav.webView)
    && c.nav.last == Some(Navigation(request, destination))
    && |c.nav.loaded| == |before.nav.loaded| + 1 && c.nav.loaded[..|before.nav.loaded|] == before.nav.loaded
    && c.nav.loaded[|before.nav.loaded|].request == request
    && c.recovery.tracked == identity && c.recovery.replayCount == 0 && !c.recovery.preserving
  }

  lemma QueueLoads(c: Coordinator, request: Request, destination: Destination, env: Env)
    requires c.machine.phase.Active? && c.machine.phase.scope == destination.scope && c.machine.isForeground
    requires c.life.activeProxy.Some? && c.life.activeScope == Some(destination.scope)
    requires c.nav.pending == Some(Navigation(request, destination)) && !c.recovery.preserving
    ensures LoadedNow(c, Perform(c, QueueNavigation(c.machine, destination.scope), env), request, destination, env.navigation)
    ensures var n := Perform(c, QueueNavigation(c.machine, destination.scope), env).nav;
            n.pending.None? && n.ready == c.nav.ready && n.destroyed == c.nav.destroyed
  {
    var step := QueueNavigation(c.machine, destination.scope);
    var d := c.(machine := step.0);
    Execute1(d, AdmitThroughActiveProxy(c.machine.phase.epoch, destination.scope), None, env);
    var loaded := Perform(c, step, env).nav.loaded;
    DropLast(c.nav.loaded, loaded[|c.nav.loaded|]);
  }

  /** Queueing a scope that is not served starts a proxy for it, in the foreground. */
  lemma QueueStarts(c: Coordinator, scope: Scope, env: Env)
    requires Consistent(c.machine) && c.machine.isForeground && !(c.machine.phase.Active? && c.machine.phase.scope == scope)
    ensures var d := Perform(c, QueueNavigation(c.machine, scope), env);
            && d.machine.phase.Starting? && d.machine.pendingScope == Some(scope) && d.machine.isForeground
            && d.nav.pending == c.nav.pending && d.nav.loaded == c.nav.loaded && d.nav.ready == c.nav.ready
            && (c.machine.phase.Starting? ==> d.machine.phase == c.machine.phase)
            && (!c.machine.phase.Starting? ==> d.machine.phase.scope == scope)
  {
    var step := QueueNavigation(c.machine, scope);
    var d := c.(machine := step.0);
    if c.machine.phase.Active? {
      assert step.1 == [RevokeWebView, RequestStopActiveProxy, StartProxy(step.0.epoch, scope)];
      Execute3(d, RevokeWebView, RequestStopActiveProxy, StartProxy(step.0.epoch, scope), None, env);
    } else if !c.machine.phase.Starting? {
      Execute1(d, StartProxy(step.0.epoch, scope), None, env);
    }
  }

  lemma QueueRemembers(c: Coordinator, scope: Scope, env: Env)
    requires !c.machine.isForeground && !c.machine.phase.Destroyed?
    ensures Perform(c, QueueNavigation(c.machine, scope), env) == c.(machine := c.machine.(pendingScope := Some(scope)))
  {
  }

  lemma ResumeStarts(c: Coordinator, env: Env)
    requires c.machine.phase.Suspended? && c.machine.pendingScope.Some? && c.nav.pending.Some? && !c.nav.destroyed
    ensures var d := DoResume(c, env);
            && d.machine.phase.Starting? && d.machine.phase.scope == c.machine.pendingScope.value
            && d.machine.pendingScope == c.machine.pendingScope && d.machine.isForeground
            && d.nav == c.nav
  {
    var step := ProxyMachine.Resume(c.machine);
    Execute1(c.(machine := step.0), step.1[0], None, env);
  }

  lemma ResumeWaits(c: Coordinator, env: Env)
    requires c.machine.phase.Starting? && c.machine.isForeground && c.nav.pending.Some?
    ensures DoResume(c, env) == c
  {
  }

  lemma ResumeAfterLoad(c: Coordinator, env: Env)
    requires c.machine.phase.Active? && c.machine.isForeground && c.machine.pendingScope.None? && !c.nav.destroyed
    ensures DoResume(c, env) == WithNav(c, RetainLast(c.nav))
  {
  }

  /** A navigation that may be browsed is loaded at once exactly when the active
      proxy serves its scope, and otherwise waits for a proxy that is starting; one
      that may not be browsed hides the browser and loads nothing. */
  lemma NavigateOutcome(events: seq<(Event, Env)>, navigation: Navigation, env: Env)
    requires Unwrapped(events) && !Run(events).machine.phase.Destroyed?
    ensures var c := Run(events);
            var d := Step(c, Navigate(navigation), env);
            var destination := navigation.destination.(scope := ScopeFor(c.nav.ready, navigation.destination));
            if !c.nav.ready && !destination.eligible then
              !d.machine.isForeground && d.nav.webView.None? && d.nav.loaded == c.nav.loaded
            else
              && d.machine.isForeground
              && if c.machine.phase.Active? && c.machine.phase.scope == destination.scope then
                   LoadedNow(c, d, navigation.request, destination, env.navigation)
                 else Waits(d, navigation.request, destination) && d.nav.loaded == c.nav.loaded
  {
    var c := Run(events);
    RunGate(events);
    var place := RunSound(events);
    EnqueueOutcome(c, navigation, place, env);
  }

  lemma EnqueueOutcome(c: Coordinator, navigation: Navigation, place: Place, env: Env)
    requires Sound(c, place) && Base(c) && !c.machine.phase.Destroyed?
    ensures var d := Enqueue(c, navigation, env);
            var destination := navigation.destination.(scope := ScopeFor(c.nav.ready, navigation.destination));
            if !c.nav.ready && !destination.eligible then
              !d.machine.isForeground && d.nav.webView.None? && d.nav.loaded == c.nav.loaded
            else
              && d.machine.isForeground
              && if c.machine.phase.Active? && c.machine.phase.scope == destination.scope then
                   LoadedNow(c, d, navigation.request, destination, env.navigation)
                 else Waits(d, navigation.request, destination) && d.nav.loaded == c.nav.loaded
  {
    var destination := Routed(c.nav.ready, navigation.destination);
    var c1 := WithNav(Reset(c), c.nav.(pending := Some(Navigation(navigation.request, destination))));
    if !MayBrowse(c1, destination.scope) {
      Hides(c1, destination.scope, env);
    } else if c.machine.phase.Active? && c.machine.phase.scope == destination.scope {
      LoadsAtOnce(c1, navigation.request, destination, env);
    } else if c.machine.isForeground {
      QueueStarts(c1, destination.scope, env);
      ResumeWaits(Perform(c1, QueueNavigation(c1.machine, destination.scope), env), env);
    } else {
      QueueRemembers(c1, destination.scope, env);
      ResumeStarts(Perform(c1, QueueNavigation(c1.machine, destination.scope), env), env);
    }
  }

  lemma LoadsAtOnce(c: Coordinator, request: Request, destination: Destination, env: Env)
    requires c.machine.phase.Active? && c.machine.phase.scope == destination.scope && c.machine.isForeground
    requires c.life.activeProxy.Some? && c.life.activeScope == Some(destination.scope) && !c.nav.destroyed
    requires c.nav.pending == Some(Navigation(request, destination)) && !c.recovery.preserving
    ensures var queued := Perform(c, QueueNavigation(c.machine, destination.scope), env);
            LoadedNow(c, DoResume(queued, env), request, destination, env.navigation) && queued.nav.ready == c.nav.ready
  {
    QueueLoads(c, request, destination, env);
    ResumeAfterLoad(Perform(c, QueueNavigation(c.machine, destination.scope), env), env);
  }

  lemma Hides(c: Coordinator, scope: Scope, env: Env)
    requires Base(c) && !c.machine.phase.Destroyed?
    ensures var d := DoSuspend(c, env);
            var e := Perform(d, QueueNavigation(d.machine, scope), env);
            !e.machine.isForeground && e.nav.webView.None? && e.nav.loaded == c.nav.loaded && e.nav.ready == c.nav.ready
  {
    var n := WithNav(Reset(c), RetainLast(DiscardUnsafe(c.nav)));
    var step := ProxyMachine.Suspend(n.machine, PendingScope(n.nav));
    if c.machine.phase.Active? {
      Execute2(n.(machine := step.0), RevokeWebView, RequestStopActiveProxy, None, env);
    } else {
      Execute1(n.(machine := step.0), RevokeWebView, None, env);
    }
    QueueRemembers(DoSuspend(c, env), scope, env);
  }

  /** A navigation that waited has been loaded, last, once nothing is left to do. */
  lemma NavigateIsLoaded(events: seq<(Event, Env)>, navigation: Navigation, env: Env, schedule: seq<(Event, Env)>, identity: Option<nat>)
    requires Unwrapped(events) && Unwrapped(events + [(Navigate(navigation), env)])
    requires !Run(events).machine.phase.Destroyed? && (Run(events).nav.ready || navigation.destination.eligible)
    requires var after := Run(events + [(Navigate(navigation), env)]);
             after.machine.epoch < MAX_EPOCH - 1 && NewestStartLives(after)
    requires forall step <- schedule :: OnlyCompletions(step.0, step.1) && step.1.navigation == identity
    ensures var c := Run(events);
            var end := After(Run(events + [(Navigate(navigation), env)]), schedule);
            Quiet(end.life) ==>
              && |end.nav.loaded| == |c.nav.loaded| + 1 && end.nav.loaded[|c.nav.loaded|].request == navigation.request
              && end.nav.last == Some(Navigation(navigation.request,
                                                 navigation.destination.(scope := ScopeFor(c.nav.ready, navigation.destination))))
              && end.nav.webView.Some? && end.nav.pending.None?
  {
    DropLast(events, (Navigate(navigation), env));
    NavigateOutcome(events, navigation, env);
    PendingIsLoaded(events + [(Navigate(navigation), env)], schedule, identity);
  }

  // ---- A start that fails ----

  /** A failed start that is still waited for begins another one if the pending scope
      has changed in the meantime; otherwise the failure is shown, nothing is loaded,
      and the navigation stays pending. */
  lemma FailedStartOutcome(c: Coordinator, i: nat, env: Env)
    requires Consistent(c.machine) && c.machine.phase.Starting? && c.machine.epoch < MAX_EPOCH
    requires i < |c.life.failures| && c.life.failures[i] == FailedStart(c.machine.phase.epoch, c.machine.phase.scope)
    ensures var d := Step(c, FailureDelivered(i), env);
            && d.nav == c.nav && d.machine.pendingScope == c.machine.pendingScope && d.machine.isForeground
            && d.life.failures == c.life.failures[..i] + c.life.failures[i + 1..]
            && if c.machine.pendingScope == Some(c.machine.phase.scope) then
                 && d.machine.phase == Failed(c.machine.phase.epoch, c.machine.phase.scope) && d.life.queue == c.life.queue
                 && d.recovery.replayCount == 0 && d.recovery.suppressed == [] && !d.recovery.preserving
               else
                 && d.machine.phase == Starting(c.machine.epoch + 1, c.machine.pendingScope.value)
                 && d.life.queue == c.life.queue + [Start(c.machine.epoch + 1, c.machine.pendingScope.value)]
                 && d.recovery == c.recovery
  {
    var f := c.life.failures[i];
    var e := WithLife(c, c.life.(failures := c.life.failures[..i] + c.life.failures[i + 1..]));
    var step := ProxyStarted(e.machine, f.epoch, f.scope, false);
    Execute1(e.(machine := step.0), step.1[0], None, env);
  }

  // ---- A lost connection is replayed ----

  /** What is shown may be replayed: it is the load WebKit named, and its request is
      a GET or a HEAD. */
  predicate Replays(c: Coordinator, identity: nat) {
    && c.nav.webView.Some? && c.nav.last.Some? && !c.nav.destroyed
    && (c.nav.last.value.request.verb == Get || c.nav.last.value.request.verb == Head)
    && c.recovery.tracked == Some(identity) && identity !in c.recovery.suppressed
  }

  /** The recovery asked for, at the safe point at once or after the backoff. */
  function Scheduled(c: Coordinator, identity: nat, env: Env): Coordinator
    requires c.nav.webView.Some?
  {
    var failed := Step(c, DidFailProvisional(c.nav.webView.value, Some(identity), ConnectionLostOrTimedOut), env);
    if c.recovery.replayCount == 0 then failed else Step(failed, BackoffElapsed(|c.nav.tasks|), env)
  }

  /** The machine starts anew for the navigation, which is pending again, and the
      replay is counted. */
  predicate Replaying(before: Coordinator, c: Coordinator, identity: nat) {
    && c.machine.phase.Starting? && before.nav.last.Some?
    && c.machine.phase.scope == before.nav.last.value.destination.scope
    && c.machine.pendingScope == Some(before.nav.last.value.destination.scope)
    && c.machine.phase.epoch != before.machine.epoch
    && c.nav.pending == before.nav.last && c.nav.webView.None? && c.nav.loaded == before.nav.loaded
    && c.recovery.replayCount == before.recovery.replayCount + 1 && c.recovery.preserving
    && c.recovery.suppressed == before.recovery.suppressed + [identity]
  }

  /** Counted, with the recovery waiting for the safe point. */
  predicate Asked(before: Coordinator, c: Coordinator, identity: nat, i: nat) {
    && before.nav.webView.Some? && before.nav.last.Some?
    && i < |c.nav.tasks|
    && c.nav.tasks[i] == RecoveryTask(before.nav.webView.value, before.nav.last.value.request, before.nav.last.value.destination,
                                      before.recovery.generation, true)
    && c.machine == before.machine && c.life == before.life && c.nav == before.nav.(tasks := c.nav.tasks)
    && c.recovery == before.recovery.(replayCount := before.recovery.replayCount + 1,
                                      suppressed := before.recovery.suppressed + [identity])
  }

  lemma FailureAsks(c: Coordinator, identity: nat, env: Env)
    requires Replays(c, identity) && c.recovery.replayCount < 2 && env.hasDelegate && env.schedules
    ensures Asked(c, Scheduled(c, identity, env), identity, |c.nav.tasks| + c.recovery.replayCount)
  {
  }

  lemma SafePointReplays(c: Coordinator, d: Coordinator, identity: nat, i: nat, env: Env)
    requires Asked(c, d, identity, i) && !c.nav.destroyed && Consistent(c.machine)
    requires c.machine.phase.Active? && c.machine.phase.scope == c.nav.last.value.destination.scope
    ensures Replaying(c, Step(d, SafePointReached(i), env), identity)
  {
    var task := d.nav.tasks[i];
    var prepared := RotationCounted(RotationPrepared(d, task));
    var step := RecoverProvisionalNavigation(prepared.machine, task.destination.scope);
    var start := StartProxy(step.0.epoch, task.destination.scope);
    assert step.1 == [RevokeWebView, RequestStopActiveProxy, start];
    Execute3(prepared.(machine := step.0), RevokeWebView, RequestStopActiveProxy, start, None, env);
  }

  /** The first two lost connections of an episode are replayed: when the safe point
      comes, before which the second waits for its backoff, a new proxy is started
      for the same navigation, which PendingIsLoaded then loads again; the third ends
      the episode. */
  lemma FailureIsReplayed(events: seq<(Event, Env)>, identity: nat, env: Env, later: Env)
    requires Replays(Run(events), identity)
    requires env.hasDelegate && env.schedules
    ensures var c := Run(events);
            var r := c.recovery;
            if r.replayCount < 2 then
              Replaying(c, Step(Scheduled(c, identity, env), SafePointReached(|c.nav.tasks| + r.replayCount), later), identity)
            else
              Step(c, DidFailProvisional(c.nav.webView.value, Some(identity), ConnectionLostOrTimedOut), env) == Reset(c)
  {
    var c := Run(events);
    RunGate(events);
    if c.recovery.replayCount < 2 {
      FailureAsks(c, identity, env);
      SafePointReplays(c, Scheduled(c, identity, env), identity, |c.nav.tasks| + c.recovery.replayCount, later);
    } else {
      ThirdFailureEnds(c, identity, env);
    }
  }

  lemma ThirdFailureEnds(c: Coordinator, identity: nat, env: Env)
    requires Replays(c, identity) && c.recovery.replayCount >= 2
    ensures Step(c, DidFailProvisional(c.nav.webView.value, Some(identity), ConnectionLostOrTimedOut), env) == Reset(c)
  {
  }
}
