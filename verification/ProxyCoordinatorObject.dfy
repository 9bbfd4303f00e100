/** The coordinator as the main-actor object it is: methods that update its
    fields, each proved to be its transition function. */
module ProxyCoordinatorObject {
  import opened Wrappers
  import opened ProxyMachine
  import opened ProxyStateMachine
  import opened ProxyCoordinator

  /** An action that can fail and run the failure's own actions. */
  predicate Admitting(actions: seq<Action>) {
    exists i :: 0 <= i < |actions| && (actions[i].PublishCandidateAndAdmitWebView? || actions[i].AdmitThroughActiveProxy?)
  }

  class BrowserProxyCoordinator {
    const machine: BrowserProxyStateMachine

    // The published session and the lifecycle queue.
    var activeProxy: Option<nat>
    var activeScope: Option<Scope>
    var lifecycleQueue: seq<Job>
    var worker: Worker
    var failures: seq<FailedStart>
    var startedFor: seq<Started>
    var joined: seq<nat>

    // Navigation.
    var isHandshakeAuthorityReady: bool
    var destroyed: bool
    var pendingNavigation: Option<Navigation>
    var lastNavigation: Option<Navigation>
    var webView: Option<nat>
    var webViews: nat
    var tasks: seq<RecoveryTask>
    var loaded: seq<Load>

    // Recovery from provisional failures.
    var automaticReplayCount: nat
    var recoveryGeneration: nat
    var pendingAutomaticReplay: Option<Request>
    var preservingAcrossRotation: bool
    var trackedNavigation: Option<nat>
    var suppressedNavigations: seq<nat>
    var rotations: nat

    ghost function State(): Coordinator
      reads this, machine
    {
      Coordinator(
        machine.State(),
        Life(activeProxy, activeScope, lifecycleQueue, worker, failures, startedFor, joined),
        Nav(isHandshakeAuthorityReady, destroyed, pendingNavigation, lastNavigation, webView, webViews, tasks, loaded),
        Recovery(automaticReplayCount, recoveryGeneration, pendingAutomaticReplay, preservingAcrossRotation,
                 trackedNavigation, suppressedNavigations, rotations))
    }

    constructor ()
      ensures State() == INITIAL_COORDINATOR && fresh(machine)
    {
      machine := new BrowserProxyStateMachine();
      activeProxy, activeScope := None, None;
      lifecycleQueue, worker, failures, startedFor, joined := [], Waiting, [], [], [];
      isHandshakeAuthorityReady, destroyed, pendingNavigation, lastNavigation := false, false, None, None;
      webView, webViews, tasks, loaded := None, 0, [], [];
      automaticReplayCount, recoveryGeneration, pendingAutomaticReplay := 0, 0, None;
      preservingAcrossRotation, trackedNavigation, suppressedNavigations, rotations := false, None, [], 0;
    }

    // ---- Parts of execute ----

    method InvalidateQueuedRecoveryPreservingReplayBudget()
      modifies this
      ensures State() == old(State()).(recovery := Invalidated(old(State()).recovery))
    {
      recoveryGeneration := NextGeneration(recoveryGeneration);
      pendingAutomaticReplay := None;
      trackedNavigation := None;
    }

    /** The rest of a reset: the replay budget and the rotation flag. */
    method RefundReplayBudget()
      modifies this
      ensures State() == old(State()).(recovery := Refunded(old(State()).recovery))
    {
      automaticReplayCount := 0;
      preservingAcrossRotation := false;
      suppressedNavigations := [];
      rotations := 0;
    }

    method ResetProvisionalFailureRecovery()
      modifies this
      ensures State() == Reset(old(State()))
    {
      InvalidateQueuedRecoveryPreservingReplayBudget();
      RefundReplayBudget();
    }

    method RevokeWebView()
      modifies this
      ensures State() == RevokeView(old(State()))
    {
      if !preservingAcrossRotation {
        ResetProvisionalFailureRecovery();
      }
      webView := None;
    }

    method RetireActiveProxy()
      modifies this
      ensures State() == WithLife(old(State()), Retire(old(State()).life))
    {
      if activeProxy.Some? {
        lifecycleQueue := lifecycleQueue + [Join(activeProxy.value)];
        activeProxy, activeScope := None, None;
      }
    }

    method StartProxy(epoch: nat, scope: Scope)
      modifies this
      ensures State() == WithLife(old(State()), Queued(old(State()).life, epoch, scope))
    {
      lifecycleQueue := lifecycleQueue + [Start(epoch, scope)];
    }

    /** CandidateDisposition.setRetained. */
    method SetRetained(retained: bool)
      modifies this
      ensures State() == WithLife(old(State()), Disposed(old(State()).life, retained))
    {
      if worker.Delivered? {
        worker := Delivered(worker.session, retained);
      }
    }

    /** The candidate is the active session from here on. */
    method RetainCandidate(candidate: nat, scope: Scope)
      modifies this
      ensures State() == WithLife(old(State()), Publish(old(State()).life, candidate, scope))
    {
      activeProxy := Some(candidate);
      activeScope := Some(scope);
      SetRetained(true);
    }

    method AdmitPendingNavigation(epoch: nat, scope: Scope, env: Env)
      modifies this, machine
      ensures State() == Admit(old(State()), epoch, scope, env)
    {
      if activeProxy.None? || activeScope != Some(scope)
         || pendingNavigation.None? || pendingNavigation.value.destination.scope != scope {
        return;
      }
      var Navigation(request, destination) := pendingNavigation.value;
      var load := Load(request, destination.scope, activeScope.value, activeProxy.value, epoch,
                       isHandshakeAuthorityReady, |joined|);
      MakeWebView();
      EnterRecoveryOf(request);
      TakePendingNavigation();
      machine.NavigationAdmitted(epoch, scope);
      LoadRequest(load, env);
    }

    method TakePendingNavigation()
      modifies this
      ensures var c := old(State()); State() == c.(nav := c.nav.(last := c.nav.pending, pending := None))
    {
      lastNavigation := pendingNavigation;
      pendingNavigation := None;
    }

    /** Carry a recovery across its rotation, or start without one. */
    method EnterRecoveryOf(request: Request)
      modifies this
      ensures State() == old(State()).(recovery := Entered(old(State()).recovery, request))
    {
      if preservingAcrossRotation {
        pendingAutomaticReplay := Some(request);
        preservingAcrossRotation := false;
      } else {
        ResetProvisionalFailureRecovery();
      }
    }

    method MakeWebView()
      modifies this
      ensures State() == old(State()).(nav := WithWebView(old(State()).nav))
    {
      if webView.None? {
        webView := Some(webViews);
        webViews := webViews + 1;
      }
    }

    /** WebKit starts the load and names the navigation it will report on. */
    method LoadRequest(load: Load, env: Env)
      modifies this
      ensures var c := old(State());
              State() == c.(nav := c.nav.(loaded := c.nav.loaded + [load]), recovery := c.recovery.(tracked := env.navigation))
    {
      loaded := loaded + [load];
      trackedNavigation := env.navigation;
    }

    /** The failure of an admission, with the actions the machine answers. */
    method FailAdmission(epoch: nat, scope: Scope, env: Env)
      modifies this, machine
      ensures State() == ProxyCoordinator.FailAdmission(old(State()), epoch, scope)
      decreases 0, 1
    {
      var actions := machine.AdmissionFailed(epoch, scope);
      ghost var failed := State();
      if actions != [] {
        Execute2(failed, Action.RevokeWebView, ShowFailure(epoch), None, env);
      }
      Execute(actions, None, env);
    }

    method PublishCandidate(epoch: nat, scope: Scope, candidate: Option<nat>, env: Env)
      modifies this, machine
      ensures State() == ExecuteOne(old(State()), PublishCandidateAndAdmitWebView(epoch, scope), candidate, env)
      decreases 0, 2
    {
      if candidate.None? {
        FailAdmission(epoch, scope, env);
      } else if env.installs {
        RetainCandidate(candidate.value, scope);
        AdmitPendingNavigation(epoch, scope, env);
      } else {
        SetRetained(false);
        FailAdmission(epoch, scope, env);
      }
    }

    method Execute(actions: seq<Action>, candidate: Option<nat>, env: Env)
      modifies this, machine
      ensures State() == ProxyCoordinator.Execute(old(State()), actions, candidate, env)
      decreases if Admitting(actions) then 1 else 0, 0
    {
      var i := 0;
      while i < |actions|
        invariant i <= |actions|
        invariant ProxyCoordinator.Execute(State(), actions[i..], candidate, env)
               == ProxyCoordinator.Execute(old(State()), actions, candidate, env)
      {
        assert actions[i..][0] == actions[i] && actions[i..][1..] == actions[i + 1..];
        match actions[i] {
          case RevokeWebView => RevokeWebView();
          case RequestStopActiveProxy => RetireActiveProxy();
          case StartProxy(epoch, scope) => StartProxy(epoch, scope);
          case DisposeStaleProxy =>
            if candidate.Some? {
              SetRetained(false);
            }
          case DisposeStaleProxyThenStart(epoch, scope) =>
            if candidate.Some? {
              SetRetained(false);
            }
            StartProxy(epoch, scope);
          case PublishCandidateAndAdmitWebView(epoch, scope) =>
            PublishCandidate(epoch, scope, candidate, env);
          case AdmitThroughActiveProxy(epoch, scope) =>
            if activeProxy.None? || activeScope != Some(scope) {
              FailAdmission(epoch, scope, env);
              RetireActiveProxy();
            } else {
              AdmitPendingNavigation(epoch, scope, env);
            }
          case ShowFailure(_) => ResetProvisionalFailureRecovery();
        }
        i := i + 1;
      }
    }

    // ---- Requests from the outside ----

    method RetainLastNavigation()
      modifies this
      ensures State() == WithNav(old(State()), RetainLast(old(State()).nav))
    {
      if pendingNavigation.None? && lastNavigation.Some? && Replayable(lastNavigation.value.request) {
        pendingNavigation := lastNavigation;
      }
    }

    method DiscardUnsafePendingReplay()
      modifies this
      ensures State() == WithNav(old(State()), DiscardUnsafe(old(State()).nav))
    {
      if pendingNavigation.Some? && !Replayable(pendingNavigation.value.request) {
        pendingNavigation := None;
      }
    }

    method Resume(env: Env)
      modifies this, machine
      ensures State() == DoResume(old(State()), env)
    {
      if destroyed {
        return;
      }
      RetainLastNavigation();
      var actions := machine.Resume();
      Execute(actions, None, env);
    }

    method Suspend(env: Env)
      modifies this, machine
      ensures State() == DoSuspend(old(State()), env)
    {
      if destroyed {
        return;
      }
      ResetProvisionalFailureRecovery();
      DiscardUnsafePendingReplay();
      RetainLastNavigation();
      var actions := machine.Suspend(if pendingNavigation.Some? then Some(pendingNavigation.value.destination.scope) else None);
      Execute(actions, None, env);
    }

    method Destroy(env: Env)
      modifies this, machine
      ensures State() == DoDestroy(old(State()), env)
    {
      if destroyed {
        return;
      }
      destroyed := true;
      ResetProvisionalFailureRecovery();
      ForgetNavigations();
      var actions := machine.Destroy();
      Execute(actions, None, env);
    }

    method ForgetNavigations()
      modifies this
      ensures State() == WithNav(old(State()), old(State()).nav.(pending := None, last := None))
    {
      pendingNavigation := None;
      lastNavigation := None;
    }

    method Enqueue(navigation: Navigation, env: Env)
      modifies this, machine
      ensures State() == ProxyCoordinator.Enqueue(old(State()), navigation, env)
    {
      var destination := Routed(isHandshakeAuthorityReady, navigation.destination);
      ResetProvisionalFailureRecovery();
      pendingNavigation := Some(Navigation(navigation.request, destination));
      if !isHandshakeAuthorityReady && destination.scope != IcannBootstrap {
        Suspend(env);
      }
      var actions := machine.QueueNavigation(destination.scope);
      Execute(actions, None, env);
      if isHandshakeAuthorityReady || destination.scope == IcannBootstrap {
        Resume(env);
      }
    }

    method UpdateAuthorityAdmission(ready: bool, env: Env)
      modifies this, machine
      ensures State() == DoUpdateAuthority(old(State()), ready, env)
    {
      if destroyed {
        return;
      }
      isHandshakeAuthorityReady := ready;
      var current := if pendingNavigation.Some? then pendingNavigation else lastNavigation;
      if current.Some? {
        var Navigation(request, requested) := current.value;
        var destination := Routed(ready, requested);
        if destination.scope != requested.scope {
          if !Replayable(request) {
            Suspend(env);
            return;
          }
          Enqueue(Navigation(request, destination), env);
          return;
        }
        if ready || destination.scope == IcannBootstrap {
          Resume(env);
        } else {
          Suspend(env);
        }
      } else if ready {
        Resume(env);
      } else {
        Suspend(env);
      }
    }

    method Reload(env: Env)
      modifies this, machine
      ensures State() == DoReload(old(State()), env)
    {
      if lastNavigation.Some? && !Replayable(lastNavigation.value.request) {
        return;
      }
      if webView.None? {
        if lastNavigation.Some? {
          Enqueue(lastNavigation.value, env);
        }
        return;
      }
      ResetProvisionalFailureRecovery();
      trackedNavigation := env.navigation;
    }

    // ---- WebKit's delegate calls ----

    predicate IsAdmitted(destination: Destination, view: nat)
      reads this, machine
    {
      && webView == Some(view)
      && activeProxy.Some? && activeScope == Some(destination.scope)
      && machine.phase.Active? && machine.phase.scope == destination.scope
    }

    method EvaluateNavigationAction(request: Request)
      modifies this
      ensures State() == old(State()).(recovery := AfterNavigationAction(old(State()).recovery, request))
    {
      var isReplay := pendingAutomaticReplay.Some? && Matches(pendingAutomaticReplay.value, request);
      pendingAutomaticReplay := None;
      if isReplay {
      } else if suppressedNavigations != [] {
        InvalidateQueuedRecoveryPreservingReplayBudget();
      } else {
        ResetProvisionalFailureRecovery();
      }
    }

    /** decidePolicyFor a main-frame action; `allowed` is the decision. */
    method DecidePolicy(view: nat, request: Request, classified: Destination, env: Env) returns (allowed: bool)
      modifies this, machine
      ensures State() == DoDecidePolicy(old(State()), view, request, classified, env)
      ensures allowed == Admitted(old(State()), Routed(old(isHandshakeAuthorityReady), classified), view)
    {
      var destination := Routed(isHandshakeAuthorityReady, classified);
      if IsAdmitted(destination, view) {
        EvaluateNavigationAction(request);
        lastNavigation := Some(Navigation(request, destination));
        return true;
      }
      allowed := false;
      if activeScope == Some(destination.scope) {
        return;
      }
      if !Replayable(request) {
        return;
      }
      Enqueue(Navigation(request, destination), env);
    }

    method DidStartProvisionalNavigation(view: nat, navigation: Option<nat>)
      modifies this
      ensures State() == DoDidStart(old(State()), view, navigation)
    {
      if webView == Some(view) && navigation.Some? {
        trackedNavigation := navigation;
      }
    }

    method DidFinish(view: nat)
      modifies this
      ensures State() == DoDidFinish(old(State()), view)
    {
      if webView == Some(view) {
        ResetProvisionalFailureRecovery();
      }
    }

    method DidFailProvisionalNavigation(view: nat, navigation: Option<nat>, error: ProvisionalError, env: Env)
      modifies this
      ensures State() == DoDidFailProvisional(old(State()), view, navigation, error, env)
    {
      if webView != Some(view) {
        return;
      }
      if navigation.Some? && trackedNavigation.Some? && trackedNavigation != navigation && error.InterruptedByPolicyChange? {
        return;
      }
      var recovered := RecoverProvisionalNavigationIfAllowed(view, navigation, error, env);
      if !recovered {
        ResetProvisionalFailureRecovery();
      }
    }

    method RecoverProvisionalNavigationIfAllowed(view: nat, navigation: Option<nat>, error: ProvisionalError, env: Env)
      returns (recovered: bool)
      requires webView == Some(view)
      modifies this
      ensures (State(), recovered) == RecoverIfAllowed(old(State()), view, navigation, error, env)
    {
      if destroyed || lastNavigation.None? || navigation.None? {
        return false;
      }
      if navigation.value in suppressedNavigations {
        return true;
      }
      var Navigation(request, destination) := lastNavigation.value;
      if trackedNavigation != navigation || !error.ConnectionLostOrTimedOut?
         || automaticReplayCount >= MAX_REPLAYS || !Replayable(request) {
        return false;
      }
      if !env.hasDelegate {
        return false;
      }
      var backoff := automaticReplayCount > 0;
      automaticReplayCount := automaticReplayCount + 1;
      suppressedNavigations := suppressedNavigations + [navigation.value];
      if !backoff && !env.schedules {
        return false;
      }
      tasks := tasks + [RecoveryTask(view, request, destination, recoveryGeneration, !backoff)];
      recovered := true;
    }

    method DidFail(view: nat, navigation: Option<nat>)
      modifies this
      ensures State() == DoDidFail(old(State()), view, navigation)
    {
      if webView != Some(view) || (navigation.Some? && navigation.value in suppressedNavigations) {
        return;
      }
      ResetProvisionalFailureRecovery();
    }

    method WebContentProcessDidTerminate(view: nat, env: Env)
      modifies this, machine
      ensures State() == DoRendererTerminated(old(State()), view, env)
    {
      if webView != Some(view) {
        return;
      }
      ResetProvisionalFailureRecovery();
      DiscardUnsafePendingReplay();
      RetainLastNavigation();
      var actions := machine.RendererTerminated(
        if pendingNavigation.Some? then Some(pendingNavigation.value.destination.scope) else None);
      Execute(actions, None, env);
    }

    // ---- Delayed recovery ----

    predicate IsStillWanted(task: RecoveryTask)
      reads this
    {
      && !destroyed
      && webView == Some(task.webView)
      && recoveryGeneration == task.generation
      && lastNavigation.Some?
      && lastNavigation.value.destination == task.destination
      && Matches(lastNavigation.value.request, task.request)
    }

    method BackoffElapsed(task: RecoveryTask, env: Env)
      modifies this
      ensures State() == FireBackoff(old(State()), task, env)
    {
      if !IsStillWanted(task) {
        return;
      }
      if env.hasDelegate && env.schedules {
        tasks := tasks + [task.(atSafePoint := true)];
      } else {
        ResetProvisionalFailureRecovery();
      }
    }

    method RotateProxyAndWebViewForProvisionalFailureRecovery(task: RecoveryTask, env: Env)
      modifies this, machine
      ensures State() == Rotate(old(State()), task, env)
    {
      if !IsStillWanted(task) || !machine.phase.Active? || machine.phase.scope != task.destination.scope {
        return;
      }
      PrepareRotation(task);
      PerformRotation(task.destination.scope, env);
    }

    method PrepareRotation(task: RecoveryTask)
      modifies this
      ensures State() == RotationPrepared(old(State()), task)
    {
      pendingNavigation := Some(Navigation(task.request, task.destination));
      preservingAcrossRotation := true;
    }

    method PerformRotation(scope: Scope, env: Env)
      modifies this, machine
      ensures State() == Rotated(old(State()), scope, env)
    {
      var actions := machine.RecoverProvisionalNavigation(scope);
      if actions == [] {
        AbandonRotation();
      } else {
        CountRotation();
        Execute(actions, None, env);
      }
    }

    method AbandonRotation()
      modifies this
      ensures State() == RotationAbandoned(old(State()))
    {
      preservingAcrossRotation := false;
      pendingNavigation := None;
    }

    method CountRotation()
      modifies this
      ensures State() == RotationCounted(old(State()))
    {
      rotations := rotations + 1;
    }

    // ---- The lifecycle queue and its callbacks ----

    /** The queue runs its next job up to the main-actor callback. */
    method RunNextJob(succeeds: bool)
      modifies this
      ensures State() == WithLife(old(State()), TakeJob(old(State()).life, succeeds))
    {
      if !worker.Waiting? || lifecycleQueue == [] {
        return;
      }
      var job := lifecycleQueue[0];
      lifecycleQueue := lifecycleQueue[1..];
      match job {
        case Join(session) => joined := joined + [session];
        case Start(epoch, scope) =>
          if succeeds {
            worker := Created(epoch, scope, |startedFor|);
            startedFor := startedFor + [Started(epoch, scope)];
          } else {
            failures := failures + [FailedStart(epoch, scope)];
          }
      }
    }

    method ProxyStartSucceeded(env: Env)
      modifies this, machine
      ensures State() == DeliverStarted(old(State()), env)
    {
      if !worker.Created? {
        return;
      }
      var Created(epoch, scope, candidate) := worker;
      worker := Delivered(candidate, false);
      var actions := machine.ProxyStarted(epoch, scope, true);
      Execute(actions, Some(candidate), env);
    }

    method ProxyStartFailed(i: nat, env: Env)
      modifies this, machine
      ensures State() == DeliverFailed(old(State()), i, env)
    {
      if i < |failures| {
        var FailedStart(epoch, scope) := failures[i];
        failures := failures[..i] + failures[i + 1..];
        var actions := machine.ProxyStarted(epoch, scope, false);
        Execute(actions, None, env);
      }
    }

    /** After the semaphore: join a candidate that was not retained. */
    method FinishStart()
      modifies this
      ensures State() == WithLife(old(State()), FinishJob(old(State()).life))
    {
      if worker.Delivered? {
        if !worker.retained {
          joined := joined + [worker.session];
        }
        worker := Waiting;
      }
    }
  }
}
