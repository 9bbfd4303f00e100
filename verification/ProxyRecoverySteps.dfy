/** The recovery budget as an invariant. */
module ProxyRecoveryBudget {
  import opened Wrappers
  import opened ProxyCoordinator

  /** A scheduled recovery that could still rotate. */
  predicate Live(t: RecoveryTask, n: Nav, r: Recovery) {
    n.webView == Some(t.webView) && t.generation == r.generation
  }

  ghost predicate Budget(n: Nav, r: Recovery) {
    && r.replayCount == |r.suppressed| <= MAX_REPLAYS
    && r.rotations <= r.replayCount
    && (n.webView.Some? ==> n.webView.value < n.webViews)
    && (forall t <- n.tasks :: t.webView < n.webViews && t.generation <= r.generation)
    && (forall t <- n.tasks :: Live(t, n, r) ==> r.rotations < r.replayCount)
  }

  /** `Budget`, and at most `spent` resets since generation g. */
  ghost predicate Within(c: Coordinator, g: nat, spent: nat) {
    Budget(c.nav, c.recovery) && c.recovery.generation <= g + spent
  }
}

/** Every step of the coordinator keeps the budget. */
module ProxyRecoverySteps {
  import opened Wrappers
  import opened ProxyMachine
  import opened ProxyCoordinator
  import opened ProxyRecoveryBudget

  lemma ResetWithin(c: Coordinator, g: nat, spent: nat)
    requires Within(c, g, spent) && g + spent < MAX_EPOCH
    ensures Within(Reset(c), g, spent + 1)
  {
  }

  /** Dropping or replacing the WebView by a new one leaves no live task. */
  lemma RevokeWithin(c: Coordinator, g: nat, spent: nat)
    requires Within(c, g, spent) && g + spent < MAX_EPOCH
    ensures Within(RevokeView(c), g, spent + 1)
  {
  }

  lemma AdmitWithin(c: Coordinator, epoch: nat, scope: Scope, env: Env, g: nat, spent: nat)
    requires Within(c, g, spent) && g + spent < MAX_EPOCH
    ensures Within(Admit(c, epoch, scope, env), g, spent + 1)
  {
  }

  lemma FailAdmissionWithin(c: Coordinator, epoch: nat, scope: Scope, g: nat, spent: nat)
    requires Within(c, g, spent) && g + spent + 1 < MAX_EPOCH
    ensures Within(FailAdmission(c, epoch, scope), g, spent + 2)
  {
    var failed := c.(machine := AdmissionFailed(c.machine, epoch, scope).0);
    RevokeWithin(failed, g, spent);
    ResetWithin(RevokeView(failed), g, spent + 1);
  }

  lemma ExecuteOneWithin(c: Coordinator, action: Action, candidate: Option<nat>, env: Env, g: nat, spent: nat)
    requires Within(c, g, spent) && g + spent + 1 < MAX_EPOCH
    ensures Within(ExecuteOne(c, action, candidate, env), g, spent + 2)
  {
    match action {
      case RevokeWebView => RevokeWithin(c, g, spent);
      case ShowFailure(_) => ResetWithin(c, g, spent);
      case PublishCandidateAndAdmitWebView(epoch, scope) =>
        if candidate.None? {
          FailAdmissionWithin(c, epoch, scope, g, spent);
        } else if env.installs {
          AdmitWithin(WithLife(c, Publish(c.life, candidate.value, scope)), epoch, scope, env, g, spent);
        } else {
          FailAdmissionWithin(WithLife(c, Disposed(c.life, false)), epoch, scope, g, spent);
        }
      case AdmitThroughActiveProxy(epoch, scope) =>
        AdmitWithin(c, epoch, scope, env, g, spent);
        FailAdmissionWithin(c, epoch, scope, g, spent);
      case _ =>
    }
  }

  lemma {:induction false} ExecuteWithin(c: Coordinator, actions: seq<Action>, candidate: Option<nat>, env: Env, g: nat, spent: nat)
    requires Within(c, g, spent) && g + spent + 2 * |actions| < MAX_EPOCH
    ensures Within(Execute(c, actions, candidate, env), g, spent + 2 * |actions|)
    decreases |actions|
  {
    if actions != [] {
      ExecuteOneWithin(c, actions[0], candidate, env, g, spent);
      ExecuteWithin(ExecuteOne(c, actions[0], candidate, env), actions[1..], candidate, env, g, spent + 2);
    }
  }

  /** No transition asks for more than three actions. */
  lemma PerformWithin(c: Coordinator, step: (Machine, seq<Action>), env: Env, g: nat, spent: nat)
    requires Within(c, g, spent) && |step.1| <= 3 && g + spent + 6 < MAX_EPOCH
    ensures Within(Perform(c, step, env), g, spent + 6)
  {
    ExecuteWithin(c.(machine := step.0), step.1, None, env, g, spent);
  }

  lemma DoResumeWithin(c: Coordinator, env: Env, g: nat, spent: nat)
    requires Within(c, g, spent) && g + spent + 6 < MAX_EPOCH
    ensures Within(DoResume(c, env), g, spent + 6)
  {
    var d := WithNav(c, RetainLast(c.nav));
    PerformWithin(d, ProxyMachine.Resume(d.machine), env, g, spent);
  }

  lemma DoSuspendWithin(c: Coordinator, env: Env, g: nat, spent: nat)
    requires Within(c, g, spent) && g + spent + 7 < MAX_EPOCH
    ensures Within(DoSuspend(c, env), g, spent + 7)
  {
    ResetWithin(c, g, spent);
    var d := WithNav(Reset(c), RetainLast(DiscardUnsafe(c.nav)));
    PerformWithin(d, ProxyMachine.Suspend(d.machine, PendingScope(d.nav)), env, g, spent + 1);
  }

  lemma EnqueueWithin(c: Coordinator, navigation: Navigation, env: Env, g: nat)
    requires Within(c, g, 0) && g + 20 < MAX_EPOCH
    ensures Within(Enqueue(c, navigation, env), g, 20)
  {
    var destination := Routed(c.nav.ready, navigation.destination);
    ResetWithin(c, g, 0);
    var c1 := WithNav(Reset(c), c.nav.(pending := Some(Navigation(navigation.request, destination))));
    var c2 := c1;
    if !MayBrowse(c1, destination.scope) {
      c2 := DoSuspend(c1, env);
      DoSuspendWithin(c1, env, g, 1);
    }
    var c3 := Perform(c2, QueueNavigation(c2.machine, destination.scope), env);
    PerformWithin(c2, QueueNavigation(c2.machine, destination.scope), env, g, 8);
    DoResumeWithin(c3, env, g, 14);
  }

  lemma EnqueueRoutedWithin(c: Coordinator, navigation: Navigation, env: Env, g: nat)
    requires Within(c, g, 0) && g + 20 < MAX_EPOCH
    ensures var destination := Routed(c.nav.ready, navigation.destination);
            Within(Enqueue(c, Navigation(navigation.request, destination), env), g, 20)
  {
    EnqueueWithin(c, Navigation(navigation.request, Routed(c.nav.ready, navigation.destination)), env, g);
  }

  lemma UpdateAuthorityWithin(c: Coordinator, ready: bool, env: Env, g: nat)
    requires Within(c, g, 0) && g + 20 < MAX_EPOCH
    ensures Within(DoUpdateAuthority(c, ready, env), g, 20)
  {
    var d := WithNav(c, c.nav.(ready := ready));
    assert Within(d, g, 0);
    DoResumeWithin(d, env, g, 0);
    DoSuspendWithin(d, env, g, 0);
    var current := if c.nav.pending.Some? then c.nav.pending else c.nav.last;
    if current.Some? {
      EnqueueRoutedWithin(d, current.value, env, g);
    }
  }

  /** A redirect invalidates queued recoveries without refunding the budget. */
  lemma AfterActionWithin(n: Nav, r: Recovery, request: Request)
    requires Budget(n, r) && r.generation < MAX_EPOCH
    ensures Budget(n, AfterNavigationAction(r, request))
    ensures AfterNavigationAction(r, request).generation <= r.generation + 1
  {
  }

  /** A counted failure pays for the recovery it schedules. */
  lemma DidFailProvisionalWithin(c: Coordinator, webView: nat, identity: Option<nat>, error: ProvisionalError, env: Env, g: nat)
    requires Within(c, g, 0) && g + 20 < MAX_EPOCH
    ensures Within(DoDidFailProvisional(c, webView, identity, error, env), g, 20)
  {
    ResetWithin(c, g, 0);
    if identity.Some? && c.nav.last.Some? && MayRecover(c.recovery, c.nav.last.value.request, identity.value, error) {
      var counted := c.(recovery := CountFailure(c.recovery, identity.value));
      assert Within(counted, g, 0);
      ResetWithin(counted, g, 0);
    }
  }

  lemma FireBackoffWithin(c: Coordinator, task: RecoveryTask, env: Env, g: nat)
    requires Within(c, g, 0) && g + 20 < MAX_EPOCH && task in c.nav.tasks
    ensures Within(FireBackoff(c, task, env), g, 20)
  {
    ResetWithin(c, g, 0);
  }

  /** A rotation uses up one counted failure and ends every scheduled recovery of
      the WebView it replaces. */
  lemma RotateWithin(c: Coordinator, task: RecoveryTask, env: Env, g: nat)
    requires Within(c, g, 0) && g + 20 < MAX_EPOCH && task in c.nav.tasks
    ensures Within(Rotate(c, task, env), g, 20)
  {
    if StillWanted(c, task) && c.machine.phase.Active? && c.machine.phase.scope == task.destination.scope {
      var step := RecoverProvisionalNavigation(c.machine, task.destination.scope);
      if step.1 != [] {
        var d := WithNav(c.(recovery := c.recovery.(preserving := true, rotations := c.recovery.rotations + 1)),
                         c.nav.(pending := Some(Navigation(task.request, task.destination))));
        assert Live(task, c.nav, c.recovery);
        var e := d.(machine := step.0);
        var revoked := RevokeView(e);
        assert revoked.recovery == d.recovery && revoked.nav.webView.None?;
        assert Within(revoked, g, 0);
        assert step.1[0] == RevokeWebView;
        ExecuteWithin(revoked, step.1[1..], None, env, g, 0);
      }
    }
  }

  lemma DestroyWithin(c: Coordinator, env: Env, g: nat)
    requires Within(c, g, 0) && g + 20 < MAX_EPOCH
    ensures Within(DoDestroy(c, env), g, 20)
  {
    ResetWithin(c, g, 0);
    var d := WithNav(Reset(c), c.nav.(destroyed := true, pending := None, last := None));
    PerformWithin(d, ProxyMachine.Destroy(d.machine), env, g, 1);
  }

  lemma RendererTerminatedWithin(c: Coordinator, webView: nat, env: Env, g: nat)
    requires Within(c, g, 0) && g + 20 < MAX_EPOCH
    ensures Within(DoRendererTerminated(c, webView, env), g, 20)
  {
    ResetWithin(c, g, 0);
    var d := WithNav(Reset(c), RetainLast(DiscardUnsafe(c.nav)));
    PerformWithin(d, ProxyMachine.RendererTerminated(d.machine, PendingScope(d.nav)), env, g, 1);
  }

  lemma ReloadWithin(c: Coordinator, env: Env, g: nat)
    requires Within(c, g, 0) && g + 20 < MAX_EPOCH
    ensures Within(DoReload(c, env), g, 20)
  {
    if c.nav.webView.Some? {
      ResetWithin(c, g, 0);
    } else if c.nav.last.Some? {
      EnqueueWithin(c, c.nav.last.value, env, g);
    }
  }

  lemma DecidePolicyWithin(c: Coordinator, webView: nat, request: Request, classified: Destination, env: Env, g: nat)
    requires Within(c, g, 0) && g + 20 < MAX_EPOCH
    ensures Within(DoDecidePolicy(c, webView, request, classified, env), g, 20)
  {
    AfterActionWithin(c.nav, c.recovery, request);
    EnqueueWithin(c, Navigation(request, Routed(c.nav.ready, classified)), env, g);
  }

  lemma StartedWithin(c: Coordinator, env: Env, g: nat)
    requires Within(c, g, 0) && g + 20 < MAX_EPOCH
    ensures Within(DeliverStarted(c, env), g, 20)
  {
    if c.life.worker.Created? {
      var Created(epoch, scope, session) := c.life.worker;
      var step := ProxyStarted(c.machine, epoch, scope, true);
      ExecuteWithin(Coordinator(step.0, c.life.(worker := Delivered(session, false)), c.nav, c.recovery),
                    step.1, Some(session), env, g, 0);
    }
  }

  lemma StartFailedWithin(c: Coordinator, i: nat, env: Env, g: nat)
    requires Within(c, g, 0) && g + 20 < MAX_EPOCH
    ensures Within(DeliverFailed(c, i, env), g, 20)
  {
    if i < |c.life.failures| {
      var f := c.life.failures[i];
      var d := WithLife(c, c.life.(failures := c.life.failures[..i] + c.life.failures[i + 1..]));
      PerformWithin(d, ProxyStarted(d.machine, f.epoch, f.scope, false), env, g, 0);
    }
  }

  lemma DelegateWithin(c: Coordinator, event: Event, env: Env, g: nat)
    requires Within(c, g, 0) && g + 20 < MAX_EPOCH
    requires event.StopLoading? || event.DecidePolicy? || event.DidStart? || event.DidFinish? || event.DidFailProvisional?
             || event.DidFail? || event.RendererDied? || event.Reload?
    ensures Within(Step(c, event, env), g, 20)
  {
    ResetWithin(c, g, 0);
    match event {
      case DecidePolicy(webView, request, classified) => DecidePolicyWithin(c, webView, request, classified, env, g);
      case DidFailProvisional(webView, identity, error) => DidFailProvisionalWithin(c, webView, identity, error, env, g);
      case RendererDied(webView) => RendererTerminatedWithin(c, webView, env, g);
      case Reload => ReloadWithin(c, env, g);
      case _ =>
    }
  }

  lemma StepWithin(c: Coordinator, event: Event, env: Env, g: nat)
    requires Within(c, g, 0) && g + 20 < MAX_EPOCH
    ensures Within(Step(c, event, env), g, 20)
  {
    match event {
      case Navigate(navigation) => EnqueueWithin(c, navigation, env, g);
      case UpdateAuthority(ready) => UpdateAuthorityWithin(c, ready, env, g);
      case SuspendBrowsing => DoSuspendWithin(c, env, g, 0);
      case DestroyCoordinator => DestroyWithin(c, env, g);
      case BackoffElapsed(i) =>
        if i < |c.nav.tasks| {
          FireBackoffWithin(c, c.nav.tasks[i], env, g);
        }
      case SafePointReached(i) =>
        if i < |c.nav.tasks| {
          RotateWithin(c, c.nav.tasks[i], env, g);
        }
      case StartDelivered => StartedWithin(c, env, g);
      case FailureDelivered(i) => StartFailedWithin(c, i, env, g);
      case JobTaken(_) =>
      case JobFinished =>
      case _ => DelegateWithin(c, event, env, g);
    }
  }

  lemma {:induction false} RunWithin(events: seq<(Event, Env)>)
    requires Unwrapped(events)
    ensures Budget(Run(events).nav, Run(events).recovery)
    decreases |events|
  {
    if events != [] {
      var before := Run(events[..|events| - 1]);
      RunWithin(events[..|events| - 1]);
      StepWithin(before, events[|events| - 1].0, events[|events| - 1].1, before.recovery.generation);
    }
  }
}
