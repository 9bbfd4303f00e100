/** What is shown and current is routed for the authority as it is now. */
module ProxyAuthorityGate {
  import opened Wrappers
  import opened ProxyMachine
  import opened ProxyCoordinator

  /** The one proxy scope that may be used. */
  function Expected(ready: bool): Scope {
    if ready then WholeBrowser else IcannBootstrap
  }

  function Current(n: Nav): Option<Navigation> {
    if n.pending.Some? then n.pending else n.last
  }

  /** The current navigation is routed for the authority as it is now. */
  predicate Due(n: Nav) {
    Current(n).Some? ==> Current(n).value.destination.scope == Expected(n.ready)
  }

  ghost predicate LoadsDue(loaded: seq<Load>) {
    loaded != [] ==>
      && loaded[|loaded| - 1].destinationScope == Expected(loaded[|loaded| - 1].ready)
      && LoadsDue(loaded[..|loaded| - 1])
  }

  /** A WebView shows the last navigation through the active proxy. */
  predicate Shows(m: Machine, n: Nav) {
    n.webView.Some? ==> m.phase.Active? && n.last.Some? && n.last.value.destination.scope == m.phase.scope
  }

  ghost predicate Base(c: Coordinator) {
    && Consistent(c.machine) && (c.nav.destroyed ==> c.machine.phase.Destroyed?)
    && Shows(c.machine, c.nav) && LoadsDue(c.nav.loaded)
  }

  /** What is shown is routed for the authority as it is now. */
  predicate ShownDue(n: Nav) {
    n.webView.Some? && n.last.Some? ==> n.last.value.destination.scope == Expected(n.ready)
  }

  ghost predicate Gate(c: Coordinator) {
    Base(c) && (c.machine.isForeground ==> Due(c.nav) && ShownDue(c.nav))
  }
}

/** Every step of the coordinator keeps the gate. */
module ProxyAuthoritySteps {
  import opened Wrappers
  import opened Sequences
  import opened ProxyMachine
  import opened ProxyCoordinator
  import opened ProxyAuthorityGate

  lemma OneMoreDue(loaded: seq<Load>, load: Load)
    requires LoadsDue(loaded) && load.destinationScope == Expected(load.ready)
    ensures LoadsDue(loaded + [load])
  {
    DropLast(loaded, load);
  }

  lemma AdmitGate(c: Coordinator, epoch: nat, scope: Scope, env: Env)
    requires Gate(c) && c.machine.phase == Active(epoch, scope)
    ensures Gate(Admit(c, epoch, scope, env))
  {
    var n := Admit(c, epoch, scope, env).nav;
    if n.loaded != c.nav.loaded {
      OneMoreDue(c.nav.loaded, n.loaded[|c.nav.loaded|]);
    }
  }

  /** Nothing is shown; the machine stays or goes to the background, or what is
      current is due. */
  lemma HiddenGate(c: Coordinator, m: Machine)
    requires Base(c) && c.nav.webView.None? && Consistent(m) && (c.nav.destroyed ==> m.phase.Destroyed?)
    requires m.isForeground ==> Due(c.nav)
    ensures Gate(c.(machine := m))
  {
  }

  lemma ExecuteOneHidden(c: Coordinator, action: Action, env: Env)
    requires Gate(c) && c.nav.webView.None?
    requires action.RequestStopActiveProxy? || action.StartProxy? || action.RevokeWebView? || action.ShowFailure?
    ensures Gate(ExecuteOne(c, action, None, env)) && ExecuteOne(c, action, None, env).nav.webView.None?
  {
  }

  lemma {:induction false} ExecuteHidden(c: Coordinator, actions: seq<Action>, env: Env)
    requires Gate(c) && c.nav.webView.None?
    requires forall a <- actions :: a.RequestStopActiveProxy? || a.StartProxy? || a.RevokeWebView? || a.ShowFailure?
    ensures Gate(Execute(c, actions, None, env))
    decreases |actions|
  {
    if actions != [] {
      assert actions[0] in actions;
      ExecuteOneHidden(c, actions[0], env);
      ExecuteHidden(ExecuteOne(c, actions[0], None, env), actions[1..], env);
    }
  }

  /** A transition that revokes the WebView first. */
  lemma RevokingGate(c: Coordinator, step: (Machine, seq<Action>), env: Env)
    requires Base(c) && Consistent(step.0) && (c.nav.destroyed ==> step.0.phase.Destroyed?)
    requires step.0.isForeground ==> Due(c.nav)
    requires step.1 != [] && step.1[0].RevokeWebView?
    requires forall a <- step.1 :: a.RequestStopActiveProxy? || a.StartProxy? || a.RevokeWebView? || a.ShowFailure?
    ensures Gate(Perform(c, step, env))
  {
    var d := RevokeView(c.(machine := step.0));
    assert Gate(d);
    ExecuteHidden(d, step.1[1..], env);
  }

  /** One that starts a proxy, or does nothing, while no WebView is shown. */
  lemma HiddenStepGate(c: Coordinator, step: (Machine, seq<Action>), env: Env)
    requires Base(c) && c.nav.webView.None? && Consistent(step.0) && (c.nav.destroyed ==> step.0.phase.Destroyed?)
    requires step.0.isForeground ==> Due(c.nav)
    requires forall a <- step.1 :: a.RequestStopActiveProxy? || a.StartProxy? || a.RevokeWebView? || a.ShowFailure?
    ensures Gate(Perform(c, step, env))
  {
    HiddenGate(c, step.0);
    ExecuteHidden(c.(machine := step.0), step.1, env);
  }

  lemma AdmitThroughGate(c: Coordinator, m: Machine, epoch: nat, scope: Scope, env: Env)
    requires Base(c) && Due(c.nav) && ShownDue(c.nav) && !c.nav.destroyed
    requires Consistent(m) && m.phase == c.machine.phase == Active(epoch, scope)
    ensures Gate(Perform(c, (m, [AdmitThroughActiveProxy(epoch, scope)]), env))
  {
    var d := c.(machine := m);
    Execute1(d, AdmitThroughActiveProxy(epoch, scope), None, env);
    AdmitGate(d, epoch, scope, env);
  }

  // ---- Requests ----

  /** Queueing the expected scope replaces a proxy of the other one. */
  lemma QueueGate(c: Coordinator, env: Env)
    requires Base(c) && Due(c.nav)
    ensures Gate(Perform(c, QueueNavigation(c.machine, Expected(c.nav.ready)), env))
  {
    var m, scope := c.machine, Expected(c.nav.ready);
    var step := QueueNavigation(m, scope);
    if m.phase.Active? && m.phase.scope == scope {
      AdmitThroughGate(c, step.0, m.phase.epoch, scope, env);
    } else if m.phase.Active? {
      RevokingGate(c, step, env);
    } else {
      HiddenStepGate(c, step, env);
    }
  }

  /** In the background a scope is only remembered. */
  lemma QueueInBackground(c: Coordinator, scope: Scope, env: Env)
    requires Base(c) && !c.machine.isForeground
    ensures Gate(Perform(c, QueueNavigation(c.machine, scope), env))
    ensures !Perform(c, QueueNavigation(c.machine, scope), env).machine.isForeground
  {
  }

  lemma DoResumeGate(c: Coordinator, env: Env)
    requires Base(c) && Due(c.nav) && ShownDue(c.nav)
    ensures Gate(DoResume(c, env))
  {
    if !c.nav.destroyed {
      var d := WithNav(c, RetainLast(c.nav));
      var m := d.machine;
      var step := ProxyMachine.Resume(m);
      if m.phase.Active? && m.pendingScope.None? {
        assert step == (m, []);
      } else if m.phase.Active? && m.pendingScope.value == m.phase.scope {
        AdmitThroughGate(d, step.0, m.phase.epoch, m.phase.scope, env);
      } else if m.phase.Active? {
        RevokingGate(d, step, env);
      } else {
        HiddenStepGate(d, step, env);
      }
    }
  }

  lemma DoSuspendGate(c: Coordinator, env: Env)
    requires Base(c)
    ensures Gate(DoSuspend(c, env)) && !DoSuspend(c, env).machine.isForeground
    ensures DoSuspend(c, env).nav.ready == c.nav.ready
  {
    if !c.nav.destroyed {
      var d := WithNav(Reset(c), RetainLast(DiscardUnsafe(c.nav)));
      var step := ProxyMachine.Suspend(d.machine, PendingScope(d.nav));
      if c.machine.phase.Active? {
        Execute2(d.(machine := step.0), RevokeWebView, RequestStopActiveProxy, None, env);
      } else {
        assert step.0 == d.machine || step.1 == [RevokeWebView];
        Execute1(d.(machine := step.0), RevokeWebView, None, env);
      }
    }
  }

  lemma EnqueueGate(c: Coordinator, navigation: Navigation, env: Env)
    requires Base(c)
    ensures Gate(Enqueue(c, navigation, env))
  {
    var destination := Routed(c.nav.ready, navigation.destination);
    var c1 := WithNav(Reset(c), c.nav.(pending := Some(Navigation(navigation.request, destination))));
    if MayBrowse(c1, destination.scope) {
      var c3 := Perform(c1, QueueNavigation(c1.machine, destination.scope), env);
      QueueGate(c1, env);
      QueueKeepsDue(c1, env);
      DoResumeGate(c3, env);
    } else {
      DoSuspendGate(c1, env);
      QueueInBackground(DoSuspend(c1, env), destination.scope, env);
      QueueKeepsReady(DoSuspend(c1, env), destination.scope, env);
    }
  }

  /** Queueing loads what is pending or leaves it; either way it stays current. */
  lemma QueueKeepsDue(c: Coordinator, env: Env)
    requires Base(c) && c.nav.pending.Some? && Due(c.nav)
    ensures var d := Perform(c, QueueNavigation(c.machine, Expected(c.nav.ready)), env);
            d.nav.ready == c.nav.ready && Due(d.nav) && ShownDue(d.nav)
  {
    var m, scope := c.machine, Expected(c.nav.ready);
    var step := QueueNavigation(m, scope);
    var d := c.(machine := step.0);
    if |step.1| == 1 {
      assert step.1 == [step.1[0]];
      Execute1(d, step.1[0], None, env);
    } else if |step.1| == 3 {
      assert step.1 == [step.1[0], step.1[1], step.1[2]];
      Execute3(d, step.1[0], step.1[1], step.1[2], None, env);
    }
  }

  lemma QueueKeepsReady(c: Coordinator, scope: Scope, env: Env)
    requires !c.machine.isForeground
    ensures Perform(c, QueueNavigation(c.machine, scope), env).nav == c.nav
  {
  }

  lemma UpdateAuthorityGate(c: Coordinator, ready: bool, env: Env)
    requires Gate(c)
    ensures Gate(DoUpdateAuthority(c, ready, env))
  {
    var d := WithNav(c, c.nav.(ready := ready));
    DoSuspendGate(d, env);
    if Current(c.nav).Some? {
      var navigation := Current(c.nav).value;
      var destination := Routed(ready, navigation.destination);
      EnqueueGate(d, Navigation(navigation.request, destination), env);
      if destination.scope == navigation.destination.scope && MayBrowse(d, destination.scope) {
        DoResumeGate(d, env);
      }
    } else if ready {
      DoResumeGate(d, env);
    }
  }

  lemma DestroyGate(c: Coordinator, env: Env)
    requires Gate(c)
    ensures Gate(DoDestroy(c, env))
  {
    if !c.nav.destroyed {
      var d := WithNav(Reset(c), c.nav.(destroyed := true, pending := None, last := None));
      var step := ProxyMachine.Destroy(d.machine);
      if c.machine.phase.Active? {
        Execute2(d.(machine := step.0), RevokeWebView, RequestStopActiveProxy, None, env);
      } else if step.1 != [] {
        Execute1(d.(machine := step.0), RevokeWebView, None, env);
      }
    }
  }

  lemma RendererTerminatedGate(c: Coordinator, webView: nat, env: Env)
    requires Gate(c)
    ensures Gate(DoRendererTerminated(c, webView, env))
  {
    if c.nav.webView == Some(webView) {
      var d := WithNav(Reset(c), RetainLast(DiscardUnsafe(c.nav)));
      assert Due(d.nav);
      RevokingGate(d, ProxyMachine.RendererTerminated(d.machine, PendingScope(d.nav)), env);
    }
  }

  lemma RotateGate(c: Coordinator, task: RecoveryTask, env: Env)
    requires Gate(c)
    ensures Gate(Rotate(c, task, env))
  {
    if StillWanted(c, task) && c.machine.phase.Active? && c.machine.phase.scope == task.destination.scope {
      var d := WithNav(c.(recovery := c.recovery.(preserving := true, rotations := c.recovery.rotations + 1)),
                       c.nav.(pending := Some(Navigation(task.request, task.destination))));
      RevokingGate(d, RecoverProvisionalNavigation(c.machine, task.destination.scope), env);
    }
  }

  lemma DecidePolicyGate(c: Coordinator, webView: nat, request: Request, classified: Destination, env: Env)
    requires Gate(c)
    ensures Gate(DoDecidePolicy(c, webView, request, classified, env))
  {
    EnqueueGate(c, Navigation(request, Routed(c.nav.ready, classified)), env);
  }

  /** The callbacks of starts: nothing is shown while one is waited for. */
  lemma StartedGate(c: Coordinator, env: Env)
    requires Gate(c)
    ensures Gate(DeliverStarted(c, env))
  {
    if c.life.worker.Created? {
      var Created(epoch, scope, session) := c.life.worker;
      var step := ProxyStarted(c.machine, epoch, scope, true);
      var d := Coordinator(step.0, c.life.(worker := Delivered(session, false)), c.nav, c.recovery);
      assert step.1 == [step.1[0]];
      Execute1(d, step.1[0], Some(session), env);
      if step.1[0].PublishCandidateAndAdmitWebView? {
        assert Gate(d);
        if env.installs {
          AdmitGate(WithLife(d, Publish(d.life, session, scope)), epoch, scope, env);
        }
      }
    }
  }

  lemma StartFailedGate(c: Coordinator, i: nat, env: Env)
    requires Gate(c)
    ensures Gate(DeliverFailed(c, i, env))
  {
    if i < |c.life.failures| {
      var f := c.life.failures[i];
      var d := WithLife(c, c.life.(failures := c.life.failures[..i] + c.life.failures[i + 1..]));
      var step := ProxyStarted(d.machine, f.epoch, f.scope, false);
      if step == (d.machine, []) {
        assert Perform(d, step, env) == d;
      } else {
        HiddenStepGate(d, step, env);
      }
    }
  }

  // ---- Every run ----

  lemma DelegateGate(c: Coordinator, event: Event, env: Env)
    requires Gate(c)
    requires event.StopLoading? || event.DidStart? || event.DidFinish? || event.DidFail? || event.DidFailProvisional?
             || event.BackoffElapsed? || event.JobTaken? || event.JobFinished?
    ensures Gate(Step(c, event, env))
  {
    var n, d := c.nav, Step(c, event, env).nav;
    assert d == n.(tasks := d.tasks);
  }

  lemma StepGate(c: Coordinator, event: Event, env: Env)
    requires Gate(c)
    ensures Gate(Step(c, event, env))
  {
    match event {
      case Navigate(navigation) => EnqueueGate(c, navigation, env);
      case UpdateAuthority(ready) => UpdateAuthorityGate(c, ready, env);
      case SuspendBrowsing => DoSuspendGate(c, env);
      case DestroyCoordinator => DestroyGate(c, env);
      case Reload =>
        if c.nav.last.Some? {
          EnqueueGate(c, c.nav.last.value, env);
        }
      case DecidePolicy(webView, request, classified) => DecidePolicyGate(c, webView, request, classified, env);
      case RendererDied(webView) => RendererTerminatedGate(c, webView, env);
      case SafePointReached(i) =>
        if i < |c.nav.tasks| {
          RotateGate(c, c.nav.tasks[i], env);
        }
      case StartDelivered => StartedGate(c, env);
      case FailureDelivered(i) => StartFailedGate(c, i, env);
      case StopLoading => DelegateGate(c, event, env);
      case DidStart(_, _) => DelegateGate(c, event, env);
      case DidFinish(_) => DelegateGate(c, event, env);
      case DidFail(_, _) => DelegateGate(c, event, env);
      case DidFailProvisional(_, _, _) => DelegateGate(c, event, env);
      case BackoffElapsed(_) => DelegateGate(c, event, env);
      case JobTaken(_) => DelegateGate(c, event, env);
      case JobFinished => DelegateGate(c, event, env);
    }
  }

  lemma {:induction false} RunGate(events: seq<(Event, Env)>)
    ensures Gate(Run(events))
    decreases |events|
  {
    if events != [] {
      RunGate(events[..|events| - 1]);
      StepGate(Run(events[..|events| - 1]), events[|events| - 1].0, events[|events| - 1].1);
    }
  }
}
