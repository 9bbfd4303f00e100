/** What pays for a load: the times a request was handed to `enqueue`. */
module ProxyLoadAccounts {
  import opened ProxyCoordinator

  /** How often r was handed to `enqueue`: typed, picked from history, or opened
      as a new window.  A main-frame action only hands over safe requests. */
  function Handed(event: Event, r: Request): nat {
    if event.Navigate? && event.navigation.request == r then 1 else 0
  }

  function HandedOver(events: seq<(Event, Env)>, r: Request): nat {
    if events == [] then 0
    else HandedOver(events[..|events| - 1], r) + Handed(events[|events| - 1].0, r)
  }

  function Loads(loaded: seq<Load>, r: Request): nat {
    if loaded == [] then 0
    else Loads(loaded[..|loaded| - 1], r) + if loaded[|loaded| - 1].request == r then 1 else 0
  }

  predicate IsPending(n: Nav, r: Request) {
    n.pending.Some? && n.pending.value.request == r
  }

  ghost predicate ScopesAgree(loaded: seq<Load>) {
    loaded != [] ==>
      && loaded[|loaded| - 1].destinationScope == loaded[|loaded| - 1].activeScope
      && ScopesAgree(loaded[..|loaded| - 1])
  }

  /** Every load of an unsafe r, and r being pending, was paid for by one of the
      `paid` times it was handed over; nothing scheduled for replay is unsafe. */
  ghost predicate Paid(n: Nav, r: Request, paid: nat) {
    && ScopesAgree(n.loaded)
    && (forall t <- n.tasks :: Replayable(t.request))
    && (!Replayable(r) ==> Loads(n.loaded, r) + (if IsPending(n, r) then 1 else 0) <= paid)
  }
}

/** Every step of the coordinator keeps the accounts. */
module ProxyNavigationSteps {
  import opened Wrappers
  import opened Sequences
  import opened ProxyMachine
  import opened ProxyCoordinator
  import opened ProxyLoadAccounts

  lemma OneMoreLoad(loaded: seq<Load>, load: Load, r: Request)
    ensures Loads(loaded + [load], r) == Loads(loaded, r) + if load.request == r then 1 else 0
    ensures ScopesAgree(loaded) && load.destinationScope == load.activeScope ==> ScopesAgree(loaded + [load])
  {
    DropLast(loaded, load);
  }

  /** Loading the pending request uses up what was paid for it. */
  lemma LoadPaid(n: Nav, m: Nav, load: Load, r: Request, paid: nat)
    requires Paid(n, r, paid) && n.pending.Some? && load.request == n.pending.value.request
    requires m.loaded == n.loaded + [load] && load.destinationScope == load.activeScope
    requires m.pending.None? && m.tasks == n.tasks
    ensures Paid(m, r, paid)
  {
    OneMoreLoad(n.loaded, load, r);
  }

  lemma AdmitPaid(c: Coordinator, epoch: nat, scope: Scope, env: Env, r: Request, paid: nat)
    requires Paid(c.nav, r, paid)
    ensures Paid(Admit(c, epoch, scope, env).nav, r, paid)
  {
    var n := Admit(c, epoch, scope, env).nav;
    if n.loaded != c.nav.loaded {
      LoadPaid(c.nav, n, n.loaded[|c.nav.loaded|], r, paid);
    }
  }

  lemma ExecuteOnePaid(c: Coordinator, action: Action, candidate: Option<nat>, env: Env, r: Request, paid: nat)
    requires Paid(c.nav, r, paid)
    ensures Paid(ExecuteOne(c, action, candidate, env).nav, r, paid)
  {
    match action {
      case PublishCandidateAndAdmitWebView(epoch, scope) =>
        if candidate.Some? && env.installs {
          AdmitPaid(WithLife(c, Publish(c.life, candidate.value, scope)), epoch, scope, env, r, paid);
        }
      case AdmitThroughActiveProxy(epoch, scope) => AdmitPaid(c, epoch, scope, env, r, paid);
      case _ =>
    }
  }

  lemma {:induction false} ExecutePaid(c: Coordinator, actions: seq<Action>, candidate: Option<nat>, env: Env, r: Request, paid: nat)
    requires Paid(c.nav, r, paid)
    ensures Paid(Execute(c, actions, candidate, env).nav, r, paid)
    decreases |actions|
  {
    if actions != [] {
      ExecuteOnePaid(c, actions[0], candidate, env, r, paid);
      ExecutePaid(ExecuteOne(c, actions[0], candidate, env), actions[1..], candidate, env, r, paid);
    }
  }

  lemma PerformPaid(c: Coordinator, step: (Machine, seq<Action>), env: Env, r: Request, paid: nat)
    requires Paid(c.nav, r, paid)
    ensures Paid(Perform(c, step, env).nav, r, paid)
  {
    ExecutePaid(c.(machine := step.0), step.1, None, env, r, paid);
  }

  lemma DoResumePaid(c: Coordinator, env: Env, r: Request, paid: nat)
    requires Paid(c.nav, r, paid)
    ensures Paid(DoResume(c, env).nav, r, paid)
  {
    var d := WithNav(c, RetainLast(c.nav));
    PerformPaid(d, ProxyMachine.Resume(d.machine), env, r, paid);
  }

  lemma DoSuspendPaid(c: Coordinator, env: Env, r: Request, paid: nat)
    requires Paid(c.nav, r, paid)
    ensures Paid(DoSuspend(c, env).nav, r, paid)
  {
    var d := WithNav(Reset(c), RetainLast(DiscardUnsafe(c.nav)));
    PerformPaid(d, ProxyMachine.Suspend(d.machine, PendingScope(d.nav)), env, r, paid);
  }

  /** `enqueue` replaces the pending request; the new one must be safe or paid. */
  lemma EnqueuePaid(c: Coordinator, navigation: Navigation, env: Env, r: Request, paid: nat)
    requires Paid(c.nav, r, paid)
    requires navigation.request == r && !Replayable(r) ==> Loads(c.nav.loaded, r) + 1 <= paid
    ensures Paid(Enqueue(c, navigation, env).nav, r, paid)
  {
    var destination := Routed(c.nav.ready, navigation.destination);
    var c1 := WithNav(Reset(c), c.nav.(pending := Some(Navigation(navigation.request, destination))));
    var c2 := c1;
    if !MayBrowse(c1, destination.scope) {
      c2 := DoSuspend(c1, env);
      DoSuspendPaid(c1, env, r, paid);
    }
    PerformPaid(c2, QueueNavigation(c2.machine, destination.scope), env, r, paid);
    DoResumePaid(Perform(c2, QueueNavigation(c2.machine, destination.scope), env), env, r, paid);
  }

  lemma UpdateAuthorityPaid(c: Coordinator, ready: bool, env: Env, r: Request, paid: nat)
    requires Paid(c.nav, r, paid)
    ensures Paid(DoUpdateAuthority(c, ready, env).nav, r, paid)
  {
    var d := WithNav(c, c.nav.(ready := ready));
    DoResumePaid(d, env, r, paid);
    DoSuspendPaid(d, env, r, paid);
    var current := if c.nav.pending.Some? then c.nav.pending else c.nav.last;
    if current.Some? && Replayable(current.value.request) {
      EnqueuePaid(d, Navigation(current.value.request, Routed(d.nav.ready, current.value.destination)), env, r, paid);
    }
  }

  lemma WithTaskPaid(c: Coordinator, task: RecoveryTask, r: Request, paid: nat)
    requires Paid(c.nav, r, paid) && Replayable(task.request)
    ensures Paid(WithTask(c, task).nav, r, paid)
  {
  }

  lemma DecidePolicyPaid(c: Coordinator, webView: nat, request: Request, classified: Destination, env: Env, r: Request, paid: nat)
    requires Paid(c.nav, r, paid)
    ensures Paid(DoDecidePolicy(c, webView, request, classified, env).nav, r, paid)
  {
    if Replayable(request) {
      EnqueuePaid(c, Navigation(request, Routed(c.nav.ready, classified)), env, r, paid);
    }
  }

  /** Only a request that may be replayed is scheduled for recovery. */
  lemma RecoverPaid(c: Coordinator, webView: nat, identity: Option<nat>, error: ProvisionalError, env: Env, r: Request, paid: nat)
    requires Paid(c.nav, r, paid)
    ensures Paid(RecoverIfAllowed(c, webView, identity, error, env).0.nav, r, paid)
  {
    if identity.Some? && c.nav.last.Some? && MayRecover(c.recovery, c.nav.last.value.request, identity.value, error) {
      var task := RecoveryTask(webView, c.nav.last.value.request, c.nav.last.value.destination,
                               c.recovery.generation, c.recovery.replayCount == 0);
      WithTaskPaid(c.(recovery := CountFailure(c.recovery, identity.value)), task, r, paid);
    }
  }

  lemma DidFailProvisionalPaid(c: Coordinator, webView: nat, identity: Option<nat>, error: ProvisionalError, env: Env, r: Request, paid: nat)
    requires Paid(c.nav, r, paid)
    ensures Paid(DoDidFailProvisional(c, webView, identity, error, env).nav, r, paid)
  {
    RecoverPaid(c, webView, identity, error, env, r, paid);
  }

  lemma RendererTerminatedPaid(c: Coordinator, webView: nat, env: Env, r: Request, paid: nat)
    requires Paid(c.nav, r, paid)
    ensures Paid(DoRendererTerminated(c, webView, env).nav, r, paid)
  {
    var d := WithNav(Reset(c), RetainLast(DiscardUnsafe(c.nav)));
    PerformPaid(d, ProxyMachine.RendererTerminated(d.machine, PendingScope(d.nav)), env, r, paid);
  }

  lemma ReloadPaid(c: Coordinator, env: Env, r: Request, paid: nat)
    requires Paid(c.nav, r, paid)
    ensures Paid(DoReload(c, env).nav, r, paid)
  {
    if c.nav.last.Some? && Replayable(c.nav.last.value.request) {
      EnqueuePaid(c, c.nav.last.value, env, r, paid);
    }
  }

  lemma RotatePaid(c: Coordinator, task: RecoveryTask, env: Env, r: Request, paid: nat)
    requires Paid(c.nav, r, paid) && Replayable(task.request)
    ensures Paid(Rotate(c, task, env).nav, r, paid)
  {
    var d := WithNav(c.(recovery := c.recovery.(preserving := true, rotations := c.recovery.rotations + 1)),
                     c.nav.(pending := Some(Navigation(task.request, task.destination))));
    PerformPaid(d, RecoverProvisionalNavigation(c.machine, task.destination.scope), env, r, paid);
  }

  lemma StartedPaid(c: Coordinator, env: Env, r: Request, paid: nat)
    requires Paid(c.nav, r, paid)
    ensures Paid(DeliverStarted(c, env).nav, r, paid)
  {
    if c.life.worker.Created? {
      var Created(epoch, scope, session) := c.life.worker;
      var step := ProxyStarted(c.machine, epoch, scope, true);
      ExecutePaid(Coordinator(step.0, c.life.(worker := Delivered(session, false)), c.nav, c.recovery),
                  step.1, Some(session), env, r, paid);
    }
  }

  lemma StartFailedPaid(c: Coordinator, i: nat, env: Env, r: Request, paid: nat)
    requires Paid(c.nav, r, paid)
    ensures Paid(DeliverFailed(c, i, env).nav, r, paid)
  {
    if i < |c.life.failures| {
      var f := c.life.failures[i];
      var d := WithLife(c, c.life.(failures := c.life.failures[..i] + c.life.failures[i + 1..]));
      PerformPaid(d, ProxyStarted(d.machine, f.epoch, f.scope, false), env, r, paid);
    }
  }

  lemma DestroyPaid(c: Coordinator, env: Env, r: Request, paid: nat)
    requires Paid(c.nav, r, paid)
    ensures Paid(DoDestroy(c, env).nav, r, paid)
  {
    var d := WithNav(Reset(c), c.nav.(destroyed := true, pending := None, last := None));
    PerformPaid(d, ProxyMachine.Destroy(d.machine), env, r, paid);
  }

  lemma StepPaid(c: Coordinator, event: Event, env: Env, r: Request, paid: nat)
    requires Paid(c.nav, r, paid)
    ensures Paid(Step(c, event, env).nav, r, paid + Handed(event, r))
  {
    match event {
      case Navigate(navigation) => EnqueuePaid(c, navigation, env, r, paid + Handed(event, r));
      case UpdateAuthority(ready) => UpdateAuthorityPaid(c, ready, env, r, paid);
      case SuspendBrowsing => DoSuspendPaid(c, env, r, paid);
      case DestroyCoordinator => DestroyPaid(c, env, r, paid);
      case DecidePolicy(webView, request, classified) => DecidePolicyPaid(c, webView, request, classified, env, r, paid);
      case DidFailProvisional(webView, identity, error) => DidFailProvisionalPaid(c, webView, identity, error, env, r, paid);
      case RendererDied(webView) => RendererTerminatedPaid(c, webView, env, r, paid);
      case Reload => ReloadPaid(c, env, r, paid);
      case BackoffElapsed(i) =>
        if i < |c.nav.tasks| {
          WithTaskPaid(c, c.nav.tasks[i].(atSafePoint := true), r, paid);
        }
      case SafePointReached(i) =>
        if i < |c.nav.tasks| {
          RotatePaid(c, c.nav.tasks[i], env, r, paid);
        }
      case StartDelivered => StartedPaid(c, env, r, paid);
      case FailureDelivered(i) => StartFailedPaid(c, i, env, r, paid);
      case StopLoading =>
      case DidStart(_, _) =>
      case DidFinish(_) =>
      case DidFail(_, _) =>
      case JobTaken(_) =>
      case JobFinished =>
    }
  }

  lemma {:induction false} RunPaid(events: seq<(Event, Env)>, r: Request)
    ensures Paid(Run(events).nav, r, HandedOver(events, r))
    decreases |events|
  {
    if events != [] {
      RunPaid(events[..|events| - 1], r);
      StepPaid(Run(events[..|events| - 1]), events[|events| - 1].0, events[|events| - 1].1, r,
               HandedOver(events[..|events| - 1], r));
    }
  }
}
