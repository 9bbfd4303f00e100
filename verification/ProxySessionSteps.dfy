/** Where the one native session that may be alive is, and what the machine and the
    lifecycle queue say about it. */
module ProxySessionInvariant {
  import opened Wrappers
  import opened ProxyMachine
  import opened ProxyCoordinator

  /** Queued starts in strictly increasing epoch order, above low, up to high. */
  ghost predicate Increasing(queue: seq<Job>, low: nat, high: nat) {
    queue != [] ==>
      && queue[0].Start? && low < queue[0].epoch <= high
      && Increasing(queue[1..], queue[0].epoch, high)
  }

  ghost predicate InOrder(joined: seq<nat>) {
    joined != [] ==> joined[|joined| - 1] == |joined| - 1 && InOrder(joined[..|joined| - 1])
  }

  /** Where the only unjoined session can be. */
  datatype Place = Nowhere | WithWorker | Published | Retired

  ghost predicate At(l: Life, place: Place) {
    var n := |l.joined|;
    match place
    case Nowhere =>
      |l.startedFor| == n && l.activeProxy.None? && l.worker.Waiting?
    case WithWorker =>
      && |l.startedFor| == n + 1 && l.activeProxy.None?
      && ((l.worker.Created? && l.worker.session == n) || l.worker == Delivered(n, false))
    case Published =>
      |l.startedFor| == n + 1 && l.activeProxy == Some(n) && (l.worker.Waiting? || l.worker == Delivered(n, true))
    case Retired =>
      |l.startedFor| == n + 1 && l.activeProxy.None? && (l.worker.Waiting? || l.worker == Delivered(n, true))
  }

  ghost predicate QueueAt(m: Machine, l: Life, place: Place) {
    match place
    case Published => l.queue == []
    case Retired => l.queue != [] && l.queue[0] == Join(|l.joined|) && Increasing(l.queue[1..], 0, m.epoch)
    case _ => Increasing(l.queue, if l.worker.Created? then l.worker.epoch else 0, m.epoch)
  }

  /** The published session is the one started for the active epoch and scope. */
  ghost predicate Agreement(m: Machine, l: Life) {
    && (l.activeProxy.Some? <==> m.phase.Active?)
    && (l.activeScope.Some? <==> m.phase.Active?)
    && (m.phase.Active? && l.activeProxy.value < |l.startedFor| ==>
          l.activeScope.value == m.phase.scope && l.startedFor[l.activeProxy.value] == Started(m.phase.epoch, m.phase.scope))
  }

  ghost predicate Sessions(m: Machine, l: Life, place: Place) {
    && At(l, place) && QueueAt(m, l, place) && InOrder(l.joined) && Agreement(m, l)
    && (place.Published? <==> m.phase.Active?)
    && (l.worker.Created? ==> l.worker.epoch <= m.epoch && l.startedFor[|l.joined|] == Started(l.worker.epoch, l.worker.scope))
  }

  /** Every load used the session started for its epoch and scope, when exactly the
      sessions before that one had been joined. */
  ghost predicate Backed(loaded: seq<Load>, started: seq<Started>) {
    loaded != [] ==>
      var last := loaded[|loaded| - 1];
      && last.session < |started| && started[last.session] == Started(last.epoch, last.destinationScope)
      && last.joined == last.session
      && Backed(loaded[..|loaded| - 1], started)
  }

  ghost predicate Sound(c: Coordinator, place: Place) {
    Consistent(c.machine) && Sessions(c.machine, c.life, place) && Backed(c.nav.loaded, c.life.startedFor)
  }
}

/** Every step of the coordinator keeps the session invariant. */
module ProxySessionSteps {
  import opened Wrappers
  import opened Sequences
  import opened ProxyMachine
  import opened ProxyCoordinator
  import opened ProxySessionInvariant

  // ---- The queue ----

  lemma {:induction false} IncreasingAppend(queue: seq<Job>, low: nat, high: nat, epoch: nat, scope: Scope)
    requires Increasing(queue, low, high) && low < epoch && high < epoch
    ensures Increasing(queue + [Start(epoch, scope)], low, epoch)
    decreases |queue|
  {
    if queue != [] {
      IncreasingAppend(queue[1..], queue[0].epoch, high, epoch, scope);
      assert (queue + [Start(epoch, scope)])[1..] == queue[1..] + [Start(epoch, scope)];
    }
  }

  lemma {:induction false} IncreasingWiden(queue: seq<Job>, low: nat, high: nat, low': nat, high': nat)
    requires Increasing(queue, low, high) && low' <= low && high <= high'
    ensures Increasing(queue, low', high')
    decreases |queue|
  {
    if queue != [] {
      IncreasingWiden(queue[1..], queue[0].epoch, high, queue[0].epoch, high');
    }
  }

  // ---- Effects on the sessions ----

  /** The machine moves between inactive phases, its epoch only growing. */
  lemma StaysInactive(m: Machine, l: Life, place: Place, m': Machine)
    requires Sessions(m, l, place) && !m.phase.Active? && !m'.phase.Active? && m.epoch <= m'.epoch
    ensures Sessions(m', l, place)
  {
    if place.Retired? {
      IncreasingWiden(l.queue[1..], 0, m.epoch, 0, m'.epoch);
    } else if !place.Published? {
      var low := if l.worker.Created? then l.worker.epoch else 0;
      IncreasingWiden(l.queue, low, m.epoch, low, m'.epoch);
    }
  }

  lemma QueuesStart(m: Machine, l: Life, place: Place, m': Machine, scope: Scope)
    requires Sessions(m, l, place) && !m.phase.Active? && !m'.phase.Active? && m.epoch < m'.epoch
    ensures Sessions(m', Queued(l, m'.epoch, scope), place)
  {
    var queue := Queued(l, m'.epoch, scope).queue;
    if place.Retired? {
      IncreasingAppend(l.queue[1..], 0, m.epoch, m'.epoch, scope);
      assert queue[1..] == l.queue[1..] + [Start(m'.epoch, scope)];
    } else {
      IncreasingAppend(l.queue, if l.worker.Created? then l.worker.epoch else 0, m.epoch, m'.epoch, scope);
    }
  }

  lemma RetiresActive(m: Machine, l: Life, m': Machine)
    requires Sessions(m, l, Published) && !m'.phase.Active?
    ensures Sessions(m', Retire(l), Retired)
  {
    assert [Join(l.activeProxy.value)][1..] == [];
  }

  lemma TakesJob(m: Machine, l: Life, place: Place, succeeds: bool) returns (place': Place)
    requires Sessions(m, l, place)
    ensures Sessions(m, TakeJob(l, succeeds), place')
  {
    place' := place;
    if l.worker.Waiting? && l.queue != [] {
      match l.queue[0]
      case Join(session) =>
        place' := Nowhere;
        DropLast(l.joined, session);
      case Start(epoch, scope) =>
        if succeeds {
          place' := WithWorker;
        } else {
          IncreasingWiden(l.queue[1..], epoch, m.epoch, 0, m.epoch);
        }
    }
  }

  lemma {:induction false} StaysBacked(loaded: seq<Load>, started: seq<Started>, more: seq<Started>)
    requires Backed(loaded, started) && started <= more
    ensures Backed(loaded, more)
    decreases |loaded|
  {
    if loaded != [] {
      StaysBacked(loaded[..|loaded| - 1], started, more);
    }
  }

  lemma FinishesJob(m: Machine, l: Life, place: Place) returns (place': Place)
    requires Sessions(m, l, place)
    ensures Sessions(m, FinishJob(l), place')
  {
    place' := place;
    if l.worker == Delivered(|l.joined|, false) {
      place' := Nowhere;
      DropLast(l.joined, |l.joined|);
    }
  }

  // ---- Executing a transition's actions ----

  lemma OneMoreBacked(loaded: seq<Load>, load: Load, started: seq<Started>)
    requires Backed(loaded, started)
    requires load.session < |started| && started[load.session] == Started(load.epoch, load.destinationScope)
    requires load.joined == load.session
    ensures Backed(loaded + [load], started)
  {
    DropLast(loaded, load);
  }

  /** Admission clears the pending scope, and loads through the published session. */
  lemma AdmitKeepsSound(c: Coordinator, epoch: nat, scope: Scope, env: Env, place: Place)
    requires Sound(c, place) && c.machine.phase == Active(epoch, scope)
    ensures Sound(Admit(c, epoch, scope, env), place)
  {
    var d := Admit(c, epoch, scope, env);
    if d.nav.loaded != c.nav.loaded {
      OneMoreBacked(c.nav.loaded, d.nav.loaded[|c.nav.loaded|], c.life.startedFor);
    }
  }

  /** Actions with no effect on sessions, between inactive phases. */
  lemma QuietSound(c: Coordinator, step: (Machine, seq<Action>), env: Env, place: Place)
    requires Sound(c, place) && !c.machine.phase.Active?
    requires Consistent(step.0) && !step.0.phase.Active? && c.machine.epoch <= step.0.epoch
    requires step.1 == [] || step.1 == [RevokeWebView] || (|step.1| == 1 && step.1[0].ShowFailure?)
    ensures Sound(Perform(c, step, env), place)
  {
    if step.1 != [] {
      assert step.1 == [step.1[0]];
      Execute1(c.(machine := step.0), step.1[0], None, env);
    }
    StaysInactive(c.machine, c.life, place, step.0);
  }

  lemma StartSound(c: Coordinator, step: (Machine, seq<Action>), scope: Scope, env: Env, place: Place)
    requires Sound(c, place) && !c.machine.phase.Active? && c.machine.epoch < step.0.epoch
    requires Consistent(step.0) && !step.0.phase.Active?
    requires step.1 == [StartProxy(step.0.epoch, scope)] || step.1 == [RevokeWebView, StartProxy(step.0.epoch, scope)]
    ensures Sound(Perform(c, step, env), place)
  {
    var d := c.(machine := step.0);
    if |step.1| == 1 {
      Execute1(d, step.1[0], None, env);
    } else {
      Execute2(d, RevokeWebView, step.1[1], None, env);
    }
    QueuesStart(c.machine, c.life, place, step.0, scope);
  }

  /** Leaving .active queues the join of the active session first. */
  lemma StopSound(c: Coordinator, step: (Machine, seq<Action>), env: Env)
    requires Sound(c, Published) && Consistent(step.0) && !step.0.phase.Active?
    requires step.1 == [RevokeWebView, RequestStopActiveProxy]
    ensures Sound(Perform(c, step, env), Retired)
  {
    Execute2(c.(machine := step.0), RevokeWebView, RequestStopActiveProxy, None, env);
    RetiresActive(c.machine, c.life, step.0);
  }

  lemma ReplaceSound(c: Coordinator, step: (Machine, seq<Action>), scope: Scope, env: Env)
    requires Sound(c, Published) && Consistent(step.0) && !step.0.phase.Active? && c.machine.epoch < step.0.epoch
    requires step.1 == [RevokeWebView, RequestStopActiveProxy, StartProxy(step.0.epoch, scope)]
    ensures Sound(Perform(c, step, env), Retired)
  {
    Execute3(c.(machine := step.0), RevokeWebView, RequestStopActiveProxy, step.1[2], None, env);
    var idle := c.machine.(phase := Idle);
    RetiresActive(c.machine, c.life, idle);
    QueuesStart(idle, Retire(c.life), Retired, step.0, scope);
  }

  lemma AdmitThroughSound(c: Coordinator, m: Machine, scope: Scope, env: Env)
    requires Sound(c, Published) && Consistent(m)
    requires m.phase == c.machine.phase == Active(c.machine.epoch, scope) && m.epoch == c.machine.epoch
    ensures Sound(Perform(c, (m, [AdmitThroughActiveProxy(m.epoch, scope)]), env), Published)
  {
    var d := c.(machine := m);
    Execute1(d, AdmitThroughActiveProxy(m.epoch, scope), None, env);
    AdmitKeepsSound(d, m.epoch, scope, env, Published);
  }

  // ---- Every transition the coordinator requests ----

  lemma QueueNavigationSound(c: Coordinator, scope: Scope, env: Env, place: Place) returns (place': Place)
    requires Sound(c, place) && c.machine.epoch < MAX_EPOCH
    ensures Sound(Perform(c, QueueNavigation(c.machine, scope), env), place')
  {
    var step := QueueNavigation(c.machine, scope);
    place' := if c.machine.phase.Active? && c.machine.phase.scope != scope then Retired else place;
    if c.machine.phase.Active? {
      if c.machine.phase.scope == scope {
        AdmitThroughSound(c, step.0, scope, env);
      } else {
        ReplaceSound(c, step, scope, env);
      }
    } else if step.1 == [] {
      QuietSound(c, step, env, place);
    } else {
      StartSound(c, step, scope, env, place);
    }
  }

  lemma ResumeSound(c: Coordinator, env: Env, place: Place) returns (place': Place)
    requires Sound(c, place) && c.machine.epoch < MAX_EPOCH
    ensures Sound(Perform(c, ProxyMachine.Resume(c.machine), env), place')
  {
    var step, pending := ProxyMachine.Resume(c.machine), c.machine.pendingScope;
    place' := place;
    if c.machine.phase.Active? {
      if pending.None? {
        assert step == (c.machine, []);
      } else if c.machine.phase.scope == pending.value {
        AdmitThroughSound(c, step.0, pending.value, env);
      } else {
        place' := Retired;
        ReplaceSound(c, step, pending.value, env);
      }
    } else if step.1 == [] {
      QuietSound(c, step, env, place);
    } else {
      StartSound(c, step, pending.value, env, place);
    }
  }

  lemma SuspendSound(c: Coordinator, retained: Option<Scope>, env: Env, place: Place) returns (place': Place)
    requires Sound(c, place) && c.machine.epoch < MAX_EPOCH
    ensures Sound(Perform(c, ProxyMachine.Suspend(c.machine, retained), env), place')
  {
    var step := ProxyMachine.Suspend(c.machine, retained);
    if c.machine.phase.Active? {
      place' := Retired;
      StopSound(c, step, env);
    } else {
      place' := place;
      QuietSound(c, step, env, place);
    }
  }

  lemma DestroySound(c: Coordinator, env: Env, place: Place) returns (place': Place)
    requires Sound(c, place) && c.machine.epoch < MAX_EPOCH
    ensures Sound(Perform(c, ProxyMachine.Destroy(c.machine), env), place')
  {
    var step := ProxyMachine.Destroy(c.machine);
    if c.machine.phase.Active? {
      place' := Retired;
      StopSound(c, step, env);
    } else {
      place' := place;
      QuietSound(c, step, env, place);
    }
  }

  lemma RendererTerminatedSound(c: Coordinator, retained: Option<Scope>, env: Env, place: Place) returns (place': Place)
    requires Sound(c, place) && c.machine.epoch < MAX_EPOCH - 1
    ensures Sound(Perform(c, ProxyMachine.RendererTerminated(c.machine, retained), env), place')
  {
    var step := ProxyMachine.RendererTerminated(c.machine, retained);
    var starts := c.machine.isForeground && retained.Some?;
    place' := if c.machine.phase.Active? then Retired else place;
    if c.machine.phase.Active? {
      if starts {
        ReplaceSound(c, step, retained.value, env);
      } else {
        StopSound(c, step, env);
      }
    } else if starts {
      StartSound(c, step, retained.value, env, place);
    } else {
      QuietSound(c, step, env, place);
    }
  }

  lemma RecoverSound(c: Coordinator, scope: Scope, env: Env)
    requires Sound(c, Published) && c.machine.epoch < MAX_EPOCH - 1
    requires c.machine.phase.Active? && c.machine.phase.scope == scope
    ensures Sound(Perform(c, RecoverProvisionalNavigation(c.machine, scope), env), Retired)
  {
    ReplaceSound(c, RecoverProvisionalNavigation(c.machine, scope), scope, env);
  }

  /** A failed start's callback. */
  lemma StartFailedSound(c: Coordinator, epoch: nat, scope: Scope, env: Env, place: Place)
    requires Sound(c, place) && c.machine.epoch < MAX_EPOCH
    ensures Sound(Perform(c, ProxyStarted(c.machine, epoch, scope, false), env), place)
  {
    var step := ProxyStarted(c.machine, epoch, scope, false);
    if step == (c.machine, []) {
    } else if step.0.phase.Starting? {
      StartSound(c, step, step.0.phase.scope, env, place);
    } else {
      QuietSound(c, step, env, place);
    }
  }

  /** A successful start's callback: the candidate is published only when its
      epoch is the newest, so no start is queued behind it. */
  lemma StartedSound(c: Coordinator, env: Env, place: Place) returns (place': Place)
    requires Sound(c, place) && c.machine.epoch < MAX_EPOCH
    ensures Sound(DeliverStarted(c, env), place')
  {
    place' := place;
    if c.life.worker.Created? {
      var Created(epoch, scope, session) := c.life.worker;
      var step := ProxyStarted(c.machine, epoch, scope, true);
      var life := c.life.(worker := Delivered(session, false));
      var d := Coordinator(step.0, life, c.nav, c.recovery);
      WorkerDelivers(c.machine, c.life);
      if step.1 == [DisposeStaleProxy] {
        Execute1(d, DisposeStaleProxy, Some(session), env);
        StaysInactive(c.machine, life, place, step.0);
      } else if step.1[0].DisposeStaleProxyThenStart? {
        Execute1(d, step.1[0], Some(session), env);
        QueuesStart(c.machine, life, place, step.0, step.1[0].scope);
      } else {
        Execute1(d, step.1[0], Some(session), env);
        if env.installs {
          place' := Published;
          var published := WithLife(d, Publish(life, session, scope));
          AdmitKeepsSound(published, epoch, scope, env, Published);
        } else {
          StaysInactive(c.machine, life, place, step.0.(phase := Failed(epoch, scope)));
        }
      }
    }
  }

  lemma WorkerDelivers(m: Machine, l: Life)
    requires Sessions(m, l, WithWorker) && l.worker.Created?
    ensures Sessions(m, l.(worker := Delivered(l.worker.session, false)), WithWorker)
    ensures l.worker.epoch == m.epoch ==> l.queue == []
  {
    IncreasingWiden(l.queue, l.worker.epoch, m.epoch, 0, m.epoch);
  }

  // ---- Every step, every run ----

  /** Executing actions never advances the epoch. */
  lemma {:induction false} ExecuteKeepsEpoch(c: Coordinator, actions: seq<Action>, candidate: Option<nat>, env: Env)
    ensures Execute(c, actions, candidate, env).machine.epoch == c.machine.epoch
    decreases |actions|
  {
    if actions != [] {
      ExecuteKeepsEpoch(ExecuteOne(c, actions[0], candidate, env), actions[1..], candidate, env);
    }
  }

  lemma DoResumeSound(c: Coordinator, env: Env, place: Place) returns (place': Place)
    requires Sound(c, place) && c.machine.epoch < MAX_EPOCH
    ensures Sound(DoResume(c, env), place')
  {
    place' := place;
    if !c.nav.destroyed {
      place' := ResumeSound(WithNav(c, RetainLast(c.nav)), env, place);
    }
  }

  lemma DoSuspendSound(c: Coordinator, env: Env, place: Place) returns (place': Place)
    requires Sound(c, place) && c.machine.epoch < MAX_EPOCH
    ensures Sound(DoSuspend(c, env), place')
    ensures DoSuspend(c, env).machine.epoch <= c.machine.epoch + 1
  {
    place' := place;
    if !c.nav.destroyed {
      var d := WithNav(Reset(c), RetainLast(DiscardUnsafe(c.nav)));
      place' := SuspendSound(d, PendingScope(d.nav), env, place);
      var step := ProxyMachine.Suspend(d.machine, PendingScope(d.nav));
      ExecuteKeepsEpoch(d.(machine := step.0), step.1, None, env);
    }
  }

  lemma EnqueueSound(c: Coordinator, navigation: Navigation, env: Env, place: Place) returns (place': Place)
    requires Sound(c, place) && c.machine.epoch < MAX_EPOCH - 4
    ensures Sound(Enqueue(c, navigation, env), place')
  {
    var destination := Routed(c.nav.ready, navigation.destination);
    var c1 := WithNav(Reset(c), c.nav.(pending := Some(Navigation(navigation.request, destination))));
    place' := place;
    var c2 := c1;
    if !MayBrowse(c1, destination.scope) {
      c2 := DoSuspend(c1, env);
      place' := DoSuspendSound(c1, env, place');
    }
    var step := QueueNavigation(c2.machine, destination.scope);
    place' := QueueNavigationSound(c2, destination.scope, env, place');
    ExecuteKeepsEpoch(c2.(machine := step.0), step.1, None, env);
    var c3 := Perform(c2, step, env);
    if MayBrowse(c3, destination.scope) {
      place' := DoResumeSound(c3, env, place');
    }
  }

  lemma UpdateAuthoritySound(c: Coordinator, ready: bool, env: Env, place: Place) returns (place': Place)
    requires Sound(c, place) && c.machine.epoch < MAX_EPOCH - 4
    ensures Sound(DoUpdateAuthority(c, ready, env), place')
  {
    place' := place;
    var d := WithNav(c, c.nav.(ready := ready));
    var current := if c.nav.pending.Some? then c.nav.pending else c.nav.last;
    if c.nav.destroyed {
      return;
    }
    var resumed := DoResumeSound(d, env, place);
    var suspended := DoSuspendSound(d, env, place);
    if current.None? {
      return if ready then resumed else suspended;
    }
    var navigation := current.value;
    var destination := Routed(d.nav.ready, navigation.destination);
    if destination.scope == navigation.destination.scope {
      return if MayBrowse(d, destination.scope) then resumed else suspended;
    }
    if !Replayable(navigation.request) {
      return suspended;
    }
    place' := EnqueueSound(d, Navigation(navigation.request, destination), env, place);
  }

  lemma DecidePolicySound(c: Coordinator, webView: nat, request: Request, classified: Destination, env: Env, place: Place)
    returns (place': Place)
    requires Sound(c, place) && c.machine.epoch < MAX_EPOCH - 4
    ensures Sound(DoDecidePolicy(c, webView, request, classified, env), place')
  {
    place' := place;
    var destination := Routed(c.nav.ready, classified);
    if !Admitted(c, destination, webView) && c.life.activeScope != Some(destination.scope) && Replayable(request) {
      place' := EnqueueSound(c, Navigation(request, destination), env, place);
    }
  }

  lemma RendererDiedSound(c: Coordinator, webView: nat, env: Env, place: Place) returns (place': Place)
    requires Sound(c, place) && c.machine.epoch < MAX_EPOCH - 4
    ensures Sound(DoRendererTerminated(c, webView, env), place')
  {
    place' := place;
    if c.nav.webView == Some(webView) {
      var d := WithNav(Reset(c), RetainLast(DiscardUnsafe(c.nav)));
      place' := RendererTerminatedSound(d, PendingScope(d.nav), env, place);
    }
  }

  lemma ReloadSound(c: Coordinator, env: Env, place: Place) returns (place': Place)
    requires Sound(c, place) && c.machine.epoch < MAX_EPOCH - 4
    ensures Sound(DoReload(c, env), place')
  {
    place' := place;
    if c.nav.webView.None? && c.nav.last.Some? && Replayable(c.nav.last.value.request) {
      place' := EnqueueSound(c, c.nav.last.value, env, place);
    }
  }

  lemma ProvisionalSound(c: Coordinator, webView: nat, identity: Option<nat>, error: ProvisionalError, env: Env, place: Place)
    requires Sound(c, place)
    ensures Sound(DoDidFailProvisional(c, webView, identity, error, env), place)
  {
  }

  lemma DestroyStepSound(c: Coordinator, env: Env, place: Place) returns (place': Place)
    requires Sound(c, place) && c.machine.epoch < MAX_EPOCH - 4
    ensures Sound(DoDestroy(c, env), place')
  {
    place' := place;
    if !c.nav.destroyed {
      var d := WithNav(Reset(c), c.nav.(destroyed := true, pending := None, last := None));
      place' := DestroySound(d, env, place);
    }
  }

  lemma FailureSound(c: Coordinator, i: nat, env: Env, place: Place)
    requires Sound(c, place) && c.machine.epoch < MAX_EPOCH - 4
    ensures Sound(DeliverFailed(c, i, env), place)
  {
    if i < |c.life.failures| {
      var f := c.life.failures[i];
      var d := WithLife(c, c.life.(failures := c.life.failures[..i] + c.life.failures[i + 1..]));
      StartFailedSound(d, f.epoch, f.scope, env, place);
    }
  }

  lemma JobTakenSound(c: Coordinator, succeeds: bool, place: Place) returns (place': Place)
    requires Sound(c, place)
    ensures Sound(WithLife(c, TakeJob(c.life, succeeds)), place')
  {
    place' := TakesJob(c.machine, c.life, place, succeeds);
    StaysBacked(c.nav.loaded, c.life.startedFor, TakeJob(c.life, succeeds).startedFor);
  }

  lemma RotateSound(c: Coordinator, task: RecoveryTask, env: Env, place: Place) returns (place': Place)
    requires Sound(c, place) && c.machine.epoch < MAX_EPOCH - 4
    ensures Sound(Rotate(c, task, env), place')
  {
    place' := place;
    if StillWanted(c, task) && c.machine.phase.Active? && c.machine.phase.scope == task.destination.scope {
      place' := Retired;
      var d := WithNav(c.(recovery := c.recovery.(preserving := true, rotations := c.recovery.rotations + 1)),
                       c.nav.(pending := Some(Navigation(task.request, task.destination))));
      RecoverSound(d, task.destination.scope, env);
    }
  }

  /** Events that only touch the recovery and its tasks. */
  lemma PassiveSound(c: Coordinator, event: Event, env: Env, place: Place)
    requires Sound(c, place)
    requires event.StopLoading? || event.BackoffElapsed? || event.DidStart? || event.DidFinish? || event.DidFail?
    ensures Sound(Step(c, event, env), place)
  {
  }

  lemma SafePointSound(c: Coordinator, i: nat, env: Env, place: Place) returns (place': Place)
    requires Sound(c, place) && c.machine.epoch < MAX_EPOCH - 4
    ensures Sound(Step(c, SafePointReached(i), env), place')
  {
    place' := place;
    if i < |c.nav.tasks| && c.nav.tasks[i].atSafePoint {
      place' := RotateSound(c, c.nav.tasks[i], env, place);
    }
  }

  lemma StepSound(c: Coordinator, event: Event, env: Env, place: Place) returns (place': Place)
    requires Sound(c, place) && Roomy(c)
    ensures Sound(Step(c, event, env), place')
  {
    place' := place;
    match event {
      case Navigate(navigation) => place' := EnqueueSound(c, navigation, env, place);
      case UpdateAuthority(ready) => place' := UpdateAuthoritySound(c, ready, env, place);
      case SuspendBrowsing => place' := DoSuspendSound(c, env, place);
      case DestroyCoordinator => place' := DestroyStepSound(c, env, place);
      case StopLoading => PassiveSound(c, event, env, place);
      case BackoffElapsed(_) => PassiveSound(c, event, env, place);
      case SafePointReached(i) => place' := SafePointSound(c, i, env, place);
      case StartDelivered => place' := StartedSound(c, env, place);
      case FailureDelivered(i) => FailureSound(c, i, env, place);
      case JobTaken(succeeds) => place' := JobTakenSound(c, succeeds, place);
      case JobFinished => place' := FinishesJob(c.machine, c.life, place);
      case DecidePolicy(webView, request, classified) => place' := DecidePolicySound(c, webView, request, classified, env, place);
      case DidFailProvisional(webView, identity, error) => ProvisionalSound(c, webView, identity, error, env, place);
      case RendererDied(webView) => place' := RendererDiedSound(c, webView, env, place);
      case Reload => place' := ReloadSound(c, env, place);
      case DidStart(_, _) => PassiveSound(c, event, env, place);
      case DidFinish(_) => PassiveSound(c, event, env, place);
      case DidFail(_, _) => PassiveSound(c, event, env, place);
    }
  }

  lemma {:induction false} RunSound(events: seq<(Event, Env)>) returns (place: Place)
    requires Unwrapped(events)
    ensures Sound(Run(events), place)
    decreases |events|
  {
    if events == [] {
      place := Nowhere;
    } else {
      var before := RunSound(events[..|events| - 1]);
      place := StepSound(Run(events[..|events| - 1]), events[|events| - 1].0, events[|events| - 1].1, before);
    }
  }
}
