/** What survives when browsing is interrupted: suspension, changes of the authority,
    the death of the renderer, and destruction. */
module ProxyResumption {
  import opened Wrappers
  import opened ProxyMachine
  import opened ProxyCoordinator
  import opened ProxySessionInvariant
  import opened ProxySessionSteps
  import opened ProxyAuthorityGate
  import opened ProxyAuthoritySteps
  import opened ProxyDelivery

  predicate Safe(request: Request) {
    request.verb == Get || request.verb == Head
  }

  /** What may be loaded again without being asked for again: the pending navigation
      or else the last one, if its method is GET or HEAD. */
  function Replayed(n: Nav): Option<Navigation> {
    if n.pending.Some? && Safe(n.pending.value.request) then n.pending
    else if n.last.Some? && Safe(n.last.value.request) then n.last
    else None
  }

  /** Nothing is shown or loaded, in the background. */
  predicate Hidden(before: Coordinator, c: Coordinator) {
    !c.machine.isForeground && c.nav.webView.None? && c.nav.loaded == before.nav.loaded
  }

  // ---- Suspension ----

  lemma SuspendKeeps(c: Coordinator, env: Env)
    requires Base(c) && !c.machine.phase.Destroyed?
    ensures var d := DoSuspend(c, env);
            && d.machine == Machine(Suspended, NextEpoch(c.machine.epoch), PendingScope(d.nav), false)
            && d.nav == c.nav.(pending := Replayed(c.nav), webView := None)
            && d.recovery.replayCount == 0 && d.recovery.suppressed == [] && !d.recovery.preserving
            && (c.life.activeProxy.Some? ==> c.machine.phase.Active? ==>
                  d.life.activeProxy.None? && d.life.queue == c.life.queue + [Join(c.life.activeProxy.value)])
  {
    var n := WithNav(Reset(c), RetainLast(DiscardUnsafe(c.nav)));
    var step := ProxyMachine.Suspend(n.machine, PendingScope(n.nav));
    if c.machine.phase.Active? {
      Execute2(n.(machine := step.0), RevokeWebView, RequestStopActiveProxy, None, env);
    } else {
      Execute1(n.(machine := step.0), RevokeWebView, None, env);
    }
  }

  /** From the background browsing starts again with what was kept. */
  lemma ResumeServes(c: Coordinator, env: Env)
    requires c.machine.phase.Suspended? && c.machine.pendingScope == PendingScope(c.nav) && !c.nav.destroyed
    ensures var d := DoResume(c, env);
            && d.machine.isForeground
            && (c.nav.pending.Some? ==>
                  Waits(d, c.nav.pending.value.request, c.nav.pending.value.destination) && d.nav == c.nav
                  && d.machine.phase.scope == c.nav.pending.value.destination.scope)
  {
    var n := WithNav(c, RetainLast(c.nav));
    if c.nav.pending.Some? {
      var step := ProxyMachine.Resume(c.machine);
      Execute1(c.(machine := step.0), step.1[0], None, env);
    }
  }

  /** A suspension hides the browser and keeps exactly what may be replayed; when the
      authority then still allows it, that waits for a new proxy, routed anew. */
  lemma SuspendedComesBack(events: seq<(Event, Env)>, env: Env, later: Env)
    requires !Run(events).machine.phase.Destroyed?
    ensures var c := Run(events);
            var kept, s := Replayed(c.nav), Step(c, SuspendBrowsing, env);
            var d := Step(s, UpdateAuthority(c.nav.ready), later);
            && Hidden(c, s) && s.nav.pending == kept
            && (kept.Some? && (c.nav.ready || kept.value.destination.eligible) ==>
                  Waits(d, kept.value.request,
                        kept.value.destination.(scope := ScopeFor(c.nav.ready, kept.value.destination))))
  {
    var c := Run(events);
    RunGate(events);
    SuspendKeeps(c, env);
    var s := DoSuspend(c, env);
    DoSuspendGate(c, env);
    if s.nav.pending.Some? && (s.nav.ready || s.nav.pending.value.destination.eligible) {
      ComesBack(s, later);
    }
  }

  lemma ComesBack(s: Coordinator, env: Env)
    requires Base(s) && s.machine.phase.Suspended? && s.machine.pendingScope == PendingScope(s.nav)
    requires s.nav.pending.Some? && Safe(s.nav.pending.value.request)
    requires s.nav.ready || s.nav.pending.value.destination.eligible
    ensures var kept := s.nav.pending.value;
            Waits(Step(s, UpdateAuthority(s.nav.ready), env), kept.request,
                  kept.destination.(scope := ScopeFor(s.nav.ready, kept.destination)))
  {
    var kept := s.nav.pending.value;
    var destination := Routed(s.nav.ready, kept.destination);
    assert WithNav(s, s.nav.(ready := s.nav.ready)) == s;
    if destination.scope == kept.destination.scope {
      ResumeServes(s, env);
    } else {
      var c1 := WithNav(Reset(s), s.nav.(pending := Some(Navigation(kept.request, destination))));
      QueueRemembers(c1, destination.scope, env);
      ResumeStarts(Perform(c1, QueueNavigation(c1.machine, destination.scope), env), env);
    }
  }

  // ---- The authority ----

  /** The current navigation, routed for the authority as it is now, waits for a proxy
      of its scope or was loaded through one. */
  ghost predicate Rerouted(before: Coordinator, c: Coordinator, navigation: Navigation, destination: Destination, identity: Option<nat>) {
    && c.machine.isForeground
    && if before.machine.phase.Active? && before.machine.phase.scope == destination.scope then
         LoadedNow(before, c, navigation.request, destination, identity)
       else Waits(c, navigation.request, destination) && c.nav.loaded == before.nav.loaded
  }

  lemma CurrentOutcome(c: Coordinator, d: Coordinator, navigation: Navigation, env: Env, place: Place)
    requires Sound(c, place) && Base(c) && !c.machine.phase.Destroyed? && Current(c.nav) == Some(navigation)
    requires d == DoUpdateAuthority(c, c.nav.ready, env)
    ensures var destination := navigation.destination.(scope := ScopeFor(c.nav.ready, navigation.destination));
            if !c.nav.ready && !destination.eligible then Hidden(c, d)
            else if destination.scope == navigation.destination.scope then d == DoResume(c, env)
            else if !Safe(navigation.request) then Hidden(c, d)
            else Rerouted(c, d, navigation, destination, env.navigation) && d.nav.ready == c.nav.ready
  {
    var routed := Navigation(navigation.request, Routed(c.nav.ready, navigation.destination));
    assert WithNav(c, c.nav.(ready := c.nav.ready)) == c;
    SuspendKeeps(c, env);
    EnqueueOutcome(c, routed, place, env);
    EnqueueKeepsReady(c, routed, env);
  }

  lemma AuthorityIsRead(c: Coordinator, ready: bool, env: Env)
    ensures DoUpdateAuthority(c, ready, env) ==
              if c.nav.destroyed then c else DoUpdateAuthority(WithNav(c, c.nav.(ready := ready)), ready, env)
  {
  }

  lemma AuthorityKept(c: Coordinator, env: Env)
    requires Base(c) && !c.machine.phase.Destroyed?
    ensures DoUpdateAuthority(c, c.nav.ready, env).nav.ready == c.nav.ready
  {
    assert WithNav(c, c.nav.(ready := c.nav.ready)) == c;
    SuspendKeeps(c, env);
    ResumesInForeground(c, env);
    if Current(c.nav).Some? {
      var navigation := Current(c.nav).value;
      EnqueueKeepsReady(c, Navigation(navigation.request, Routed(c.nav.ready, navigation.destination)), env);
    }
  }

  lemma NothingCurrent(c: Coordinator, env: Env)
    requires Base(c) && !c.machine.phase.Destroyed? && Current(c.nav).None?
    ensures var d := DoUpdateAuthority(c, c.nav.ready, env);
            if c.nav.ready then d.machine.isForeground else Hidden(c, d)
  {
    assert WithNav(c, c.nav.(ready := c.nav.ready)) == c;
    SuspendKeeps(c, env);
    ResumesInForeground(c, env);
  }

  /** After a change of the authority: what is current and may not be browsed, or was
      routed otherwise and may not be replayed, is hidden; what was routed otherwise
      and may be replayed is enqueued under its new route, where it waits for a proxy
      of that scope or is loaded through one; the rest goes on in the foreground. */
  lemma AuthorityOutcome(events: seq<(Event, Env)>, ready: bool, env: Env)
    requires Unwrapped(events) && !Run(events).machine.phase.Destroyed?
    ensures var c := Run(events);
            var d := Step(c, UpdateAuthority(ready), env);
            d.nav.ready == ready &&
            if Current(c.nav).None? then if ready then d.machine.isForeground else Hidden(c, d)
            else
              var navigation := Current(c.nav).value;
              var destination := navigation.destination.(scope := ScopeFor(ready, navigation.destination));
              if !ready && !destination.eligible then Hidden(c, d)
              else if destination.scope == navigation.destination.scope then d.machine.isForeground
              else if !Safe(navigation.request) then Hidden(c, d)
              else Rerouted(WithNav(c, c.nav.(ready := ready)), d, navigation, destination, env.navigation)
  {
    var c := Run(events);
    RunGate(events);
    var place := RunSound(events);
    var e := WithNav(c, c.nav.(ready := ready));
    AuthorityIsRead(c, ready, env);
    AuthorityKept(e, env);
    ResumesInForeground(e, env);
    if Current(c.nav).Some? {
      CurrentOutcome(e, DoUpdateAuthority(e, ready, env), Current(c.nav).value, env, place);
    } else {
      NothingCurrent(e, env);
    }
  }

  lemma ResumesInForeground(c: Coordinator, env: Env)
    requires Base(c) && !c.machine.phase.Destroyed?
    ensures DoResume(c, env).machine.isForeground && DoResume(c, env).nav.ready == c.nav.ready
  {
    var n := WithNav(c, RetainLast(c.nav));
    var step := ProxyMachine.Resume(n.machine);
    ExecuteForeground(n.(machine := step.0), step.1, env);
  }

  lemma {:induction false} ExecuteForeground(c: Coordinator, actions: seq<Action>, env: Env)
    ensures Execute(c, actions, None, env).machine.isForeground == c.machine.isForeground
    ensures Execute(c, actions, None, env).nav.ready == c.nav.ready
    decreases |actions|
  {
    if actions != [] {
      ExecuteForeground(ExecuteOne(c, actions[0], None, env), actions[1..], env);
    }
  }

  lemma EnqueueKeepsReady(c: Coordinator, navigation: Navigation, env: Env)
    requires Base(c) && !c.machine.phase.Destroyed?
    ensures Enqueue(c, navigation, env).nav.ready == c.nav.ready
  {
    var destination := Routed(c.nav.ready, navigation.destination);
    var c1 := WithNav(Reset(c), c.nav.(pending := Some(Navigation(navigation.request, destination))));
    SuspendKeeps(c1, env);
    var c2 := if MayBrowse(c1, destination.scope) then c1 else DoSuspend(c1, env);
    var step := QueueNavigation(c2.machine, destination.scope);
    ExecuteForeground(c2.(machine := step.0), step.1, env);
    var c3 := Perform(c2, step, env);
    var n := WithNav(c3, RetainLast(c3.nav));
    var resumed := ProxyMachine.Resume(n.machine);
    ExecuteForeground(n.(machine := resumed.0), resumed.1, env);
  }

  // ---- The renderer dies ----

  /** The WebView that was shown is gone, its session is to be joined, and what may
      be replayed waits for a new proxy of its scope. */
  lemma RendererDeathIsReplayed(events: seq<(Event, Env)>, webView: nat, env: Env)
    requires Unwrapped(events) && Run(events).nav.webView == Some(webView)
    ensures var c := Run(events);
            var kept, d := Replayed(c.nav), Step(c, RendererDied(webView), env);
            && d.machine.isForeground && d.nav == c.nav.(pending := kept, webView := None)
            && d.life.activeProxy.None? && c.life.activeProxy.Some?
            && d.life.queue == c.life.queue + [Join(c.life.activeProxy.value)]
                                + (if kept.Some? then [Start(d.machine.epoch, kept.value.destination.scope)] else [])
            && d.recovery.replayCount == 0 && d.recovery.suppressed == [] && !d.recovery.preserving
            && (if kept.Some? then Waits(d, kept.value.request, kept.value.destination)
                else d.machine.phase.Idle? && d.machine.pendingScope.None?)
  {
    var c := Run(events);
    RunGate(events);
    var place := RunSound(events);
    DeathReplays(c, webView, env);
  }

  lemma DeathReplays(c: Coordinator, webView: nat, env: Env)
    requires Base(c) && c.nav.webView == Some(webView) && c.life.activeProxy.Some? && c.machine.phase.Active?
    ensures var kept, d := Replayed(c.nav), Step(c, RendererDied(webView), env);
            && d.machine.isForeground && d.nav == c.nav.(pending := kept, webView := None)
            && d.life.activeProxy.None?
            && d.life.queue == c.life.queue + [Join(c.life.activeProxy.value)]
                                + (if kept.Some? then [Start(d.machine.epoch, kept.value.destination.scope)] else [])
            && d.recovery.replayCount == 0 && d.recovery.suppressed == [] && !d.recovery.preserving
            && (if kept.Some? then Waits(d, kept.value.request, kept.value.destination)
                else d.machine.phase.Idle? && d.machine.pendingScope.None?)
  {
    var n := WithNav(Reset(c), RetainLast(DiscardUnsafe(c.nav)));
    var step := ProxyMachine.RendererTerminated(n.machine, PendingScope(n.nav));
    var e := n.(machine := step.0);
    if Replayed(c.nav).Some? {
      assert step.1 == [RevokeWebView, RequestStopActiveProxy, step.1[2]];
      Execute3(e, RevokeWebView, RequestStopActiveProxy, step.1[2], None, env);
    } else {
      Execute2(e, RevokeWebView, RequestStopActiveProxy, None, env);
    }
  }

  // ---- Reload and destruction ----

  /** Without a WebView a reload enqueues the last navigation again, unless it may not
      be replayed; with one it starts a new recovery episode. */
  lemma ReloadOutcome(events: seq<(Event, Env)>, env: Env)
    requires Unwrapped(events) && !Run(events).machine.phase.Destroyed?
    ensures var c := Run(events);
            var d := Step(c, Reload, env);
            if c.nav.last.Some? && !Safe(c.nav.last.value.request) then d == c
            else if c.nav.webView.Some? then
              d.nav == c.nav && d.machine == c.machine && d.recovery.tracked == env.navigation
              && d.recovery.replayCount == 0 && d.recovery.suppressed == []
            else if c.nav.last.None? then d == c
            else
              var last := c.nav.last.value;
              var destination := last.destination.(scope := ScopeFor(c.nav.ready, last.destination));
              if !c.nav.ready && !destination.eligible then Hidden(c, d)
              else if c.machine.phase.Active? && c.machine.phase.scope == destination.scope then
                LoadedNow(c, d, last.request, destination, env.navigation)
              else Waits(d, last.request, destination)
  {
    var c := Run(events);
    RunGate(events);
    var place := RunSound(events);
    if c.nav.last.Some? {
      EnqueueOutcome(c, c.nav.last.value, place, env);
    }
  }

  /** Destruction hides the browser, forgets every navigation, and leaves the active
      session to be joined. */
  lemma DestroyOutcome(events: seq<(Event, Env)>, env: Env)
    requires !Run(events).machine.phase.Destroyed? && Unwrapped(events)
    ensures var c := Run(events);
            var d := Step(c, DestroyCoordinator, env);
            && d.machine.phase.Destroyed? && Hidden(c, d) && d.nav.pending.None? && d.nav.last.None? && d.nav.destroyed
            && d.life.activeProxy.None?
            && d.life.queue == c.life.queue + (if c.life.activeProxy.Some? then [Join(c.life.activeProxy.value)] else [])
  {
    var c := Run(events);
    RunGate(events);
    var place := RunSound(events);
    var n := WithNav(Reset(c), c.nav.(destroyed := true, pending := None, last := None));
    var step := ProxyMachine.Destroy(n.machine);
    if c.machine.phase.Active? {
      Execute2(n.(machine := step.0), RevokeWebView, RequestStopActiveProxy, None, env);
    } else {
      Execute1(n.(machine := step.0), RevokeWebView, None, env);
    }
    assert c.life.queue + [] == c.life.queue;
  }
}
