/** BrowserProxyCoordinator.swift as a transition system: main-actor events, a
    serial lifecycle queue of start and join jobs, and the job at its head. One
    event and everything it executes is one step. */
module ProxyCoordinator {
  import opened Wrappers
  import opened ProxyMachine

  // ---- Navigations ----

  /** The HTTP method in upper case; a missing method is GET. */
  datatype Verb = Get | Head | Other(name: string)

  /** `id` tells apart two requests with the same contents. */
  datatype Request = Request(id: nat, url: string, verb: Verb)

  /** `eligible` is the runtime's verdict on the host for header-sync browsing. */
  datatype Destination = Destination(url: string, host: string, eligible: bool, scope: Scope)

  datatype Navigation = Navigation(request: Request, destination: Destination)

  /** NavigationReplayPolicy.allowsAutomaticReplay. */
  predicate Replayable(request: Request) {
    request.verb.Get? || request.verb.Head?
  }

  /** requestsMatchForProvisionalFailureRecovery. */
  predicate Matches(a: Request, b: Request) {
    a.url == b.url && a.verb == b.verb
  }

  // ---- State ----

  datatype Job = Start(epoch: nat, scope: Scope) | Join(session: nat)

  /** The lifecycle queue's current job.  A start that produced a session blocks
      from Created until its callback ran, then sees whether it was retained. */
  datatype Worker =
    | Waiting
    | Created(epoch: nat, scope: Scope, session: nat)
    | Delivered(session: nat, retained: bool)

  datatype FailedStart = FailedStart(epoch: nat, scope: Scope)

  /** What a native session was started for. */
  datatype Started = Started(epoch: nat, scope: Scope)

  /** Native sessions are numbered in creation order; `startedFor` has the start
      of each, `joined` the order in which they were joined. */
  datatype Life = Life(
    activeProxy: Option<nat>, activeScope: Option<Scope>,
    queue: seq<Job>, worker: Worker, failures: seq<FailedStart>,
    startedFor: seq<Started>, joined: seq<nat>)

  /** A recovery waiting for its backoff or for the sync safe point. */
  datatype RecoveryTask = RecoveryTask(
    webView: nat, request: Request, destination: Destination, generation: nat, atSafePoint: bool)

  datatype Load = Load(
    request: Request, destinationScope: Scope, activeScope: Scope, session: nat, epoch: nat, ready: bool, joined: nat)

  /** `loaded` records every request loaded into a WebView. */
  datatype Nav = Nav(
    ready: bool, destroyed: bool,
    pending: Option<Navigation>, last: Option<Navigation>,
    webView: Option<nat>, webViews: nat,
    tasks: seq<RecoveryTask>,
    loaded: seq<Load>)

  /** The recovery episode; `rotations` counts proxy and WebView rotations since
      the last reset. */
  datatype Recovery = Recovery(
    replayCount: nat, generation: nat, pendingReplay: Option<Request>, preserving: bool,
    tracked: Option<nat>, suppressed: seq<nat>, rotations: nat)

  datatype Coordinator = Coordinator(machine: Machine, life: Life, nav: Nav, recovery: Recovery)

  const INITIAL_COORDINATOR: Coordinator :=
    Coordinator(INITIAL,
                Life(None, None, [], Waiting, [], [], []),
                Nav(false, false, None, None, None, 0, [], []),
                Recovery(0, 0, None, false, None, [], 0))

  /** What the surroundings answer during one event: whether the profile accepts
      the endpoint, the navigation identity WebKit returns, and whether a delegate
      is attached and can schedule a safe-point callback. */
  datatype Env = Env(installs: bool, navigation: Option<nat>, hasDelegate: bool, schedules: bool)

  // ---- Small operations ----

  function NextGeneration(generation: nat): nat {
    if generation == MAX_EPOCH then 0 else generation + 1
  }

  /** invalidateQueuedRecoveryPreservingReplayBudget. */
  function Invalidated(r: Recovery): Recovery {
    r.(generation := NextGeneration(r.generation), pendingReplay := None, tracked := None)
  }

  function Refunded(r: Recovery): Recovery {
    r.(replayCount := 0, preserving := false, suppressed := [], rotations := 0)
  }

  function ResetRecovery(r: Recovery): Recovery {
    Refunded(Invalidated(r))
  }

  function Reset(c: Coordinator): Coordinator {
    c.(recovery := ResetRecovery(c.recovery))
  }

  /** routedDestination: which proxy may serve d. */
  function Routed(ready: bool, d: Destination): Destination {
    d.(scope := if !ready && d.eligible then IcannBootstrap else WholeBrowser)
  }

  function RevokeView(c: Coordinator): Coordinator {
    var d := if c.recovery.preserving then c else Reset(c);
    d.(nav := d.nav.(webView := None))
  }

  function Retire(l: Life): Life {
    if l.activeProxy.None? then l
    else l.(activeProxy := None, activeScope := None, queue := l.queue + [Join(l.activeProxy.value)])
  }

  function Queued(l: Life, epoch: nat, scope: Scope): Life {
    l.(queue := l.queue + [Start(epoch, scope)])
  }

  /** CandidateDisposition.setRetained, when the callback has a candidate. */
  function Disposed(l: Life, retained: bool): Life {
    if l.worker.Delivered? then l.(worker := Delivered(l.worker.session, retained)) else l
  }

  function Publish(l: Life, candidate: nat, scope: Scope): Life {
    Disposed(l.(activeProxy := Some(candidate), activeScope := Some(scope)), true)
  }

  function WithWebView(n: Nav): Nav {
    if n.webView.Some? then n else n.(webView := Some(n.webViews), webViews := n.webViews + 1)
  }

  /** A recovery is carried across its rotation, and ended by any other load. */
  function Entered(r: Recovery, request: Request): Recovery {
    if r.preserving then r.(pendingReplay := Some(request), preserving := false) else ResetRecovery(r)
  }

  /** admitPendingNavigation: load the pending request when its scope is the active one. */
  function Admit(c: Coordinator, epoch: nat, scope: Scope, env: Env): Coordinator {
    var n, r := c.nav, c.recovery;
    if c.life.activeProxy.None? || c.life.activeScope != Some(scope)
       || n.pending.None? || n.pending.value.destination.scope != scope then c
    else
      var navigation := n.pending.value;
      var load := Load(navigation.request, navigation.destination.scope, c.life.activeScope.value,
                       c.life.activeProxy.value, epoch, n.ready, |c.life.joined|);
      Coordinator(
        NavigationAdmitted(c.machine, epoch, scope),
        c.life,
        WithWebView(n).(last := n.pending, pending := None, loaded := n.loaded + [load]),
        Entered(r, navigation.request).(tracked := env.navigation))
  }

  // ---- execute ----

  /** What executing AdmissionFailed's actions comes to. */
  function FailAdmission(c: Coordinator, epoch: nat, scope: Scope): Coordinator {
    if c.machine.phase == Active(epoch, scope) then
      Reset(RevokeView(c.(machine := AdmissionFailed(c.machine, epoch, scope).0)))
    else c
  }

  function WithLife(c: Coordinator, life: Life): Coordinator {
    c.(life := life)
  }

  function ExecuteOne(c: Coordinator, action: Action, candidate: Option<nat>, env: Env): Coordinator {
    match action
    case RevokeWebView => RevokeView(c)
    case RequestStopActiveProxy => WithLife(c, Retire(c.life))
    case StartProxy(epoch, scope) => WithLife(c, Queued(c.life, epoch, scope))
    case DisposeStaleProxy =>
      if candidate.None? then c else WithLife(c, Disposed(c.life, false))
    case DisposeStaleProxyThenStart(epoch, scope) =>
      WithLife(c, Queued(if candidate.None? then c.life else Disposed(c.life, false), epoch, scope))
    case PublishCandidateAndAdmitWebView(epoch, scope) =>
      if candidate.None? then FailAdmission(c, epoch, scope)
      else if env.installs then Admit(WithLife(c, Publish(c.life, candidate.value, scope)), epoch, scope, env)
      else FailAdmission(WithLife(c, Disposed(c.life, false)), epoch, scope)
    case AdmitThroughActiveProxy(epoch, scope) =>
      if c.life.activeProxy.None? || c.life.activeScope != Some(scope) then
        var failed := FailAdmission(c, epoch, scope);
        WithLife(failed, Retire(failed.life))
      else Admit(c, epoch, scope, env)
    case ShowFailure(_) => Reset(c)
  }

  function Execute(c: Coordinator, actions: seq<Action>, candidate: Option<nat>, env: Env): Coordinator
    decreases |actions|
  {
    if actions == [] then c
    else Execute(ExecuteOne(c, actions[0], candidate, env), actions[1..], candidate, env)
  }

  lemma Execute1(c: Coordinator, a: Action, candidate: Option<nat>, env: Env)
    ensures Execute(c, [a], candidate, env) == ExecuteOne(c, a, candidate, env)
  {
    assert [a][1..] == [];
  }

  lemma Execute2(c: Coordinator, a: Action, b: Action, candidate: Option<nat>, env: Env)
    ensures Execute(c, [a, b], candidate, env) == ExecuteOne(ExecuteOne(c, a, candidate, env), b, candidate, env)
  {
    assert [a, b][1..] == [b];
    Execute1(ExecuteOne(c, a, candidate, env), b, candidate, env);
  }

  lemma Execute3(c: Coordinator, a: Action, b: Action, d: Action, candidate: Option<nat>, env: Env)
    ensures Execute(c, [a, b, d], candidate, env) ==
            ExecuteOne(ExecuteOne(ExecuteOne(c, a, candidate, env), b, candidate, env), d, candidate, env)
  {
    assert [a, b, d][1..] == [b, d];
    Execute2(ExecuteOne(c, a, candidate, env), b, d, candidate, env);
  }

  /** Execute what a machine transition asked for, without a candidate. */
  function Perform(c: Coordinator, step: (Machine, seq<Action>), env: Env): Coordinator {
    Execute(c.(machine := step.0), step.1, None, env)
  }

  // ---- Requests from the outside ----

  function WithNav(c: Coordinator, nav: Nav): Coordinator {
    c.(nav := nav)
  }

  /** Nothing pending: fall back to the last navigation if replaying it is safe. */
  function RetainLast(n: Nav): Nav {
    if n.pending.None? && n.last.Some? && Replayable(n.last.value.request) then n.(pending := n.last) else n
  }

  function DiscardUnsafe(n: Nav): Nav {
    if n.pending.Some? && !Replayable(n.pending.value.request) then n.(pending := None) else n
  }

  function PendingScope(n: Nav): Option<Scope> {
    if n.pending.Some? then Some(n.pending.value.destination.scope) else None
  }

  function DoResume(c: Coordinator, env: Env): Coordinator {
    if c.nav.destroyed then c
    else
      var d := WithNav(c, RetainLast(c.nav));
      Perform(d, ProxyMachine.Resume(d.machine), env)
  }

  function DoSuspend(c: Coordinator, env: Env): Coordinator {
    if c.nav.destroyed then c
    else
      var d := WithNav(Reset(c), RetainLast(DiscardUnsafe(c.nav)));
      Perform(d, ProxyMachine.Suspend(d.machine, PendingScope(d.nav)), env)
  }

  function DoDestroy(c: Coordinator, env: Env): Coordinator {
    if c.nav.destroyed then c
    else
      var d := WithNav(Reset(c), c.nav.(destroyed := true, pending := None, last := None));
      Perform(d, ProxyMachine.Destroy(d.machine), env)
  }

  predicate MayBrowse(c: Coordinator, scope: Scope) {
    c.nav.ready || scope == IcannBootstrap
  }

  function Enqueue(c: Coordinator, navigation: Navigation, env: Env): Coordinator {
    var destination := Routed(c.nav.ready, navigation.destination);
    var c1 := WithNav(Reset(c), c.nav.(pending := Some(Navigation(navigation.request, destination))));
    var c2 := if MayBrowse(c1, destination.scope) then c1 else DoSuspend(c1, env);
    var c3 := Perform(c2, QueueNavigation(c2.machine, destination.scope), env);
    if MayBrowse(c3, destination.scope) then DoResume(c3, env) else c3
  }

  function DoUpdateAuthority(c: Coordinator, ready: bool, env: Env): Coordinator {
    if c.nav.destroyed then c
    else
      var d := WithNav(c, c.nav.(ready := ready));
      var current := if c.nav.pending.Some? then c.nav.pending else c.nav.last;
      if current.None? then if ready then DoResume(d, env) else DoSuspend(d, env)
      else
        var navigation := current.value;
        var destination := Routed(d.nav.ready, navigation.destination);
        if destination.scope != navigation.destination.scope then
          if Replayable(navigation.request) then Enqueue(d, Navigation(navigation.request, destination), env)
          else DoSuspend(d, env)
        else if MayBrowse(d, destination.scope) then DoResume(d, env)
        else DoSuspend(d, env)
  }

  function DoReload(c: Coordinator, env: Env): Coordinator {
    if c.nav.last.Some? && !Replayable(c.nav.last.value.request) then c
    else if c.nav.webView.None? then
      if c.nav.last.Some? then Enqueue(c, c.nav.last.value, env) else c
    else c.(recovery := ResetRecovery(c.recovery).(tracked := env.navigation))
  }

  // ---- WebKit's delegate calls ----

  predicate Admitted(c: Coordinator, d: Destination, webView: nat) {
    && c.nav.webView == Some(webView)
    && c.life.activeProxy.Some? && c.life.activeScope == Some(d.scope)
    && c.machine.phase.Active? && c.machine.phase.scope == d.scope
  }

  /** evaluateNavigationAction and the reset or invalidation it asks for. */
  function AfterNavigationAction(r: Recovery, request: Request): Recovery {
    var isReplay := r.pendingReplay.Some? && Matches(r.pendingReplay.value, request);
    if isReplay then r.(pendingReplay := None)
    else if r.suppressed != [] then
      Invalidated(r)
    else ResetRecovery(r)
  }

  /** decidePolicyFor a main-frame request to a classified destination. */
  function DoDecidePolicy(c: Coordinator, webView: nat, request: Request, classified: Destination, env: Env): Coordinator {
    var destination := Routed(c.nav.ready, classified);
    if Admitted(c, destination, webView) then
      WithNav(c.(recovery := AfterNavigationAction(c.recovery, request)),
              c.nav.(last := Some(Navigation(request, destination))))
    else if c.life.activeScope == Some(destination.scope) || !Replayable(request) then c
    else Enqueue(c, Navigation(request, destination), env)
  }

  function DoDidStart(c: Coordinator, webView: nat, identity: Option<nat>): Coordinator {
    if c.nav.webView != Some(webView) || identity.None? then c
    else c.(recovery := c.recovery.(tracked := identity))
  }

  function DoDidFinish(c: Coordinator, webView: nat): Coordinator {
    if c.nav.webView != Some(webView) then c else Reset(c)
  }

  /** The provisional errors the coordinator tells apart. */
  datatype ProvisionalError = ConnectionLostOrTimedOut | InterruptedByPolicyChange | OtherError

  const MAX_REPLAYS: nat := 2

  /** ProvisionalNavigationFailureRecoveryPolicy.evaluate. */
  predicate MayRecover(r: Recovery, request: Request, identity: nat, error: ProvisionalError) {
    && r.tracked == Some(identity)
    && error.ConnectionLostOrTimedOut?
    && r.replayCount < MAX_REPLAYS
    && Replayable(request)
  }

  function CountFailure(r: Recovery, identity: nat): Recovery {
    r.(replayCount := r.replayCount + 1, suppressed := r.suppressed + [identity])
  }

  function WithTask(c: Coordinator, task: RecoveryTask): Coordinator {
    WithNav(c, c.nav.(tasks := c.nav.tasks + [task]))
  }

  /** recoverProvisionalNavigationIfAllowed: the new state, and whether the failure
      is taken care of. */
  function RecoverIfAllowed(c: Coordinator, webView: nat, identity: Option<nat>, error: ProvisionalError, env: Env)
    : (Coordinator, bool)
  {
    var r, n := c.recovery, c.nav;
    if n.destroyed || n.last.None? || identity.None? then (c, false)
    else if identity.value in r.suppressed then (c, true)
    else if !MayRecover(r, n.last.value.request, identity.value, error) || !env.hasDelegate then (c, false)
    else
      var counted := c.(recovery := CountFailure(r, identity.value));
      var task := RecoveryTask(webView, n.last.value.request, n.last.value.destination, r.generation, r.replayCount == 0);
      if r.replayCount == 0 && !env.schedules then (counted, false) else (WithTask(counted, task), true)
  }

  function DoDidFailProvisional(c: Coordinator, webView: nat, identity: Option<nat>, error: ProvisionalError, env: Env): Coordinator {
    var r, n := c.recovery, c.nav;
    if n.webView != Some(webView) then c
    else if identity.Some? && r.tracked.Some? && r.tracked != identity && error.InterruptedByPolicyChange? then c
    else
      var (d, recovered) := RecoverIfAllowed(c, webView, identity, error, env);
      if recovered then d else Reset(d)
  }

  function DoDidFail(c: Coordinator, webView: nat, identity: Option<nat>): Coordinator {
    if c.nav.webView != Some(webView) then c
    else if identity.Some? && identity.value in c.recovery.suppressed then c
    else Reset(c)
  }

  function DoRendererTerminated(c: Coordinator, webView: nat, env: Env): Coordinator {
    if c.nav.webView != Some(webView) then c
    else
      var d := WithNav(Reset(c), RetainLast(DiscardUnsafe(c.nav)));
      Perform(d, ProxyMachine.RendererTerminated(d.machine, PendingScope(d.nav)), env)
  }

  // ---- Delayed recovery ----

  predicate StillWanted(c: Coordinator, task: RecoveryTask) {
    && !c.nav.destroyed
    && c.nav.webView == Some(task.webView)
    && c.recovery.generation == task.generation
    && c.nav.last.Some?
    && c.nav.last.value.destination == task.destination
    && Matches(c.nav.last.value.request, task.request)
  }

  /** The backoff elapsed: hand the recovery to the sync safe point, or report. */
  function FireBackoff(c: Coordinator, task: RecoveryTask, env: Env): Coordinator {
    if !StillWanted(c, task) then c
    else if env.hasDelegate && env.schedules then WithTask(c, task.(atSafePoint := true))
    else Reset(c)
  }

  /** The task's navigation is pending again, carried by the recovery. */
  function RotationPrepared(c: Coordinator, task: RecoveryTask): Coordinator {
    WithNav(c.(recovery := c.recovery.(preserving := true)),
            c.nav.(pending := Some(Navigation(task.request, task.destination))))
  }

  function RotationCounted(c: Coordinator): Coordinator {
    c.(recovery := c.recovery.(rotations := c.recovery.rotations + 1))
  }

  function RotationAbandoned(c: Coordinator): Coordinator {
    WithNav(c.(recovery := c.recovery.(preserving := false)), c.nav.(pending := None))
  }

  function Rotated(c: Coordinator, scope: Scope, env: Env): Coordinator {
    var step := RecoverProvisionalNavigation(c.machine, scope);
    if step.1 == [] then RotationAbandoned(c.(machine := step.0)) else Perform(RotationCounted(c), step, env)
  }

  /** rotateProxyAndWebViewForProvisionalFailureRecovery. */
  function Rotate(c: Coordinator, task: RecoveryTask, env: Env): Coordinator {
    if !StillWanted(c, task) || !c.machine.phase.Active? || c.machine.phase.scope != task.destination.scope then c
    else Rotated(RotationPrepared(c, task), task.destination.scope, env)
  }

  // ---- The lifecycle queue ----

  /** The worker takes the next job: a start creates a session or fails, a join
      destroys its session. */
  function TakeJob(l: Life, succeeds: bool): Life {
    if !l.worker.Waiting? || l.queue == [] then l
    else
      var rest := l.(queue := l.queue[1..]);
      match l.queue[0]
      case Join(session) => rest.(joined := l.joined + [session])
      case Start(epoch, scope) =>
        if succeeds then
          rest.(worker := Created(epoch, scope, |l.startedFor|), startedFor := l.startedFor + [Started(epoch, scope)])
        else rest.(failures := l.failures + [FailedStart(epoch, scope)])
  }

  /** After the callback: a candidate that was not retained is stopped and joined. */
  function FinishJob(l: Life): Life {
    match l.worker
    case Delivered(session, retained) =>
      l.(worker := Waiting, joined := if retained then l.joined else l.joined + [session])
    case _ => l
  }

  /** The main-actor callback of a successful start. */
  function DeliverStarted(c: Coordinator, env: Env): Coordinator {
    match c.life.worker
    case Created(epoch, scope, session) =>
      var step := ProxyStarted(c.machine, epoch, scope, true);
      Execute(Coordinator(step.0, c.life.(worker := Delivered(session, false)), c.nav, c.recovery),
              step.1, Some(session), env)
    case _ => c
  }

  /** The main-actor callback of the i-th failed start still undelivered. */
  function DeliverFailed(c: Coordinator, i: nat, env: Env): Coordinator {
    if i >= |c.life.failures| then c
    else
      var f := c.life.failures[i];
      var d := WithLife(c, c.life.(failures := c.life.failures[..i] + c.life.failures[i + 1..]));
      Perform(d, ProxyStarted(d.machine, f.epoch, f.scope, false), env)
  }

  // ---- Steps and runs ----

  /** The coordinator's own methods call resume; nothing else does. */
  datatype Event =
    | Navigate(navigation: Navigation)
    | UpdateAuthority(ready: bool)
    | SuspendBrowsing
    | DestroyCoordinator
    | Reload
    | StopLoading
    | DecidePolicy(webView: nat, request: Request, classified: Destination)
    | DidStart(webView: nat, identity: Option<nat>)
    | DidFinish(webView: nat)
    | DidFailProvisional(webView: nat, identity: Option<nat>, error: ProvisionalError)
    | DidFail(webView: nat, identity: Option<nat>)
    | RendererDied(webView: nat)
    | BackoffElapsed(task: nat)
    | SafePointReached(task: nat)
    | StartDelivered
    | FailureDelivered(failure: nat)
    | JobTaken(succeeds: bool)
    | JobFinished

  /** One step.  A delayed recovery may run any number of times, or never. */
  function Step(c: Coordinator, event: Event, env: Env): Coordinator {
    match event
    case Navigate(navigation) => Enqueue(c, navigation, env)
    case UpdateAuthority(ready) => DoUpdateAuthority(c, ready, env)
    case SuspendBrowsing => DoSuspend(c, env)
    case DestroyCoordinator => DoDestroy(c, env)
    case Reload => DoReload(c, env)
    case StopLoading => Reset(c)
    case DecidePolicy(webView, request, classified) => DoDecidePolicy(c, webView, request, classified, env)
    case DidStart(webView, identity) => DoDidStart(c, webView, identity)
    case DidFinish(webView) => DoDidFinish(c, webView)
    case DidFailProvisional(webView, identity, error) => DoDidFailProvisional(c, webView, identity, error, env)
    case DidFail(webView, identity) => DoDidFail(c, webView, identity)
    case RendererDied(webView) => DoRendererTerminated(c, webView, env)
    case BackoffElapsed(i) =>
      if i < |c.nav.tasks| && !c.nav.tasks[i].atSafePoint then FireBackoff(c, c.nav.tasks[i], env) else c
    case SafePointReached(i) =>
      if i < |c.nav.tasks| && c.nav.tasks[i].atSafePoint then Rotate(c, c.nav.tasks[i], env) else c
    case StartDelivered => DeliverStarted(c, env)
    case FailureDelivered(i) => DeliverFailed(c, i, env)
    case JobTaken(succeeds) => WithLife(c, TakeJob(c.life, succeeds))
    case JobFinished => WithLife(c, FinishJob(c.life))
  }

  function Run(events: seq<(Event, Env)>): Coordinator {
    if events == [] then INITIAL_COORDINATOR
    else Step(Run(events[..|events| - 1]), events[|events| - 1].0, events[|events| - 1].1)
  }

  predicate Roomy(c: Coordinator) {
    c.machine.epoch < MAX_EPOCH - 64 && c.recovery.generation < MAX_EPOCH - 64
  }

  /** The run stays clear of the wrap of its two 64-bit counters. */
  ghost predicate Unwrapped(events: seq<(Event, Env)>) {
    events == [] || (Unwrapped(events[..|events| - 1]) && Roomy(Run(events[..|events| - 1])))
  }
}
