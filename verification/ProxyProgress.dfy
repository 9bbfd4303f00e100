/** Progress: once no new event comes in and the outstanding starts succeed, the
    machine ends active on the newest pending scope after at most one extra start. */
module ProxyProgress {
  import opened Wrappers
  import opened Sequences
  import opened ProxyMachine
  import opened ProxyCoordinator
  import opened ProxySessionInvariant
  import opened ProxySessionSteps

  /** The start (epoch, scope) is queued, running, or failed and not yet reported. */
  predicate Outstanding(l: Life, epoch: nat, scope: Scope) {
    || Start(epoch, scope) in l.queue
    || (l.worker.Created? && l.worker.epoch == epoch && l.worker.scope == scope)
    || FailedStart(epoch, scope) in l.failures
  }

  predicate Announces(actions: seq<Action>, epoch: nat, scope: Scope) {
    actions != [] &&
    var last := actions[|actions| - 1];
    last == StartProxy(epoch, scope) || last == DisposeStaleProxyThenStart(epoch, scope)
  }

  /** While starting, the start is outstanding or still to be queued by `actions`. */
  predicate Awaits(c: Coordinator, actions: seq<Action>) {
    c.machine.phase.Starting? ==>
      || Outstanding(c.life, c.machine.phase.epoch, c.machine.phase.scope)
      || Announces(actions, c.machine.phase.epoch, c.machine.phase.scope)
  }

  // ---- Every start that is waited for is outstanding ----

  lemma ExecuteOneAwaits(c: Coordinator, action: Action, candidate: Option<nat>, env: Env)
    requires Awaits(c, [action])
    ensures Awaits(ExecuteOne(c, action, candidate, env), [])
  {
  }

  lemma ExecuteOneKeepsAwaiting(c: Coordinator, actions: seq<Action>, candidate: Option<nat>, env: Env)
    requires Awaits(c, actions) && |actions| > 1
    ensures Awaits(ExecuteOne(c, actions[0], candidate, env), actions[1..])
  {
    assert actions[1..][|actions| - 2] == actions[|actions| - 1];
  }

  lemma {:induction false} ExecuteAwaits(c: Coordinator, actions: seq<Action>, candidate: Option<nat>, env: Env)
    requires Awaits(c, actions)
    ensures Awaits(Execute(c, actions, candidate, env), [])
    decreases |actions|
  {
    if |actions| == 1 {
      assert actions == [actions[0]] && actions[1..] == [];
      ExecuteOneAwaits(c, actions[0], candidate, env);
    } else if actions != [] {
      ExecuteOneKeepsAwaiting(c, actions, candidate, env);
      ExecuteAwaits(ExecuteOne(c, actions[0], candidate, env), actions[1..], candidate, env);
    }
  }

  /** A transition that enters .starting announces the start. */
  predicate Prepares(m: Machine, step: (Machine, seq<Action>)) {
    step.0.phase.Starting? ==> step.0.phase == m.phase || Announces(step.1, step.0.phase.epoch, step.0.phase.scope)
  }

  lemma TransitionsPrepare(m: Machine, call: Call)
    ensures Prepares(m, Apply(m, call))
  {
  }

  lemma PerformAwaits(c: Coordinator, step: (Machine, seq<Action>), env: Env)
    requires Awaits(c, []) && Prepares(c.machine, step)
    ensures Awaits(Perform(c, step, env), [])
  {
    ExecuteAwaits(c.(machine := step.0), step.1, None, env);
  }

  lemma CallAwaits(c: Coordinator, call: Call, env: Env)
    requires Awaits(c, [])
    ensures Awaits(Perform(c, Apply(c.machine, call), env), [])
  {
    TransitionsPrepare(c.machine, call);
    PerformAwaits(c, Apply(c.machine, call), env);
  }

  lemma DoResumeAwaits(c: Coordinator, env: Env)
    requires Awaits(c, [])
    ensures Awaits(DoResume(c, env), [])
  {
    CallAwaits(WithNav(c, RetainLast(c.nav)), CallResume, env);
  }

  lemma DoSuspendAwaits(c: Coordinator, env: Env)
    requires Awaits(c, [])
    ensures Awaits(DoSuspend(c, env), [])
  {
    var d := WithNav(Reset(c), RetainLast(DiscardUnsafe(c.nav)));
    CallAwaits(d, CallSuspend(PendingScope(d.nav)), env);
  }

  lemma EnqueueAwaits(c: Coordinator, navigation: Navigation, env: Env)
    requires Awaits(c, [])
    ensures Awaits(Enqueue(c, navigation, env), [])
  {
    var destination := Routed(c.nav.ready, navigation.destination);
    var c1 := WithNav(Reset(c), c.nav.(pending := Some(Navigation(navigation.request, destination))));
    DoSuspendAwaits(c1, env);
    var c2 := if MayBrowse(c1, destination.scope) then c1 else DoSuspend(c1, env);
    CallAwaits(c2, CallQueueNavigation(destination.scope), env);
    DoResumeAwaits(Perform(c2, QueueNavigation(c2.machine, destination.scope), env), env);
  }

  lemma UpdateAuthorityAwaits(c: Coordinator, ready: bool, env: Env)
    requires Awaits(c, [])
    ensures Awaits(DoUpdateAuthority(c, ready, env), [])
  {
    var d := WithNav(c, c.nav.(ready := ready));
    DoResumeAwaits(d, env);
    DoSuspendAwaits(d, env);
    var current := if c.nav.pending.Some? then c.nav.pending else c.nav.last;
    if current.Some? {
      EnqueueAwaits(d, Navigation(current.value.request, Routed(d.nav.ready, current.value.destination)), env);
    }
  }

  lemma RotateAwaits(c: Coordinator, task: RecoveryTask, env: Env)
    requires Awaits(c, [])
    ensures Awaits(Rotate(c, task, env), [])
  {
    var d := WithNav(c.(recovery := c.recovery.(preserving := true, rotations := c.recovery.rotations + 1)),
                     c.nav.(pending := Some(Navigation(task.request, task.destination))));
    CallAwaits(d, CallRecover(task.destination.scope), env);
  }

  /** The callback's own start is no longer outstanding, but it is answered. */
  lemma StartedAwaits(c: Coordinator, env: Env)
    requires Awaits(c, []) && Consistent(c.machine)
    ensures Awaits(DeliverStarted(c, env), [])
  {
    if c.life.worker.Created? {
      var Created(epoch, scope, session) := c.life.worker;
      var step := ProxyStarted(c.machine, epoch, scope, true);
      var d := Coordinator(step.0, c.life.(worker := Delivered(session, false)), c.nav, c.recovery);
      TransitionsPrepare(c.machine, CallProxyStarted(epoch, scope, true));
      assert Awaits(d, step.1);
      ExecuteAwaits(d, step.1, Some(session), env);
    }
  }

  lemma RemoveOne(failures: seq<FailedStart>, i: nat, f: FailedStart)
    requires i < |failures| && f in failures && f != failures[i]
    ensures f in failures[..i] + failures[i + 1..]
  {
    var k :| 0 <= k < |failures| && failures[k] == f;
    if k < i {
      assert f == failures[..i][k];
    } else {
      assert f == failures[i + 1..][k - i - 1];
    }
  }

  lemma StartFailedAwaits(c: Coordinator, i: nat, env: Env)
    requires Awaits(c, []) && Consistent(c.machine)
    ensures Awaits(DeliverFailed(c, i, env), [])
  {
    if i < |c.life.failures| {
      var f := c.life.failures[i];
      var d := WithLife(c, c.life.(failures := c.life.failures[..i] + c.life.failures[i + 1..]));
      var step := ProxyStarted(c.machine, f.epoch, f.scope, false);
      TransitionsPrepare(c.machine, CallProxyStarted(f.epoch, f.scope, false));
      if c.machine.phase.Starting? {
        var awaited := FailedStart(c.machine.phase.epoch, c.machine.phase.scope);
        if awaited in c.life.failures && awaited != f {
          RemoveOne(c.life.failures, i, awaited);
        }
      }
      assert Awaits(d.(machine := step.0), step.1);
      ExecuteAwaits(d.(machine := step.0), step.1, None, env);
    }
  }

  lemma TakesJobAwaits(c: Coordinator, succeeds: bool)
    requires Awaits(c, [])
    ensures Awaits(WithLife(c, TakeJob(c.life, succeeds)), [])
  {
    if c.life.queue != [] {
      assert c.life.queue == [c.life.queue[0]] + c.life.queue[1..];
    }
  }

  lemma DelegateAwaits(c: Coordinator, event: Event, env: Env)
    requires Awaits(c, [])
    requires event.DecidePolicy? || event.RendererDied? || event.Reload?
    ensures Awaits(Step(c, event, env), [])
  {
    match event {
      case DecidePolicy(_, request, classified) => EnqueueAwaits(c, Navigation(request, Routed(c.nav.ready, classified)), env);
      case RendererDied(_) =>
        var d := WithNav(Reset(c), RetainLast(DiscardUnsafe(c.nav)));
        CallAwaits(d, CallRendererTerminated(PendingScope(d.nav)), env);
      case Reload =>
        if c.nav.last.Some? {
          EnqueueAwaits(c, c.nav.last.value, env);
        }
    }
  }

  lemma DestroyAwaits(c: Coordinator, env: Env)
    requires Awaits(c, [])
    ensures Awaits(DoDestroy(c, env), [])
  {
    CallAwaits(WithNav(Reset(c), c.nav.(destroyed := true, pending := None, last := None)), CallDestroy, env);
  }

  lemma StepAwaits(c: Coordinator, event: Event, env: Env)
    requires Awaits(c, []) && Consistent(c.machine)
    ensures Awaits(Step(c, event, env), [])
  {
    match event {
      case Navigate(navigation) => EnqueueAwaits(c, navigation, env);
      case UpdateAuthority(ready) => UpdateAuthorityAwaits(c, ready, env);
      case SuspendBrowsing => DoSuspendAwaits(c, env);
      case DestroyCoordinator => DestroyAwaits(c, env);
      case DecidePolicy(_, _, _) => DelegateAwaits(c, event, env);
      case RendererDied(_) => DelegateAwaits(c, event, env);
      case Reload => DelegateAwaits(c, event, env);
      case SafePointReached(i) =>
        if i < |c.nav.tasks| {
          RotateAwaits(c, c.nav.tasks[i], env);
        }
      case StartDelivered => StartedAwaits(c, env);
      case FailureDelivered(i) => StartFailedAwaits(c, i, env);
      case JobTaken(succeeds) => TakesJobAwaits(c, succeeds);
      case _ =>
    }
  }

  lemma {:induction false} RunAwaits(events: seq<(Event, Env)>)
    requires Unwrapped(events)
    ensures Awaits(Run(events), [])
    decreases |events|
  {
    if events != [] {
      var place := RunSound(events[..|events| - 1]);
      RunAwaits(events[..|events| - 1]);
      StepAwaits(Run(events[..|events| - 1]), events[|events| - 1].0, events[|events| - 1].1);
    }
  }

  // ---- Letting the outstanding work finish ----

  /** Only the lifecycle queue moves, every start succeeds, and the profile
      accepts the endpoint. */
  predicate OnlyCompletions(event: Event, env: Env) {
    || event == JobTaken(true)
    || event.JobFinished?
    || event.FailureDelivered?
    || (event.StartDelivered? && env.installs)
  }

  predicate Quiet(l: Life) {
    l.worker.Waiting? && l.queue == []
  }

  /** On the way to, or at, Active(target, goal). */
  ghost predicate Settling(c: Coordinator, goal: Scope, target: nat, place: Place) {
    && Sound(c, place)
    && (forall f <- c.life.failures :: f.epoch < c.machine.epoch)
    && match c.machine.phase
       case Starting(epoch, scope) =>
         && c.machine.pendingScope == Some(goal)
         && Outstanding(c.life, epoch, scope)
         && target == epoch + if scope == goal then 0 else 1
       case Active(epoch, scope) => scope == goal && target == epoch
       case _ => false
  }

  lemma {:induction false} QueuedAbove(queue: seq<Job>, low: nat, high: nat, epoch: nat, scope: Scope)
    requires Increasing(queue, low, high) && Start(epoch, scope) in queue
    ensures low < epoch
    decreases |queue|
  {
    if queue[0] != Start(epoch, scope) {
      assert queue == [queue[0]] + queue[1..];
      QueuedAbove(queue[1..], queue[0].epoch, high, epoch, scope);
    }
  }

  lemma StartedSettles(c: Coordinator, env: Env, goal: Scope, target: nat, place: Place) returns (place': Place)
    requires Settling(c, goal, target, place) && env.installs && target < MAX_EPOCH
    ensures Settling(DeliverStarted(c, env), goal, target, place')
  {
    place' := StartedSound(c, env, place);
    if c.life.worker.Created? {
      var Created(epoch, scope, session) := c.life.worker;
      var phase := c.machine.phase;
      if Start(phase.epoch, phase.scope) in c.life.queue {
        QueuedAbove(c.life.queue, epoch, c.machine.epoch, phase.epoch, phase.scope);
      }
      var step := ProxyStarted(c.machine, epoch, scope, true);
      var d := Coordinator(step.0, c.life.(worker := Delivered(session, false)), c.nav, c.recovery);
      Execute1(d, step.1[0], Some(session), env);
      assert step.1 == [step.1[0]];
    }
  }

  lemma JobTakenSettles(c: Coordinator, goal: Scope, target: nat, place: Place) returns (place': Place)
    requires Settling(c, goal, target, place)
    ensures Settling(WithLife(c, TakeJob(c.life, true)), goal, target, place')
  {
    place' := JobTakenSound(c, true, place);
    if c.life.queue != [] {
      assert c.life.queue == [c.life.queue[0]] + c.life.queue[1..];
    }
  }

  lemma JobFinishedSettles(c: Coordinator, goal: Scope, target: nat, place: Place) returns (place': Place)
    requires Settling(c, goal, target, place)
    ensures Settling(WithLife(c, FinishJob(c.life)), goal, target, place')
  {
    place' := FinishesJob(c.machine, c.life, place);
  }

  /** Only starts that are no longer waited for have failed. */
  lemma FailureSettles(c: Coordinator, i: nat, env: Env, goal: Scope, target: nat, place: Place)
    requires Settling(c, goal, target, place)
    ensures Settling(DeliverFailed(c, i, env), goal, target, place)
    ensures DeliverFailed(c, i, env).machine == c.machine
    ensures i < |c.life.failures| ==>
              DeliverFailed(c, i, env).life == c.life.(failures := c.life.failures[..i] + c.life.failures[i + 1..])
  {
    if i < |c.life.failures| {
      assert c.life.failures[i] in c.life.failures;
    }
  }

  lemma CompletionSettles(c: Coordinator, event: Event, env: Env, goal: Scope, target: nat, place: Place) returns (place': Place)
    requires Settling(c, goal, target, place) && OnlyCompletions(event, env) && target < MAX_EPOCH
    ensures Settling(Step(c, event, env), goal, target, place')
  {
    match event {
      case JobTaken(_) => place' := JobTakenSettles(c, goal, target, place);
      case JobFinished => place' := JobFinishedSettles(c, goal, target, place);
      case FailureDelivered(i) =>
        place' := place;
        FailureSettles(c, i, env, goal, target, place);
      case StartDelivered => place' := StartedSettles(c, env, goal, target, place);
    }
  }

  function After(c: Coordinator, schedule: seq<(Event, Env)>): Coordinator {
    if schedule == [] then c
    else Step(After(c, schedule[..|schedule| - 1]), schedule[|schedule| - 1].0, schedule[|schedule| - 1].1)
  }

  lemma {:induction false} ScheduleSettles(c: Coordinator, schedule: seq<(Event, Env)>, goal: Scope, target: nat, place: Place)
    returns (place': Place)
    requires Settling(c, goal, target, place) && target < MAX_EPOCH
    requires forall step <- schedule :: OnlyCompletions(step.0, step.1)
    ensures Settling(After(c, schedule), goal, target, place')
    decreases |schedule|
  {
    place' := place;
    if schedule != [] {
      var last := schedule[|schedule| - 1];
      assert last in schedule;
      place' := ScheduleSettles(c, schedule[..|schedule| - 1], goal, target, place);
      place' := CompletionSettles(After(c, schedule[..|schedule| - 1]), last.0, last.1, goal, target, place');
    }
  }

  /** Where a starting machine is heading: its pending scope, under this start's
      epoch or the next one. */
  function Target(m: Machine): nat
    requires m.phase.Starting?
  {
    m.phase.epoch + if m.pendingScope == Some(m.phase.scope) then 0 else 1
  }

  /** No failure of the newest start is still to be reported. */
  predicate NewestStartLives(c: Coordinator) {
    c.machine.phase.Starting? && forall f <- c.life.failures :: f.epoch < c.machine.epoch
  }

  lemma StartingSettles(events: seq<(Event, Env)>) returns (place: Place)
    requires Unwrapped(events) && NewestStartLives(Run(events))
    ensures var m := Run(events).machine;
            m.pendingScope.Some? && Settling(Run(events), m.pendingScope.value, Target(m), place)
  {
    place := RunSound(events);
    RunAwaits(events);
  }

  /** However the outstanding jobs and callbacks are scheduled: when nothing is
      left to do, the machine is active on the pending scope, after one extra start
      if that scope changed while starting and none otherwise. */
  lemma SettlesOnPendingScope(events: seq<(Event, Env)>, schedule: seq<(Event, Env)>)
    requires Unwrapped(events) && Run(events).machine.epoch < MAX_EPOCH - 1
    requires NewestStartLives(Run(events))
    requires forall step <- schedule :: OnlyCompletions(step.0, step.1)
    ensures var m := Run(events).machine;
            var end := After(Run(events), schedule);
            && m.pendingScope.Some?
            && end.machine.epoch <= Target(m)
            && (Quiet(end.life) ==> end.machine.phase == Active(Target(m), m.pendingScope.value))
  {
    var c := Run(events);
    var place := StartingSettles(events);
    place := ScheduleSettles(c, schedule, c.machine.pendingScope.value, Target(c.machine), place);
  }

  // ---- The work does finish ----

  /** The event does a piece of the outstanding work. */
  predicate Proceeds(c: Coordinator, event: Event, env: Env) {
    && OnlyCompletions(event, env)
    && match event
       case JobTaken(_) => c.life.worker.Waiting? && c.life.queue != []
       case StartDelivered => c.life.worker.Created?
       case JobFinished => c.life.worker.Delivered?
       case FailureDelivered(i) => i < |c.life.failures|
       case _ => false
  }

  /** From c on, only events that do some work. */
  ghost predicate OnlyProceeds(c: Coordinator, schedule: seq<(Event, Env)>) {
    schedule != [] ==>
      var before, last := schedule[..|schedule| - 1], schedule[|schedule| - 1];
      OnlyProceeds(c, before) && Proceeds(After(c, before), last.0, last.1)
  }

  /** Steps left for the current job. */
  function WorkerSteps(worker: Worker): nat {
    match worker
    case Waiting => 0
    case Created(_, _, _) => 2
    case Delivered(_, _) => 1
  }

  /** Steps left: three per queued job, those of the current one, one per failure
      to report, and three for the extra start. */
  function Work(c: Coordinator, target: nat): int {
    3 * |c.life.queue| + WorkerSteps(c.life.worker) + |c.life.failures| + 3 * (target - c.machine.epoch)
  }

  /** Steps that suffice for all outstanding work, one extra start included. */
  function Enough(l: Life): nat {
    3 * |l.queue| + |l.failures| + 5
  }

  /** Nothing can be done, and the machine is active where it was heading. */
  predicate Settled(c: Coordinator, goal: Scope, target: nat) {
    Quiet(c.life) && c.life.failures == [] && c.machine.phase == Active(target, goal)
  }

  lemma StartedWorks(c: Coordinator, env: Env, goal: Scope, target: nat, place: Place)
    requires Settling(c, goal, target, place) && env.installs && target < MAX_EPOCH && c.life.worker.Created?
    ensures Work(DeliverStarted(c, env), target) == Work(c, target) - 1
  {
    var Created(epoch, scope, session) := c.life.worker;
    var phase := c.machine.phase;
    if Start(phase.epoch, phase.scope) in c.life.queue {
      QueuedAbove(c.life.queue, epoch, c.machine.epoch, phase.epoch, phase.scope);
    }
    var step := ProxyStarted(c.machine, epoch, scope, true);
    var d := Coordinator(step.0, c.life.(worker := Delivered(session, false)), c.nav, c.recovery);
    Execute1(d, step.1[0], Some(session), env);
    assert step.1 == [step.1[0]];
  }

  lemma PieceWorks(c: Coordinator, event: Event, env: Env, goal: Scope, target: nat, place: Place)
    requires Settling(c, goal, target, place) && target < MAX_EPOCH && Proceeds(c, event, env)
    ensures Work(Step(c, event, env), target) < Work(c, target)
  {
    match event {
      case StartDelivered => StartedWorks(c, env, goal, target, place);
      case FailureDelivered(i) => FailureSettles(c, i, env, goal, target, place);
      case JobTaken(_) =>
      case JobFinished =>
    }
  }

  lemma WorkIsLeft(c: Coordinator, goal: Scope, target: nat, place: Place)
    requires Settling(c, goal, target, place)
    ensures Work(c, target) >= 0
  {
  }

  lemma {:induction false} ScheduleWorks(c: Coordinator, schedule: seq<(Event, Env)>, goal: Scope, target: nat, place: Place)
    returns (place': Place)
    requires Settling(c, goal, target, place) && target < MAX_EPOCH && OnlyProceeds(c, schedule)
    ensures Settling(After(c, schedule), goal, target, place')
    ensures |schedule| + Work(After(c, schedule), target) <= Work(c, target)
    decreases |schedule|
  {
    place' := place;
    if schedule != [] {
      var before, last := schedule[..|schedule| - 1], schedule[|schedule| - 1];
      place' := ScheduleWorks(c, before, goal, target, place);
      PieceWorks(After(c, before), last.0, last.1, goal, target, place');
      place' := CompletionSettles(After(c, before), last.0, last.1, goal, target, place');
    }
  }

  /** A piece of work that can be done next, when something is left. */
  function Next(l: Life): Event {
    match l.worker
    case Waiting => if l.queue != [] then JobTaken(true) else FailureDelivered(0)
    case Created(_, _, _) => StartDelivered
    case Delivered(_, _) => JobFinished
  }

  lemma NothingLeft(c: Coordinator, env: Env, goal: Scope, target: nat, place: Place)
    requires Settling(c, goal, target, place) && env.installs && !Proceeds(c, Next(c.life), env)
    ensures Settled(c, goal, target)
  {
  }

  lemma {:induction false} SettlesFrom(c: Coordinator, schedule: seq<(Event, Env)>, env: Env, goal: Scope, target: nat, place: Place)
    returns (longer: seq<(Event, Env)>)
    requires Settling(c, goal, target, place) && target < MAX_EPOCH && env.installs && OnlyProceeds(c, schedule)
    ensures schedule <= longer && OnlyProceeds(c, longer) && Settled(After(c, longer), goal, target)
    decreases Work(c, target) - |schedule|
  {
    var now := After(c, schedule);
    var next := (Next(now.life), env);
    var place' := ScheduleWorks(c, schedule, goal, target, place);
    WorkIsLeft(now, goal, target, place');
    if Proceeds(now, next.0, env) {
      DropLast(schedule, next);
      PieceWorks(now, next.0, env, goal, target, place');
      place' := CompletionSettles(now, next.0, env, goal, target, place');
      WorkIsLeft(Step(now, next.0, env), goal, target, place');
      longer := SettlesFrom(c, schedule + [next], env, goal, target, place);
    } else {
      longer := schedule;
      NothingLeft(now, env, goal, target, place');
    }
  }

  /** Every schedule of the outstanding work is bounded by it: three steps a queued
      job, one a failure, and five more. One that cannot be continued has settled on
      the scope that was pending, and every one can be continued until it has. */
  lemma AlwaysSettles(events: seq<(Event, Env)>, schedule: seq<(Event, Env)>, env: Env) returns (longer: seq<(Event, Env)>)
    requires Unwrapped(events) && Run(events).machine.epoch < MAX_EPOCH - 1
    requires NewestStartLives(Run(events)) && OnlyProceeds(Run(events), schedule)
    requires env.installs
    ensures var c := Run(events);
            var target := Target(c.machine);
            && c.machine.pendingScope.Some?
            && |schedule| <= Enough(c.life)
            && ((forall event, answer :: !Proceeds(After(c, schedule), event, answer)) ==>
                  Settled(After(c, schedule), c.machine.pendingScope.value, target))
            && schedule <= longer && OnlyProceeds(c, longer) && |longer| <= Enough(c.life)
            && Settled(After(c, longer), c.machine.pendingScope.value, target)
  {
    var c := Run(events);
    var place := StartingSettles(events);
    var goal, target := c.machine.pendingScope.value, Target(c.machine);
    longer := SettlesFrom(c, schedule, env, goal, target, place);
    var end := ScheduleWorks(c, longer, goal, target, place);
    WorkIsLeft(After(c, longer), goal, target, end);
    end := ScheduleWorks(c, schedule, goal, target, place);
    WorkIsLeft(After(c, schedule), goal, target, end);
    if !Proceeds(After(c, schedule), Next(After(c, schedule).life), env) {
      NothingLeft(After(c, schedule), env, goal, target, end);
    }
  }
}
