/** The process comes to rest: with no new calls, going on after callbacks, running
    jobs and delivering results ends within the outstanding work, in any order. */
module ProcessProgress {
  import opened Wrappers
  import opened Sequences
  import opened Sums
  import opened ProcessLifecycle
  import opened ProcessCallbacks

  // ---- Outstanding work ----

  /** A build is run and its result delivered, which may queue one closing. */
  function JobWork(): Job -> nat {
    (job: Job) => match job
      case BuildForPreparation(_) => 3
      case BuildForSwitch(_, _, _, _) => 3
      case SyncOnce(_) => 5
      case CloseRuntime(_) => 1
  }

  /** The end of a synchronization has three phases besides its callbacks. */
  function PostedWork(): Posted -> nat {
    (posted: Posted) => if posted.Synced? then 4 else 2
  }

  /** One step for each callback and one to end; the end of close may queue a closing. */
  function CallWork(): Call -> nat {
    (call: Call) => match call
      case StartingSync(_) => 6
      case Reporting(rest, _) => |rest| + 1
      case Closing(rest) => |rest| + 2
  }

  function FinishingWork(finishing: Finishing): nat {
    match finishing
    case NotFinishing => 0
    case Draining(tickets, _) => |tickets| + 3
    case Observing(callbacks) => |callbacks| + 2
    case Completing(callbacks) => |callbacks| + 1
  }

  function PhaseWork(phase: Phase): nat {
    if phase.Preparing? then |phase.callbacks| + 1 else 0
  }

  function Work(s: System): nat {
    PhaseWork(s.process.phase) + |s.process.completions| + |s.process.safePoints| + FinishingWork(s.finishing)
    + Sum(s.calls, CallWork()) + Sum(s.queue, JobWork()) + Sum(s.posted, PostedWork())
  }

  /** The event does some of it. */
  predicate Proceeds(s: System, event: Event) {
    match event
    case CallbackReturned => !MainIdle(s)
    case JobRun(_) => s.queue != []
    case ResultDelivered(i) => MainIdle(s) && i < |s.posted|
    case _ => false
  }

  // ---- Every such event does some work ----

  lemma EnqueuedWork(s: System, job: Job)
    ensures Work(Enqueued(s, job)) == Work(s) + JobWork()(job)
  {
    SumAppend(s.queue, job, JobWork());
  }

  lemma PushedWork(s: System, call: Call)
    ensures Work(Pushed(s, call)) == Work(s) + CallWork()(call)
  {
    SumAppend(s.calls, call, CallWork());
  }

  lemma PoppedWork(s: System)
    requires s.calls != []
    ensures Work(Popped(s)) == Work(s) - CallWork()(s.calls[|s.calls| - 1])
  {
    SplitLast(s.calls);
    SumAppend(Popped(s).calls, s.calls[|s.calls| - 1], CallWork());
  }

  lemma EndCloseWork(s: System)
    ensures Work(EndClose(s)) <= Work(s) + 1
  {
    if s.process.phase.Ready? || s.process.phase.Switching? {
      EnqueuedWork(InPhase(s, Closed), CloseRuntime(s.process.phase.runtime));
    }
  }

  lemma FireWork(s: System, callback: Callback, call: Call)
    ensures Work(Pushed(Fired(s, callback), call)) == Work(s) + CallWork()(call)
  {
    PushedWork(Fired(s, callback), call);
  }

  lemma ProceedCallWorks(s: System)
    requires s.calls != []
    ensures Work(ProceedCall(s)) < Work(s)
  {
    PoppedWork(s);
    match s.calls[|s.calls| - 1]
    case StartingSync(runtime) => EnqueuedWork(Popped(s), SyncOnce(runtime));
    case Reporting(rest, succeeded) =>
      if rest != [] {
        FireWork(Popped(s), rest[0], Reporting(rest[1..], succeeded));
      }
    case Closing(rest) =>
      if rest == [] {
        EndCloseWork(Popped(s));
      } else {
        FireWork(Popped(s), rest[0], Closing(rest[1..]));
      }
  }

  /** Only the parts of finishSync count. */
  lemma SameSums(s: System, t: System)
    requires s.calls == t.calls && s.queue == t.queue && s.posted == t.posted && s.process.phase == t.process.phase
    requires s.process.safePoints == t.process.safePoints
    ensures Work(t) - Work(s) == |t.process.completions| + FinishingWork(t.finishing)
                               - |s.process.completions| - FinishingWork(s.finishing)
  {
  }

  lemma ProceedFinishingWorks(s: System)
    requires !s.finishing.NotFinishing?
    ensures Work(ProceedFinishing(s)) < Work(s)
  {
    SameSums(s, ProceedFinishing(s));
  }

  lemma RunJobWorks(s: System, outcome: BuildOutcome)
    requires s.queue != []
    ensures Work(RunJob(s, outcome)) < Work(s)
  {
    if !s.queue[0].CloseRuntime? {
      SumAppend(s.posted, RunJob(s, outcome).posted[|s.posted|], PostedWork());
    }
  }

  lemma DiscardedWork(s: System, result: Option<nat>)
    ensures Work(Discarded(s, result)) <= Work(s) + 1
  {
    if result.Some? {
      EnqueuedWork(s, CloseRuntime(result.value));
    }
  }

  lemma FinishPreparationWork(s: System, result: Option<nat>)
    ensures Work(FinishPreparation(s, result)) <= Work(s) + 1
  {
    DiscardedWork(s, result);
    if s.process.phase.Preparing? {
      PushedWork(InPhase(s, if result.Some? then Ready(result.value) else Failed),
                 Reporting(s.process.phase.callbacks, result.Some?));
    }
  }

  lemma FinishSwitchWork(s: System, previous: nat, network: Network, generation: nat, callback: Callback, result: Option<nat>)
    ensures Work(FinishSwitch(s, previous, network, generation, callback, result)) <= Work(s) + 1
  {
    DiscardedWork(s, result);
    if result.Some? {
      var ended := SwitchEnded(s, previous, network, result);
      EnqueuedWork(ended.(queue := s.queue), CloseRuntime(previous));
    }
  }

  lemma DeliverWorks(s: System, i: nat)
    requires MainIdle(s) && i < |s.posted|
    ensures Work(Deliver(s, i)) < Work(s)
  {
    var rest := s.(posted := s.posted[..i] + s.posted[i + 1..]);
    SumRemove(s.posted, i, PostedWork());
    match s.posted[i]
    case Prepared(_, result) => FinishPreparationWork(rest, result);
    case Switched(previous, network, generation, completion, result) =>
      FinishSwitchWork(rest, previous, network, generation, completion, result);
    case Synced =>
  }

  lemma StepWorks(s: System, event: Event)
    requires Proceeds(s, event)
    ensures Work(Step(s, event)) < Work(s)
  {
    match event
    case CallbackReturned =>
      if s.calls != [] {
        ProceedCallWorks(s);
      } else {
        ProceedFinishingWorks(s);
      }
    case JobRun(outcome) => RunJobWorks(s, outcome);
    case ResultDelivered(i) => DeliverWorks(s, i);
  }

  // ---- Schedules ----

  /** From s on, only events that do some work. */
  ghost predicate OnlyProceeds(s: System, schedule: seq<Event>) {
    schedule != [] ==>
      && OnlyProceeds(s, schedule[..|schedule| - 1])
      && Proceeds(Onward(s, schedule[..|schedule| - 1]), schedule[|schedule| - 1])
  }

  lemma {:induction false} ScheduleWorks(s: System, schedule: seq<Event>)
    requires OnlyProceeds(s, schedule)
    ensures |schedule| + Work(Onward(s, schedule)) <= Work(s)
    decreases |schedule|
  {
    if schedule != [] {
      ScheduleWorks(s, schedule[..|schedule| - 1]);
      StepWorks(Onward(s, schedule[..|schedule| - 1]), schedule[|schedule| - 1]);
    }
  }

  /** What can be done next; a build may turn out in any way. */
  function Next(s: System, outcome: BuildOutcome): Event {
    if !MainIdle(s) then CallbackReturned else if s.queue != [] then JobRun(outcome) else ResultDelivered(0)
  }

  lemma {:induction false} RestFrom(s: System, schedule: seq<Event>, outcome: BuildOutcome) returns (longer: seq<Event>)
    requires OnlyProceeds(s, schedule)
    ensures schedule <= longer && OnlyProceeds(s, longer) && AtRest(Onward(s, longer))
    decreases Work(Onward(s, schedule))
  {
    var now := Onward(s, schedule);
    if AtRest(now) {
      longer := schedule;
    } else {
      var next := Next(now, outcome);
      DropLast(schedule, next);
      StepWorks(now, next);
      longer := RestFrom(s, schedule + [next], outcome);
    }
  }

  // ---- Main results ----

  /** After any run, with no new calls: every schedule of the outstanding work is at
      most as long as that work; one that cannot be continued has come to rest; and
      every one can be continued until it has, however builds turn out. */
  lemma ComesToRest(network: Network, events: seq<Event>, schedule: seq<Event>, outcome: BuildOutcome)
    returns (longer: seq<Event>)
    requires OnlyProceeds(Run(network, events), schedule)
    ensures |schedule| <= Work(Run(network, events))
    ensures (forall event :: !Proceeds(Run(network, events + schedule), event)) ==> AtRest(Run(network, events + schedule))
    ensures schedule <= longer && OnlyProceeds(Run(network, events), longer)
    ensures |longer| <= Work(Run(network, events)) && AtRest(Run(network, events + longer))
  {
    var s := Run(network, events);
    ScheduleWorks(s, schedule);
    RunOnward(network, events, schedule);
    var end := Run(network, events + schedule);
    if !AtRest(end) {
      assert Proceeds(end, Next(end, outcome));
    }
    longer := RestFrom(s, schedule, outcome);
    ScheduleWorks(s, longer);
    RunOnward(network, events, longer);
  }

  /** So every completion handed over in a run is run exactly once for each time, as
      soon as the outstanding work is done, unless it waited for a preparation that
      close cut off. */
  lemma EveryCompletionRuns(network: Network, events: seq<Event>, schedule: seq<Event>, c: Callback)
    requires OnlyProceeds(Run(network, events), schedule)
    requires forall event :: !Proceeds(Run(network, events + schedule), event)
    ensures var log := Run(network, events + schedule).log;
            && |schedule| <= Work(Run(network, events))
            && Times(log.fired, c) + Times(log.dropped, c) == Times(log.asked, c)
            && Times(log.asked, c) == Times(Run(network, events).log.asked, c)
            && (!Joins(c) ==> Times(log.fired, c) == Times(log.asked, c))
  {
    var longer := ComesToRest(network, events, schedule, NotBuilt);
    CompletionsRunExactlyOnce(network, events + schedule, c);
    RunOnward(network, events, schedule);
    AsksNothing(Run(network, events), schedule);
  }

  lemma {:induction false} AsksNothing(s: System, schedule: seq<Event>)
    requires OnlyProceeds(s, schedule)
    ensures Onward(s, schedule).log.asked == s.log.asked
    decreases |schedule|
  {
    if schedule != [] {
      AsksNothing(s, schedule[..|schedule| - 1]);
      StepAsksNothing(Onward(s, schedule[..|schedule| - 1]), schedule[|schedule| - 1]);
    }
  }

  lemma StepAsksNothing(s: System, event: Event)
    requires Proceeds(s, event)
    ensures Step(s, event).log.asked == s.log.asked
  {
  }
}
