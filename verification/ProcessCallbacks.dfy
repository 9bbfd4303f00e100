/** Completions: each one handed over is run exactly once, or was waiting for a
    preparation when the process was closed; one synchronization at a time. */
module ProcessCallbacks {
  import opened Wrappers
  import opened Sequences
  import opened Sums
  import opened ProcessLifecycle
  import ProcessOwnershipSteps

  // ---- Where a completion can wait ----

  function One(callback: Callback, c: Callback): nat {
    if callback == c then 1 else 0
  }

  function Times(callbacks: seq<Callback>, c: Callback): nat {
    multiset(callbacks)[c]
  }

  function InCall(c: Callback): Call -> nat {
    (call: Call) => if call.StartingSync? then 0 else Times(call.rest, c)
  }

  function InJob(c: Callback): Job -> nat {
    (job: Job) => if job.BuildForSwitch? then One(job.completion, c) else 0
  }

  function InPosted(c: Callback): Posted -> nat {
    (posted: Posted) => if posted.Switched? then One(posted.completion, c) else 0
  }

  function InFinishing(finishing: Finishing, c: Callback): nat {
    match finishing
    case Observing(callbacks) => Times(callbacks, c)
    case Completing(callbacks) => Times(callbacks, c)
    case _ => 0
  }

  function InPhaseOf(phase: Phase, c: Callback): nat {
    if phase.Preparing? then Times(phase.callbacks, c) else 0
  }

  /** How often c is still to be run. */
  function Waiting(s: System, c: Callback): nat {
    InPhaseOf(s.process.phase, c) + Times(s.process.completions, c) + InFinishing(s.finishing, c)
    + Sum(s.calls, InCall(c)) + Sum(s.queue, InJob(c)) + Sum(s.posted, InPosted(c))
  }

  /** Requests for c that are not accounted for. */
  function Balance(s: System, c: Callback): int {
    Times(s.log.asked, c) - Times(s.log.fired, c) - Times(s.log.dropped, c) - Waiting(s, c)
  }

  // ---- Small operations ----

  lemma AskedBalance(s: System, callback: Callback, c: Callback)
    ensures Balance(Asked(s, callback), c) == Balance(s, c) + One(callback, c)
  {
  }

  lemma FiredBalance(s: System, callback: Callback, c: Callback)
    ensures Balance(Fired(s, callback), c) == Balance(s, c) - One(callback, c)
  {
  }

  lemma EnqueuedBalance(s: System, job: Job, c: Callback)
    ensures Balance(Enqueued(s, job), c) == Balance(s, c) - InJob(c)(job)
  {
    SumAppend(s.queue, job, InJob(c));
  }

  lemma PushedBalance(s: System, call: Call, c: Callback)
    ensures Balance(Pushed(s, call), c) == Balance(s, c) - InCall(c)(call)
  {
    SumAppend(s.calls, call, InCall(c));
  }

  lemma PoppedBalance(s: System, c: Callback)
    requires s.calls != []
    ensures Balance(Popped(s), c) == Balance(s, c) + InCall(c)(s.calls[|s.calls| - 1])
  {
    SplitLast(s.calls);
    SumAppend(Popped(s).calls, s.calls[|s.calls| - 1], InCall(c));
  }

  lemma PostBalance(s: System, posted: Posted, c: Callback)
    ensures Balance(Post(s, posted), c) == Balance(s, c) - InPosted(c)(posted)
  {
    SumAppend(s.posted, posted, InPosted(c));
  }

  lemma HeadTimes(callbacks: seq<Callback>, c: Callback)
    requires callbacks != []
    ensures Times(callbacks, c) == One(callbacks[0], c) + Times(callbacks[1..], c)
  {
    assert callbacks == [callbacks[0]] + callbacks[1..];
  }

  lemma AppendTimes(a: seq<Callback>, b: seq<Callback>, c: Callback)
    ensures Times(a + b, c) == Times(a, c) + Times(b, c)
  {
  }

  lemma InPhaseBalance(s: System, phase: Phase, c: Callback)
    ensures Balance(InPhase(s, phase), c) == Balance(s, c) + InPhaseOf(s.process.phase, c) - InPhaseOf(phase, c)
  {
  }

  lemma FinishingBalance(s: System, finishing: Finishing, c: Callback)
    ensures Balance(s.(finishing := finishing), c) == Balance(s, c) + InFinishing(s.finishing, c) - InFinishing(finishing, c)
  {
  }

  lemma TakenBalance(s: System, c: Callback)
    ensures Balance(s.(process := s.process.(completions := [])), c) == Balance(s, c) + Times(s.process.completions, c)
  {
  }

  lemma DroppedBalance(s: System, callbacks: seq<Callback>, c: Callback)
    ensures Balance(s.(log := s.log.(dropped := s.log.dropped + callbacks)), c) == Balance(s, c) - Times(callbacks, c)
  {
    AppendTimes(s.log.dropped, callbacks, c);
  }

  /** What the balance depends on. */
  predicate SameBooks(s: System, t: System) {
    && (s.process.phase == t.process.phase || (!s.process.phase.Preparing? && !t.process.phase.Preparing?))
    && s.process.completions == t.process.completions && s.finishing == t.finishing
    && s.calls == t.calls && s.queue == t.queue && s.posted == t.posted
    && s.log.asked == t.log.asked && s.log.fired == t.log.fired && s.log.dropped == t.log.dropped
  }

  lemma SameBalance(s: System, t: System, c: Callback)
    requires SameBooks(s, t)
    ensures Balance(s, c) == Balance(t, c)
  {
  }

  lemma DiscardedBalance(s: System, result: Option<nat>, c: Callback)
    ensures Balance(Discarded(s, result), c) == Balance(s, c)
  {
    if result.Some? {
      EnqueuedBalance(s, CloseRuntime(result.value), c);
    }
  }

  // ---- Each operation ----

  lemma FinishPreparationBalance(s: System, result: Option<nat>, c: Callback)
    ensures Balance(FinishPreparation(s, result), c) == Balance(s, c)
  {
    if s.process.phase.Preparing? {
      var phase := if result.Some? then Ready(result.value) else Failed;
      InPhaseBalance(s, phase, c);
      PushedBalance(InPhase(s, phase), Reporting(s.process.phase.callbacks, result.Some?), c);
    } else {
      DiscardedBalance(s, result, c);
    }
  }

  lemma JoinBalance(s: System, callbacks: seq<Callback>, callback: Callback, c: Callback)
    requires InPhaseOf(s.process.phase, c) == Times(callbacks, c)
    ensures Balance(InPhase(s, Preparing(callbacks + [callback])), c) == Balance(s, c) - One(callback, c)
  {
    AppendTimes(callbacks, [callback], c);
    InPhaseBalance(s, Preparing(callbacks + [callback]), c);
  }

  lemma FirstJoinBalance(s: System, callback: Callback, c: Callback)
    requires s.process.phase.Idle? || s.process.phase.Failed?
    ensures Balance(InPhase(s, Preparing([callback])), c) == Balance(s, c) - One(callback, c)
  {
    EmptyEnds([callback]);
    JoinBalance(s, [], callback, c);
  }

  lemma BeginPreparationBalance(s: System, callback: Callback, directory: bool, c: Callback)
    requires s.process.phase.Idle? || s.process.phase.Failed?
    ensures Balance(Prepare(s, callback, directory), c) == Balance(s, c) - One(callback, c)
  {
    var preparing := InPhase(s, Preparing([callback]));
    FirstJoinBalance(s, callback, c);
    if directory {
      EnqueuedBalance(preparing, BuildForPreparation(s.process.network), c);
    } else {
      FinishPreparationBalance(preparing, None, c);
    }
  }

  lemma PrepareBalance(s: System, callback: Callback, directory: bool, c: Callback)
    ensures Balance(Prepare(s, callback, directory), c) == Balance(s, c) - One(callback, c)
  {
    if s.process.phase.Preparing? {
      JoinBalance(s, s.process.phase.callbacks, callback, c);
    } else if s.process.phase.Idle? || s.process.phase.Failed? {
      BeginPreparationBalance(s, callback, directory, c);
    } else {
      FiredBalance(s, callback, c);
    }
  }

  lemma SwitchNetworkBalance(s: System, network: Network, id: nat, directory: bool, c: Callback)
    ensures Balance(SwitchNetwork(s, network, id, directory), c) == Balance(s, c) - One(SwitchCallback(s, network, id), c)
  {
    var p, callback := s.process, SwitchCallback(s, network, id);
    FiredBalance(s, callback, c);
    if !p.switchInFlight && network == p.network {
      PrepareBalance(s, callback, directory, c);
    } else if !p.switchInFlight && p.phase.Ready? && directory {
      var t := SwitchNetwork(s, network, id, directory);
      var q := s.(process := t.process);
      SameBalance(s, q, c);
      EnqueuedBalance(q, BuildForSwitch(p.phase.runtime, network, t.process.switchGeneration, callback), c);
    }
  }

  lemma SwitchEndedBalance(s: System, previous: nat, network: Network, result: Option<nat>, c: Callback)
    requires !s.process.phase.Preparing?
    ensures Balance(SwitchEnded(s, previous, network, result), c) == Balance(s, c)
  {
    var t := SwitchEnded(s, previous, network, result);
    var q := t.(queue := s.queue);
    SameBalance(s, q, c);
    if result.Some? {
      EnqueuedBalance(q, CloseRuntime(previous), c);
    }
  }

  lemma FinishSwitchBalance(s: System, previous: nat, network: Network, generation: nat, callback: Callback, result: Option<nat>, c: Callback)
    ensures Balance(FinishSwitch(s, previous, network, generation, callback, result), c) == Balance(s, c) - One(callback, c)
  {
    var p := s.process;
    if !p.switchInFlight || generation != p.switchGeneration || p.phase != Switching(previous) {
      DiscardedBalance(s, result, c);
      FiredBalance(Discarded(s, result), callback, c);
    } else {
      var ended := SwitchEnded(s, previous, network, result);
      SwitchEndedBalance(s, previous, network, result, c);
      SameBalance(ended, RescheduledIfForeground(ended), c);
      FiredBalance(RescheduledIfForeground(ended), callback, c);
    }
  }

  lemma StartSyncBalance(s: System, runtime: nat, c: Callback)
    ensures Balance(StartSync(s, runtime), c) == Balance(s, c)
  {
    var started := s.(process := s.process.(syncInFlight := true), log := s.log.(syncsStarted := s.log.syncsStarted + 1));
    SameBalance(s, started, c);
    PushedBalance(started, StartingSync(runtime), c);
    EnqueuedBalance(started, SyncOnce(runtime), c);
  }

  lemma SyncNowBalance(s: System, callback: Callback, c: Callback)
    ensures Balance(SyncNow(s, callback), c) == Balance(s, c) - One(callback, c)
  {
    FiredBalance(s, callback, c);
    if s.process.phase.Ready? {
      var waiting := Scheduled(s);
      var w := waiting.(process := waiting.process.(completions := waiting.process.completions + [callback]));
      StartSyncBalance(w, s.process.phase.runtime, c);
    }
  }

  lemma CloseBalance(s: System, c: Callback)
    ensures Balance(Close(s), c) == Balance(s, c)
  {
    var t := Close(s);
    PushedBalance(t.(calls := s.calls), Closing(s.process.completions), c);
  }

  lemma EndCloseBalance(s: System, c: Callback)
    ensures Balance(EndClose(s), c) == Balance(s, c)
  {
    var closed := InPhase(s, Closed);
    InPhaseBalance(s, Closed, c);
    match s.process.phase
    case Ready(runtime) => EnqueuedBalance(closed, CloseRuntime(runtime), c);
    case Switching(runtime) => EnqueuedBalance(closed, CloseRuntime(runtime), c);
    case Preparing(callbacks) => DroppedBalance(closed, callbacks, c);
    case _ =>
  }

  lemma FireHeadBalance(s: System, call: Call, rest: seq<Callback>, c: Callback)
    requires s.calls != [] && rest != [] && !s.calls[|s.calls| - 1].StartingSync? && s.calls[|s.calls| - 1].rest == rest
    requires !call.StartingSync? && call.rest == rest[1..]
    ensures Balance(Pushed(Fired(Popped(s), rest[0]), call), c) == Balance(s, c)
  {
    PoppedBalance(s, c);
    FiredBalance(Popped(s), rest[0], c);
    PushedBalance(Fired(Popped(s), rest[0]), call, c);
    HeadTimes(rest, c);
  }

  lemma ProceedCallBalance(s: System, c: Callback)
    requires s.calls != []
    ensures Balance(ProceedCall(s), c) == Balance(s, c)
  {
    PoppedBalance(s, c);
    match s.calls[|s.calls| - 1]
    case StartingSync(runtime) => EnqueuedBalance(Popped(s), SyncOnce(runtime), c);
    case Reporting(rest, succeeded) =>
      if rest == [] {
        SameBalance(Popped(s), ProceedCall(s), c);
      } else {
        FireHeadBalance(s, Reporting(rest[1..], succeeded), rest, c);
      }
    case Closing(rest) =>
      if rest == [] {
        EndCloseBalance(Popped(s), c);
      } else {
        FireHeadBalance(s, Closing(rest[1..]), rest, c);
      }
  }

  lemma EndDrainBalance(s: System, c: Callback)
    requires s.finishing.Draining? && (s.finishing.tickets == [] || s.process.phase.Closed?)
    ensures Balance(ProceedFinishing(s), c) == Balance(s, c)
  {
    var t, taken := ProceedFinishing(s), s.(process := s.process.(completions := []));
    TakenBalance(s, c);
    FinishingBalance(taken, t.finishing, c);
    SameBalance(taken.(finishing := t.finishing), t, c);
  }

  lemma SafePointBalance(s: System, c: Callback)
    requires s.finishing.Draining? && s.finishing.tickets != [] && !s.process.phase.Closed?
    ensures Balance(ProceedFinishing(s), c) == Balance(s, c)
  {
    var t := ProceedFinishing(s);
    FinishingBalance(s, t.finishing, c);
    SameBalance(s.(finishing := t.finishing), t, c);
  }

  lemma ObservedBalance(s: System, c: Callback)
    requires s.finishing.Observing?
    ensures Balance(ProceedFinishing(s), c) == Balance(s, c)
  {
    var t := ProceedFinishing(s);
    FinishingBalance(s, t.finishing, c);
    SameBalance(s.(finishing := t.finishing), t, c);
  }

  lemma CompletingBalance(s: System, c: Callback)
    requires s.finishing.Completing?
    ensures Balance(ProceedFinishing(s), c) == Balance(s, c)
  {
    var callbacks := s.finishing.callbacks;
    if callbacks == [] {
      FinishingBalance(s, NotFinishing, c);
    } else {
      HeadTimes(callbacks, c);
      FiredBalance(s, callbacks[0], c);
      FinishingBalance(Fired(s, callbacks[0]), Completing(callbacks[1..]), c);
    }
  }

  lemma ProceedFinishingBalance(s: System, c: Callback)
    ensures Balance(ProceedFinishing(s), c) == Balance(s, c)
  {
    match s.finishing
    case NotFinishing =>
    case Draining(tickets, _) =>
      if tickets == [] || s.process.phase.Closed? {
        EndDrainBalance(s, c);
      } else {
        SafePointBalance(s, c);
      }
    case Observing(_) => ObservedBalance(s, c);
    case Completing(_) => CompletingBalance(s, c);
  }

  lemma JobTakenBalance(s: System, c: Callback)
    requires s.queue != []
    ensures Balance(JobTaken(s), c) == Balance(s, c) + InJob(c)(s.queue[0])
  {
  }

  lemma BuildBalance(s: System, network: Network, outcome: BuildOutcome, c: Callback)
    ensures Balance(Build(s, network, outcome).0, c) == Balance(s, c)
  {
    SameBalance(s, Build(s, network, outcome).0, c);
  }

  lemma BuildPostBalance(s: System, network: Network, outcome: BuildOutcome, posted: Posted, c: Callback)
    ensures Balance(Post(Build(s, network, outcome).0, posted), c) == Balance(s, c) - InPosted(c)(posted)
  {
    BuildBalance(s, network, outcome, c);
    PostBalance(Build(s, network, outcome).0, posted, c);
  }

  lemma RunJobBalance(s: System, outcome: BuildOutcome, c: Callback)
    ensures Balance(RunJob(s, outcome), c) == Balance(s, c)
  {
    if s.queue != [] {
      var rest := JobTaken(s);
      JobTakenBalance(s, c);
      match s.queue[0]
      case BuildForPreparation(network) =>
        BuildPostBalance(rest, network, outcome, Prepared(network, Build(rest, network, outcome).1), c);
      case BuildForSwitch(previous, network, generation, completion) =>
        var result := Build(rest, network, outcome).1;
        BuildPostBalance(rest, network, outcome, Switched(previous, network, generation, completion, result), c);
      case SyncOnce(_) => PostBalance(rest, Synced, c);
      case CloseRuntime(runtime) => SameBalance(rest, RunJob(s, outcome), c);
    }
  }

  lemma ResultTakenBalance(s: System, i: nat, c: Callback)
    requires i < |s.posted|
    ensures Balance(ResultTaken(s, i), c) == Balance(s, c) + InPosted(c)(s.posted[i])
  {
    SumRemove(s.posted, i, InPosted(c));
  }

  lemma FinishSyncBalance(s: System, c: Callback)
    requires s.finishing.NotFinishing?
    ensures Balance(FinishSync(s), c) == Balance(s, c)
  {
    var t := FinishSync(s);
    FinishingBalance(s, t.finishing, c);
    SameBalance(s.(finishing := t.finishing), t, c);
  }

  lemma DeliverBalance(s: System, i: nat, c: Callback)
    ensures Balance(Deliver(s, i), c) == Balance(s, c)
  {
    if MainIdle(s) && i < |s.posted| {
      var rest := ResultTaken(s, i);
      ResultTakenBalance(s, i, c);
      match s.posted[i]
      case Prepared(_, result) => FinishPreparationBalance(rest, result, c);
      case Switched(previous, network, generation, completion, result) =>
        FinishSwitchBalance(rest, previous, network, generation, completion, result, c);
      case Synced => FinishSyncBalance(rest, c);
    }
  }

  lemma CallBalance(s: System, event: Event, c: Callback)
    requires event.CallPrepare? || event.CallSwitchNetwork? || event.CallSyncNow?
    ensures Balance(Step(s, event), c) == Balance(s, c)
  {
    match event
    case CallPrepare(id, directory) =>
      AskedBalance(s, OnPrepared(id), c);
      PrepareBalance(Asked(s, OnPrepared(id)), OnPrepared(id), directory, c);
    case CallSwitchNetwork(network, id, directory) =>
      AskedBalance(s, SwitchCallback(s, network, id), c);
      SwitchNetworkBalance(Asked(s, SwitchCallback(s, network, id)), network, id, directory, c);
    case CallSyncNow(id) =>
      AskedBalance(s, OnSynced(id), c);
      SyncNowBalance(Asked(s, OnSynced(id)), OnSynced(id), c);
  }

  lemma StepBalance(s: System, event: Event, c: Callback)
    ensures Balance(Step(s, event), c) == Balance(s, c)
  {
    match event
    case CallPrepare(_, _) => CallBalance(s, event, c);
    case CallSwitchNetwork(_, _, _) => CallBalance(s, event, c);
    case CallSyncNow(_) => CallBalance(s, event, c);
    case CallClose => CloseBalance(s, c);
    case TimerFired(generation) =>
      if s.process.phase.Ready? {
        StartSyncBalance(s, s.process.phase.runtime, c);
      }
    case CallbackReturned =>
      if s.calls != [] {
        ProceedCallBalance(s, c);
      } else {
        ProceedFinishingBalance(s, c);
      }
    case JobRun(outcome) => RunJobBalance(s, outcome, c);
    case ResultDelivered(i) => DeliverBalance(s, i, c);
    case CallPerformAtSafePoint => SameBalance(s, PerformAtSafePoint(s), c);
    case CallResumeForegroundSync => SameBalance(s, Step(s, event), c);
    case CallSuspendForegroundSync => SameBalance(s, Suspended(s), c);
  }

  lemma {:induction false} RunBalance(network: Network, events: seq<Event>, c: Callback)
    ensures Balance(Run(network, events), c) == 0
    decreases |events|
  {
    if events != [] {
      RunBalance(network, events[..|events| - 1], c);
      StepBalance(Run(network, events[..|events| - 1]), events[|events| - 1], c);
    }
  }

  // ---- What is dropped, and when nothing can wait ----

  /** A completion that is handed to a preparation. */
  predicate Joins(callback: Callback) {
    callback.OnPrepared? || (callback.OnSwitched? && callback.joins)
  }

  ghost predicate OnlyJoinersDropped(s: System) {
    && (s.process.phase.Preparing? ==> forall callback <- s.process.phase.callbacks :: Joins(callback))
    && (forall callback <- s.log.dropped :: Joins(callback))
  }

  /** A build for a switch carries the completion of a switch to another network. */
  ghost predicate SwitchesElsewhere(s: System) {
    && (forall job <- s.queue :: job.BuildForSwitch? ==> job.completion.OnSwitched? && !job.completion.joins)
    && (forall posted <- s.posted :: posted.Switched? ==> posted.completion.OnSwitched? && !posted.completion.joins)
  }

  function SyncJobs(): Job -> nat {
    (job: Job) => if job.SyncOnce? then 1 else 0
  }

  function SyncResults(): Posted -> nat {
    (posted: Posted) => if posted.Synced? then 1 else 0
  }

  function SyncCalls(): Call -> nat {
    (call: Call) => if call.StartingSync? then 1 else 0
  }

  /** Synchronizations about to be queued, queued, or not yet reported. */
  function Syncs(s: System): nat {
    Sum(s.calls, SyncCalls()) + Sum(s.queue, SyncJobs()) + Sum(s.posted, SyncResults())
  }

  /** Completions and safe points only wait for a synchronization. */
  predicate WaitForSync(s: System) {
    && (s.process.safePoints != [] ==> s.process.syncInFlight)
    && (s.process.completions != [] ==> s.process.syncInFlight || s.finishing.Draining?)
  }

  /** Synchronizations beyond the one that may be in flight. */
  function Excess(s: System): int {
    Syncs(s) - if s.process.syncInFlight then 1 else 0
  }

  lemma DroppedProceed(s: System)
    requires OnlyJoinersDropped(s)
    ensures OnlyJoinersDropped(Proceed(s))
  {
  }

  lemma DroppedDeliver(s: System, i: nat)
    requires OnlyJoinersDropped(s)
    ensures OnlyJoinersDropped(Deliver(s, i))
  {
  }

  lemma DroppedPrepare(s: System, callback: Callback, directory: bool)
    requires OnlyJoinersDropped(s) && Joins(callback)
    ensures OnlyJoinersDropped(Prepare(s, callback, directory))
  {
  }

  lemma DroppedSwitchNetwork(s: System, network: Network, id: nat, directory: bool)
    requires OnlyJoinersDropped(s)
    ensures OnlyJoinersDropped(SwitchNetwork(s, network, id, directory))
  {
    if SwitchCallback(s, network, id).joins {
      DroppedPrepare(s, SwitchCallback(s, network, id), directory);
    }
  }

  lemma DroppedStep(s: System, event: Event)
    requires OnlyJoinersDropped(s)
    ensures OnlyJoinersDropped(Step(s, event))
  {
    match event
    case CallbackReturned => DroppedProceed(s);
    case ResultDelivered(i) => DroppedDeliver(s, i);
    case CallPrepare(id, directory) => DroppedPrepare(Asked(s, OnPrepared(id)), OnPrepared(id), directory);
    case CallSwitchNetwork(network, id, directory) =>
      DroppedSwitchNetwork(Asked(s, SwitchCallback(s, network, id)), network, id, directory);
    case CallSyncNow(_) =>
    case CallPerformAtSafePoint =>
    case CallResumeForegroundSync =>
    case CallSuspendForegroundSync =>
    case CallClose =>
    case TimerFired(_) =>
    case JobRun(_) =>
  }

  lemma EnqueuedElsewhere(s: System, job: Job)
    requires SwitchesElsewhere(s)
    requires job.BuildForSwitch? ==> job.completion.OnSwitched? && !job.completion.joins
    ensures SwitchesElsewhere(Enqueued(s, job))
  {
  }

  lemma RunJobElsewhere(s: System, outcome: BuildOutcome)
    requires SwitchesElsewhere(s)
    ensures SwitchesElsewhere(RunJob(s, outcome))
  {
  }

  lemma DiscardedElsewhere(s: System, result: Option<nat>)
    requires SwitchesElsewhere(s)
    ensures SwitchesElsewhere(Discarded(s, result))
  {
    if result.Some? {
      EnqueuedElsewhere(s, CloseRuntime(result.value));
    }
  }

  lemma FinishSwitchElsewhere(s: System, previous: nat, network: Network, generation: nat, callback: Callback, result: Option<nat>)
    requires SwitchesElsewhere(s)
    ensures SwitchesElsewhere(FinishSwitch(s, previous, network, generation, callback, result))
  {
    DiscardedElsewhere(s, result);
    var ended := SwitchEnded(s, previous, network, result);
    if result.Some? {
      EnqueuedElsewhere(ended.(queue := s.queue), CloseRuntime(previous));
    }
  }

  lemma ResultTakenElsewhere(s: System, i: nat)
    requires SwitchesElsewhere(s) && i < |s.posted|
    ensures SwitchesElsewhere(ResultTaken(s, i))
  {
  }

  lemma DeliverElsewhere(s: System, i: nat)
    requires SwitchesElsewhere(s)
    ensures SwitchesElsewhere(Deliver(s, i))
  {
    if MainIdle(s) && i < |s.posted| {
      var rest := ResultTaken(s, i);
      ResultTakenElsewhere(s, i);
      match s.posted[i]
      case Prepared(_, result) => DiscardedElsewhere(rest, result);
      case Switched(previous, network, generation, completion, result) =>
        FinishSwitchElsewhere(rest, previous, network, generation, completion, result);
      case Synced =>
    }
  }

  lemma StartSyncElsewhere(s: System, runtime: nat)
    requires SwitchesElsewhere(s)
    ensures SwitchesElsewhere(StartSync(s, runtime))
  {
    EnqueuedElsewhere(s, SyncOnce(runtime));
  }

  lemma PrepareElsewhere(s: System, callback: Callback, directory: bool)
    requires SwitchesElsewhere(s)
    ensures SwitchesElsewhere(Prepare(s, callback, directory))
  {
    EnqueuedElsewhere(s, BuildForPreparation(s.process.network));
  }

  lemma SwitchNetworkElsewhere(s: System, network: Network, id: nat, directory: bool)
    requires SwitchesElsewhere(s)
    ensures SwitchesElsewhere(SwitchNetwork(s, network, id, directory))
  {
    PrepareElsewhere(s, SwitchCallback(s, network, id), directory);
  }

  lemma ProceedElsewhere(s: System)
    requires SwitchesElsewhere(s)
    ensures SwitchesElsewhere(Proceed(s))
  {
    if s.calls != [] {
      var t := ProceedCall(s);
      assert t.posted == s.posted && (t.queue == s.queue || t.queue == s.queue + [t.queue[|s.queue|]]);
    }
  }

  lemma ElsewhereStep(s: System, event: Event)
    requires SwitchesElsewhere(s)
    ensures SwitchesElsewhere(Step(s, event))
  {
    match event
    case JobRun(outcome) => RunJobElsewhere(s, outcome);
    case ResultDelivered(i) => DeliverElsewhere(s, i);
    case CallPrepare(id, directory) => PrepareElsewhere(Asked(s, OnPrepared(id)), OnPrepared(id), directory);
    case CallSwitchNetwork(network, id, directory) =>
      SwitchNetworkElsewhere(Asked(s, SwitchCallback(s, network, id)), network, id, directory);
    case CallSyncNow(id) =>
      if s.process.phase.Ready? {
        var waiting := Scheduled(Asked(s, OnSynced(id)));
        StartSyncElsewhere(waiting.(process := waiting.process.(completions := waiting.process.completions + [OnSynced(id)])),
                           s.process.phase.runtime);
      }
    case TimerFired(_) =>
      if s.process.phase.Ready? {
        StartSyncElsewhere(s, s.process.phase.runtime);
      }
    case CallbackReturned => ProceedElsewhere(s);
    case CallClose =>
    case CallPerformAtSafePoint =>
    case CallResumeForegroundSync =>
    case CallSuspendForegroundSync =>
  }

  lemma WaitProceed(s: System)
    requires WaitForSync(s)
    ensures WaitForSync(Proceed(s))
  {
  }

  lemma WaitDeliver(s: System, i: nat)
    requires WaitForSync(s)
    ensures WaitForSync(Deliver(s, i))
  {
  }

  predicate SameWaits(s: System, t: System) {
    && s.process.safePoints == t.process.safePoints && s.process.completions == t.process.completions
    && s.process.syncInFlight == t.process.syncInFlight && s.finishing == t.finishing
  }

  lemma PreparationsDoNotWait(s: System, callback: Callback, directory: bool)
    ensures SameWaits(s, Prepare(s, callback, directory))
  {
  }

  lemma RunJobDoesNotWait(s: System, outcome: BuildOutcome)
    ensures SameWaits(s, RunJob(s, outcome))
  {
  }

  lemma WaitStep(s: System, event: Event)
    requires WaitForSync(s)
    ensures WaitForSync(Step(s, event))
  {
    match event
    case CallbackReturned => WaitProceed(s);
    case ResultDelivered(i) => WaitDeliver(s, i);
    case JobRun(outcome) => RunJobDoesNotWait(s, outcome);
    case CallPrepare(id, directory) => PreparationsDoNotWait(Asked(s, OnPrepared(id)), OnPrepared(id), directory);
    case CallSwitchNetwork(network, id, directory) =>
      var callback := SwitchCallback(s, network, id);
      PreparationsDoNotWait(Asked(s, callback), callback, directory);
    case _ =>
  }

  predicate SameSyncs(s: System, t: System) {
    s.calls == t.calls && s.queue == t.queue && s.posted == t.posted && s.process.syncInFlight == t.process.syncInFlight
  }

  lemma EnqueuedExcess(s: System, job: Job)
    ensures Excess(Enqueued(s, job)) == Excess(s) + SyncJobs()(job)
  {
    SumAppend(s.queue, job, SyncJobs());
  }

  lemma PushedExcess(s: System, call: Call)
    ensures Excess(Pushed(s, call)) == Excess(s) + SyncCalls()(call)
  {
    SumAppend(s.calls, call, SyncCalls());
  }

  lemma PoppedExcess(s: System)
    requires s.calls != []
    ensures Excess(Popped(s)) == Excess(s) - SyncCalls()(s.calls[|s.calls| - 1])
  {
    SplitLast(s.calls);
    SumAppend(Popped(s).calls, s.calls[|s.calls| - 1], SyncCalls());
  }

  lemma StartSyncExcess(s: System, runtime: nat)
    ensures Excess(StartSync(s, runtime)) == Excess(s)
  {
    var started := s.(process := s.process.(syncInFlight := true), log := s.log.(syncsStarted := s.log.syncsStarted + 1));
    PushedExcess(started, StartingSync(runtime));
    EnqueuedExcess(started, SyncOnce(runtime));
  }

  lemma SameExcess(s: System, t: System)
    requires SameSyncs(s, t)
    ensures Excess(s) == Excess(t)
  {
  }

  lemma DiscardedExcess(s: System, result: Option<nat>)
    ensures Excess(Discarded(s, result)) == Excess(s)
  {
    if result.Some? {
      EnqueuedExcess(s, CloseRuntime(result.value));
    }
  }

  lemma FinishPreparationExcess(s: System, result: Option<nat>)
    ensures Excess(FinishPreparation(s, result)) == Excess(s)
  {
    if s.process.phase.Preparing? {
      var t := InPhase(s, if result.Some? then Ready(result.value) else Failed);
      SameExcess(s, t);
      PushedExcess(t, Reporting(s.process.phase.callbacks, result.Some?));
    } else {
      DiscardedExcess(s, result);
    }
  }

  lemma SwitchEndedExcess(s: System, previous: nat, network: Network, result: Option<nat>)
    ensures Excess(SwitchEnded(s, previous, network, result)) == Excess(s)
  {
    var t := SwitchEnded(s, previous, network, result);
    SameExcess(s, t.(queue := s.queue));
    if result.Some? {
      EnqueuedExcess(t.(queue := s.queue), CloseRuntime(previous));
    }
  }

  lemma FinishSwitchExcess(s: System, previous: nat, network: Network, generation: nat, callback: Callback, result: Option<nat>)
    ensures Excess(FinishSwitch(s, previous, network, generation, callback, result)) == Excess(s)
  {
    var t := FinishSwitch(s, previous, network, generation, callback, result);
    if !s.process.switchInFlight || generation != s.process.switchGeneration || s.process.phase != Switching(previous) {
      DiscardedExcess(s, result);
      SameExcess(Discarded(s, result), t);
    } else {
      SwitchEndedExcess(s, previous, network, result);
      SameExcess(SwitchEnded(s, previous, network, result), t);
    }
  }

  lemma PrepareExcess(s: System, callback: Callback, directory: bool)
    ensures Excess(Prepare(s, callback, directory)) == Excess(s)
  {
    if s.process.phase.Idle? || s.process.phase.Failed? {
      var preparing := InPhase(s, Preparing([callback]));
      SameExcess(s, preparing);
      if directory {
        EnqueuedExcess(preparing, BuildForPreparation(s.process.network));
      } else {
        FinishPreparationExcess(preparing, None);
      }
    } else {
      SameExcess(s, Prepare(s, callback, directory));
    }
  }

  lemma SwitchNetworkExcess(s: System, network: Network, id: nat, directory: bool)
    ensures Excess(SwitchNetwork(s, network, id, directory)) == Excess(s)
  {
    var t := SwitchNetwork(s, network, id, directory);
    PrepareExcess(s, SwitchCallback(s, network, id), directory);
    if |t.queue| > |s.queue| && t.calls == s.calls {
      EnqueuedExcess(s.(process := t.process), t.queue[|s.queue|]);
    }
  }

  lemma EndCloseExcess(s: System)
    ensures Excess(EndClose(s)) == Excess(s)
  {
    var closed := InPhase(s, Closed);
    SameExcess(s, closed);
    match s.process.phase
    case Ready(runtime) => EnqueuedExcess(closed, CloseRuntime(runtime));
    case Switching(runtime) => EnqueuedExcess(closed, CloseRuntime(runtime));
    case _ => SameExcess(s, EndClose(s));
  }

  lemma FireHeadExcess(s: System, callback: Callback, call: Call)
    requires !call.StartingSync?
    ensures Excess(Pushed(Fired(s, callback), call)) == Excess(s)
  {
    SameExcess(s, Fired(s, callback));
    PushedExcess(Fired(s, callback), call);
  }

  lemma ProceedCallExcess(s: System)
    requires s.calls != []
    ensures Excess(ProceedCall(s)) == Excess(s)
  {
    PoppedExcess(s);
    match s.calls[|s.calls| - 1]
    case StartingSync(runtime) => EnqueuedExcess(Popped(s), SyncOnce(runtime));
    case Reporting(rest, succeeded) =>
      if rest == [] {
        SameExcess(Popped(s), ProceedCall(s));
      } else {
        FireHeadExcess(Popped(s), rest[0], Reporting(rest[1..], succeeded));
      }
    case Closing(rest) =>
      if rest == [] {
        EndCloseExcess(Popped(s));
      } else {
        FireHeadExcess(Popped(s), rest[0], Closing(rest[1..]));
      }
  }

  lemma RunJobExcess(s: System, outcome: BuildOutcome)
    ensures Excess(RunJob(s, outcome)) == Excess(s)
  {
    if s.queue != [] && !s.queue[0].CloseRuntime? {
      SumAppend(s.posted, RunJob(s, outcome).posted[|s.posted|], SyncResults());
    }
  }

  lemma ResultTakenExcess(s: System, i: nat)
    requires i < |s.posted|
    ensures Excess(ResultTaken(s, i)) == Excess(s) - SyncResults()(s.posted[i])
  {
    SumRemove(s.posted, i, SyncResults());
  }

  /** The result of a synchronization ends the one in flight. */
  lemma FinishSyncExcess(s: System)
    requires s.process.syncInFlight
    ensures Excess(FinishSync(s)) == Excess(s) + 1
  {
  }

  /** A result of a synchronization is only posted while one is in flight. */
  lemma SyncedInFlight(s: System, i: nat)
    requires Excess(s) == 0 && i < |s.posted| && s.posted[i].Synced?
    ensures s.process.syncInFlight
  {
    SumRemove(s.posted, i, SyncResults());
  }

  lemma DeliverExcess(s: System, i: nat)
    requires Excess(s) == 0
    ensures Excess(Deliver(s, i)) == 0
  {
    if MainIdle(s) && i < |s.posted| {
      var rest := ResultTaken(s, i);
      ResultTakenExcess(s, i);
      match s.posted[i]
      case Prepared(_, result) => FinishPreparationExcess(rest, result);
      case Switched(previous, network, generation, completion, result) =>
        FinishSwitchExcess(rest, previous, network, generation, completion, result);
      case Synced =>
        SyncedInFlight(s, i);
        FinishSyncExcess(rest);
    }
  }

  lemma SyncNowExcess(s: System, callback: Callback)
    ensures Excess(SyncNow(s, callback)) == Excess(s)
  {
    if s.process.phase.Ready? {
      var waiting := Scheduled(s);
      var w := waiting.(process := waiting.process.(completions := waiting.process.completions + [callback]));
      SameExcess(s, w);
      StartSyncExcess(w, s.process.phase.runtime);
    } else {
      SameExcess(s, SyncNow(s, callback));
    }
  }

  lemma ProceedExcess(s: System)
    ensures Excess(Proceed(s)) == Excess(s)
  {
    if s.calls != [] {
      ProceedCallExcess(s);
    } else {
      SameExcess(s, ProceedFinishing(s));
    }
  }

  lemma CloseExcess(s: System)
    ensures Excess(Close(s)) == Excess(s)
  {
    SameExcess(s, Close(s).(calls := s.calls));
    PushedExcess(Close(s).(calls := s.calls), Closing(s.process.completions));
  }

  lemma CallExcess(s: System, event: Event)
    requires event.CallPrepare? || event.CallSwitchNetwork? || event.CallSyncNow?
    ensures Excess(Step(s, event)) == Excess(s)
  {
    match event
    case CallPrepare(id, directory) =>
      SameExcess(s, Asked(s, OnPrepared(id)));
      PrepareExcess(Asked(s, OnPrepared(id)), OnPrepared(id), directory);
    case CallSwitchNetwork(network, id, directory) =>
      SameExcess(s, Asked(s, SwitchCallback(s, network, id)));
      SwitchNetworkExcess(Asked(s, SwitchCallback(s, network, id)), network, id, directory);
    case CallSyncNow(id) =>
      SameExcess(s, Asked(s, OnSynced(id)));
      SyncNowExcess(Asked(s, OnSynced(id)), OnSynced(id));
  }

  lemma SyncStep(s: System, event: Event)
    requires Excess(s) == 0
    ensures Excess(Step(s, event)) == 0
  {
    match event
    case CallPrepare(_, _) => CallExcess(s, event);
    case CallSwitchNetwork(_, _, _) => CallExcess(s, event);
    case CallSyncNow(_) => CallExcess(s, event);
    case CallClose => CloseExcess(s);
    case TimerFired(generation) =>
      if s.process.phase.Ready? {
        StartSyncExcess(s, s.process.phase.runtime);
      }
    case CallbackReturned => ProceedExcess(s);
    case JobRun(outcome) => RunJobExcess(s, outcome);
    case ResultDelivered(i) => DeliverExcess(s, i);
    case CallPerformAtSafePoint => SameExcess(s, PerformAtSafePoint(s));
    case CallResumeForegroundSync => SameExcess(s, Step(s, event));
    case CallSuspendForegroundSync => SameExcess(s, Suspended(s));
  }

  lemma {:induction false} RunBooks(network: Network, events: seq<Event>)
    ensures var s := Run(network, events);
            Excess(s) == 0 && WaitForSync(s) && OnlyJoinersDropped(s) && SwitchesElsewhere(s)
    decreases |events|
  {
    if events != [] {
      var before := Run(network, events[..|events| - 1]);
      RunBooks(network, events[..|events| - 1]);
      SyncStep(before, events[|events| - 1]);
      WaitStep(before, events[|events| - 1]);
      DroppedStep(before, events[|events| - 1]);
      ElsewhereStep(before, events[|events| - 1]);
    }
  }

  // ---- Main results ----

  /** At most one synchronization is on its way at any time, exactly when
      syncInFlight says so; between two main-actor events completions and safe
      points wait only while it is. */
  lemma OneSyncInFlight(network: Network, events: seq<Event>)
    ensures var s := Run(network, events);
            && Syncs(s) == (if s.process.syncInFlight then 1 else 0)
            && (MainIdle(s) && (s.process.completions != [] || s.process.safePoints != []) ==> s.process.syncInFlight)
  {
    RunBooks(network, events);
  }

  /** Every completion handed over is in exactly one place: run, still waiting, or
      dropped.  Only a completion that waited for a preparation is ever dropped: no
      syncNow completion, and of the switch completions only those of a switch to
      the network already current. */
  lemma CompletionsConserved(network: Network, events: seq<Event>, c: Callback)
    ensures var s := Run(network, events);
            && Times(s.log.asked, c) == Times(s.log.fired, c) + Times(s.log.dropped, c) + Waiting(s, c)
            && (Times(s.log.dropped, c) > 0 ==> Joins(c))
  {
    RunBalance(network, events, c);
    RunBooks(network, events);
  }

  /** The worker and the main actor have nothing left to do. */
  predicate AtRest(s: System) {
    MainIdle(s) && s.queue == [] && s.posted == []
  }

  /** At rest every completion has run as often as it was handed over, less the
      times it was dropped: exactly as often unless it waited for a preparation. */
  lemma CompletionsRunExactlyOnce(network: Network, events: seq<Event>, c: Callback)
    ensures var s := Run(network, events);
            AtRest(s) ==>
              && Times(s.log.fired, c) + Times(s.log.dropped, c) == Times(s.log.asked, c)
              && (!Joins(c) ==> Times(s.log.fired, c) == Times(s.log.asked, c))
  {
    CompletionsConserved(network, events, c);
    RunBooks(network, events);
    ProcessOwnershipSteps.RunOwned(network, events, 0);
    var s := Run(network, events);
    if AtRest(s) {
      assert !s.process.phase.Preparing?;
    }
  }

  lemma NothingWaits(s: System, c: Callback)
    requires c.OnSynced? && MainIdle(s) && !s.process.syncInFlight
    requires WaitForSync(s) && OnlyJoinersDropped(s) && SwitchesElsewhere(s)
    ensures Waiting(s, c) == 0
  {
    SumAllZero(s.queue, InJob(c));
    SumAllZero(s.posted, InPosted(c));
    assert s.process.phase.Preparing? ==> c !in s.process.phase.callbacks;
    assert s.process.completions == [];
  }

  /** As soon as the main actor is idle and no synchronization is in flight, every
      syncNow completion has run as often as it was handed over. */
  lemma SyncCompletionsRun(network: Network, events: seq<Event>, id: nat)
    ensures var s := Run(network, events);
            MainIdle(s) && !s.process.syncInFlight ==>
              Times(s.log.fired, OnSynced(id)) == Times(s.log.asked, OnSynced(id))
  {
    CompletionsConserved(network, events, OnSynced(id));
    RunBooks(network, events);
    if MainIdle(Run(network, events)) && !Run(network, events).process.syncInFlight {
      NothingWaits(Run(network, events), OnSynced(id));
    }
  }

  // ---- A switch completion that never runs ----

  /** Waiting for a preparation, while close runs or not. */
  function Joined(c: Callback, calls: seq<Call>, p: Process): System {
    Initial(Mainnet).(process := p.(phase := Preparing([c])), calls := calls, queue := [BuildForPreparation(Mainnet)],
                      log := Initial(Mainnet).log.(asked := [c]))
  }

  function Lost(c: Callback, p: Process, queue: seq<Job>, posted: seq<Posted>): System {
    Initial(Mainnet).(process := p.(phase := Closed), queue := queue, posted := posted,
                      log := Initial(Mainnet).log.(asked := [c], dropped := [c]))
  }

  lemma Joining(id: nat)
    ensures var c, s := OnSwitched(id, true), Initial(Mainnet);
            Step(s, CallSwitchNetwork(Mainnet, id, true)) == Joined(c, [], s.process)
  {
  }

  lemma ClosingWhileJoined(c: Callback)
    ensures var s := Joined(c, [], Initial(Mainnet).process);
            var t := Step(s, CallClose);
            && t == Joined(c, [Closing([])], t.process)
            && Step(t, CallbackReturned) == Lost(c, t.process, t.queue, [])
  {
    var s := Joined(c, [], Initial(Mainnet).process);
    var t := Step(s, CallClose);
    assert t == Joined(c, [Closing([])], t.process);
    assert Popped(t).calls == [];
    assert t.log.dropped + [c] == [c];
  }

  lemma ResultAfterClose(c: Callback, p: Process)
    ensures var s := Lost(c, p, [BuildForPreparation(Mainnet)], []);
            var t := Step(s, JobRun(NotBuilt));
            && t == Lost(c, p, [], [Prepared(Mainnet, None)])
            && Step(t, ResultDelivered(0)) == Lost(c, p, [], [])
  {
  }

  /** A switch to the current network joins the preparation, and close drops it:
      its completion never runs. */
  lemma JoinedSwitchCanBeLost(id: nat) returns (events: seq<Event>)
    ensures var s := Run(Mainnet, events);
            AtRest(s) && Times(s.log.asked, OnSwitched(id, true)) == 1 && Times(s.log.fired, OnSwitched(id, true)) == 0
  {
    var c := OnSwitched(id, true);
    events := [CallSwitchNetwork(Mainnet, id, true), CallClose, CallbackReturned, JobRun(NotBuilt), ResultDelivered(0)];
    RunFive(Mainnet, events[0], events[1], events[2], events[3], events[4]);
    Joining(id);
    ClosingWhileJoined(c);
    ResultAfterClose(c, Step(Joined(c, [], Initial(Mainnet).process), CallClose).process);
  }
}
