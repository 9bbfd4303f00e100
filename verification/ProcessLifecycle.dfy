/** BrowserProcess.swift as a transition system: the main actor's methods, a serial
    worker queue, results posted back to the main actor, and callbacks that may
    call any method again before the one that runs them goes on. */
module ProcessLifecycle {
  import opened Wrappers
  import opened Sequences

  const MAX_GENERATION: nat := 0xFFFF_FFFF_FFFF_FFFF

  datatype Network = Mainnet | Testnet | Regtest

  /** Completions handed to prepare, switchNetwork and syncNow. `joins` marks a
      switch to the network that is already current. */
  datatype Callback = OnPrepared(id: nat) | OnSwitched(id: nat, joins: bool) | OnSynced(id: nat)

  /** The process state; a runtime is named by its number in order of creation. */
  datatype Phase =
    | Idle
    | Preparing(callbacks: seq<Callback>)
    | Ready(runtime: nat)
    | Switching(runtime: nat)
    | Failed
    | Closed

  datatype Process = Process(
    phase: Phase, network: Network,
    foreground: bool, scheduleGeneration: nat,
    syncInFlight: bool, completions: seq<Callback>, safePoints: seq<nat>,
    switchInFlight: bool, switchGeneration: nat)

  datatype Job =
    | BuildForPreparation(network: Network)
    | BuildForSwitch(previous: nat, network: Network, generation: nat, completion: Callback)
    | SyncOnce(runtime: nat)
    | CloseRuntime(runtime: nat)

  /** What the worker hands back: a build's runtime unless it failed, or the end of
      a synchronization. */
  datatype Posted =
    | Prepared(network: Network, result: Option<nat>)
    | Switched(previous: nat, network: Network, generation: nat, completion: Callback, result: Option<nat>)
    | Synced

  /** A method interrupted by a callback it runs, with the callbacks still to run. */
  datatype Call =
    | StartingSync(runtime: nat)
    | Reporting(rest: seq<Callback>, succeeded: bool)
    | Closing(rest: seq<Callback>)

  /** Where finishSync is: running safe points, observers or completions. `begun`
      counts the synchronizations started before the safe points ran. */
  datatype Finishing =
    | NotFinishing
    | Draining(tickets: seq<nat>, begun: nat)
    | Observing(callbacks: seq<Callback>)
    | Completing(callbacks: seq<Callback>)

  /** A safe-point callback that ran: whether the process was closed or a sync was
      in flight, and whether a sync was started since this drain began. */
  datatype SafePointRun = SafePointRun(closed: bool, syncing: bool, restarted: bool)

  /** Deferred safe points carry tickets 0, 1, 2, ...; `ran` are those that ran,
      `discarded` counts those thrown away by close. */
  datatype Log = Log(
    asked: seq<Callback>, fired: seq<Callback>, dropped: seq<Callback>,
    tickets: nat, ran: seq<nat>, discarded: nat, runs: seq<SafePointRun>, syncsStarted: nat)

  /** `calls` is the stack of interrupted methods, the innermost last; `networks`
      has the network of every runtime built, `closed` those closed so far. */
  datatype System = System(
    process: Process, calls: seq<Call>, finishing: Finishing,
    queue: seq<Job>, posted: seq<Posted>,
    networks: seq<Network>, closed: seq<nat>, log: Log)

  function Initial(network: Network): System {
    System(Process(Idle, network, false, 0, false, [], [], false, 0), [], NotFinishing, [], [], [], [],
           Log([], [], [], 0, [], 0, [], 0))
  }

  // ---- Small operations ----

  function NextGeneration(generation: nat): nat {
    if generation == MAX_GENERATION then 0 else generation + 1
  }

  function Asked(s: System, callback: Callback): System {
    s.(log := s.log.(asked := s.log.asked + [callback]))
  }

  function Fired(s: System, callback: Callback): System {
    s.(log := s.log.(fired := s.log.fired + [callback]))
  }

  function Enqueued(s: System, job: Job): System {
    s.(queue := s.queue + [job])
  }

  function Pushed(s: System, call: Call): System {
    s.(calls := s.calls + [call])
  }

  function InPhase(s: System, phase: Phase): System {
    s.(process := s.process.(phase := phase))
  }

  /** scheduleForegroundSync: earlier timers are stale from here on. */
  function Scheduled(s: System): System {
    s.(process := s.process.(scheduleGeneration := NextGeneration(s.process.scheduleGeneration)))
  }

  function RescheduledIfForeground(s: System): System {
    if s.process.foreground then Scheduled(s) else s
  }

  function Suspended(s: System): System {
    Scheduled(s.(process := s.process.(foreground := false)))
  }

  /** A build that nobody waits for any more is closed on the worker. */
  function Discarded(s: System, result: Option<nat>): System {
    if result.Some? then Enqueued(s, CloseRuntime(result.value)) else s
  }

  // ---- Preparation and switching ----

  function FinishPreparation(s: System, result: Option<nat>): System {
    if !s.process.phase.Preparing? then Discarded(s, result)
    else
      Pushed(InPhase(s, if result.Some? then Ready(result.value) else Failed),
             Reporting(s.process.phase.callbacks, result.Some?))
  }

  /** `directory`: the data directory could be made. */
  function Prepare(s: System, callback: Callback, directory: bool): System {
    match s.process.phase
    case Ready(_) => Fired(s, callback)
    case Closed => Fired(s, callback)
    case Switching(_) => Fired(s, callback)
    case Preparing(callbacks) => InPhase(s, Preparing(callbacks + [callback]))
    case _ =>
      var preparing := InPhase(s, Preparing([callback]));
      if directory then Enqueued(preparing, BuildForPreparation(s.process.network))
      else FinishPreparation(preparing, None)
  }

  function SwitchCallback(s: System, network: Network, id: nat): Callback {
    OnSwitched(id, !s.process.switchInFlight && network == s.process.network)
  }

  function SwitchNetwork(s: System, network: Network, id: nat, directory: bool): System {
    var p, callback := s.process, SwitchCallback(s, network, id);
    if p.switchInFlight then Fired(s, callback)
    else if network == p.network then
      if p.phase.Ready? then Fired(s, callback) else Prepare(s, callback, directory)
    else if !p.phase.Ready? || !directory then Fired(s, callback)
    else
      var generation := NextGeneration(p.switchGeneration);
      var q := Suspended(s).process.(phase := Switching(p.phase.runtime), switchInFlight := true, switchGeneration := generation);
      Enqueued(s.(process := q), BuildForSwitch(p.phase.runtime, network, generation, callback))
  }

  function FinishSwitch(s: System, previous: nat, network: Network, generation: nat, callback: Callback, result: Option<nat>): System {
    var p := s.process;
    if !p.switchInFlight || generation != p.switchGeneration || p.phase != Switching(previous) then
      Fired(Discarded(s, result), callback)
    else Fired(RescheduledIfForeground(SwitchEnded(s, previous, network, result)), callback)
  }

  /** Commit to the new runtime, or go back to the previous one. */
  function SwitchEnded(s: System, previous: nat, network: Network, result: Option<nat>): System {
    var p := s.process.(switchInFlight := false);
    if result.Some? then
      Enqueued(s.(process := p.(phase := Ready(result.value), network := network)), CloseRuntime(previous))
    else s.(process := p.(phase := Ready(previous)))
  }

  // ---- Synchronization ----

  function StartSync(s: System, runtime: nat): System {
    if s.process.syncInFlight then s
    else
      var started := s.(process := s.process.(syncInFlight := true), log := s.log.(syncsStarted := s.log.syncsStarted + 1));
      if s.process.foreground then Pushed(started, StartingSync(runtime)) else Enqueued(started, SyncOnce(runtime))
  }

  function SyncNow(s: System, callback: Callback): System {
    if !s.process.phase.Ready? then Fired(s, callback)
    else
      var waiting := Scheduled(s);
      StartSync(waiting.(process := waiting.process.(completions := waiting.process.completions + [callback])),
                s.process.phase.runtime)
  }

  function RunScheduled(s: System, generation: nat): System {
    if generation == s.process.scheduleGeneration && s.process.foreground && s.process.phase.Ready? then
      StartSync(s, s.process.phase.runtime)
    else s
  }

  function RunSafePoint(s: System, restarted: bool): System {
    s.(log := s.log.(runs := s.log.runs + [SafePointRun(s.process.phase.Closed?, s.process.syncInFlight, restarted)]))
  }

  function PerformAtSafePoint(s: System): System {
    if s.process.phase.Closed? then s
    else if !s.process.syncInFlight then RunSafePoint(s, false)
    else
      s.(process := s.process.(safePoints := s.process.safePoints + [s.log.tickets]),
         log := s.log.(tickets := s.log.tickets + 1))
  }

  function FinishSync(s: System): System {
    s.(process := s.process.(syncInFlight := false, safePoints := []),
       finishing := Draining(s.process.safePoints, s.log.syncsStarted))
  }

  // ---- Closing ----

  function Close(s: System): System {
    var p := Suspended(s).process;
    Pushed(s.(process := p.(switchInFlight := false, switchGeneration := NextGeneration(p.switchGeneration),
                            safePoints := [], completions := []),
              log := s.log.(discarded := s.log.discarded + |p.safePoints|)),
           Closing(p.completions))
  }

  /** The end of close, when the pending completions have run. */
  function EndClose(s: System): System {
    match s.process.phase
    case Ready(runtime) => Enqueued(InPhase(s, Closed), CloseRuntime(runtime))
    case Switching(runtime) => Enqueued(InPhase(s, Closed), CloseRuntime(runtime))
    case Preparing(callbacks) => InPhase(s.(log := s.log.(dropped := s.log.dropped + callbacks)), Closed)
    case _ => InPhase(s, Closed)
  }

  // ---- Going on after a callback ----

  function Popped(s: System): System
    requires s.calls != []
  {
    s.(calls := s.calls[..|s.calls| - 1])
  }

  function ProceedCall(s: System): System
    requires s.calls != []
  {
    match s.calls[|s.calls| - 1]
    case StartingSync(runtime) => Enqueued(Popped(s), SyncOnce(runtime))
    case Reporting(rest, succeeded) =>
      if rest == [] then if succeeded then RescheduledIfForeground(Popped(s)) else Popped(s)
      else Pushed(Fired(Popped(s), rest[0]), Reporting(rest[1..], succeeded))
    case Closing(rest) =>
      if rest == [] then EndClose(Popped(s)) else Pushed(Fired(Popped(s), rest[0]), Closing(rest[1..]))
  }

  function ProceedFinishing(s: System): System {
    match s.finishing
    case NotFinishing => s
    case Draining(tickets, begun) =>
      if tickets == [] || s.process.phase.Closed? then
        var callbacks := s.process.completions;
        s.(process := s.process.(completions := []),
           log := s.log.(discarded := s.log.discarded + |tickets|),
           finishing := if s.process.foreground then Observing(callbacks) else Completing(callbacks))
      else
        var run := RunSafePoint(s, s.log.syncsStarted > begun);
        run.(log := run.log.(ran := run.log.ran + [tickets[0]]), finishing := Draining(tickets[1..], begun))
    case Observing(callbacks) => Scheduled(s).(finishing := Completing(callbacks))
    case Completing(rest) =>
      if rest == [] then s.(finishing := NotFinishing) else Fired(s, rest[0]).(finishing := Completing(rest[1..]))
  }

  function Proceed(s: System): System {
    if s.calls != [] then ProceedCall(s) else ProceedFinishing(s)
  }

  predicate MainIdle(s: System) {
    s.calls == [] && s.finishing.NotFinishing?
  }

  // ---- The worker and its results ----

  /** A factory can fail, or a later step of the build, which closes the runtime. */
  datatype BuildOutcome = NotBuilt | BuiltThenClosed | Built

  function Build(s: System, network: Network, outcome: BuildOutcome): (System, Option<nat>) {
    var r := |s.networks|;
    match outcome
    case NotBuilt => (s, None)
    case BuiltThenClosed => (s.(networks := s.networks + [network], closed := s.closed + [r]), None)
    case Built => (s.(networks := s.networks + [network]), Some(r))
  }

  function Post(s: System, posted: Posted): System {
    s.(posted := s.posted + [posted])
  }

  function JobTaken(s: System): System
    requires s.queue != []
  {
    s.(queue := s.queue[1..])
  }

  function RunJob(s: System, outcome: BuildOutcome): System {
    if s.queue == [] then s
    else
      var rest := JobTaken(s);
      match s.queue[0]
      case BuildForPreparation(network) =>
        var (built, result) := Build(rest, network, outcome);
        Post(built, Prepared(network, result))
      case BuildForSwitch(previous, network, generation, completion) =>
        var (built, result) := Build(rest, network, outcome);
        Post(built, Switched(previous, network, generation, completion, result))
      case SyncOnce(_) => Post(rest, Synced)
      case CloseRuntime(runtime) => rest.(closed := s.closed + [runtime])
  }

  function ResultTaken(s: System, i: nat): System
    requires i < |s.posted|
  {
    s.(posted := s.posted[..i] + s.posted[i + 1..])
  }

  /** The main actor takes the i-th posted result. */
  function Deliver(s: System, i: nat): System {
    if !MainIdle(s) || i >= |s.posted| then s
    else
      var rest := ResultTaken(s, i);
      match s.posted[i]
      case Prepared(_, result) => FinishPreparation(rest, result)
      case Switched(previous, network, generation, completion, result) =>
        FinishSwitch(rest, previous, network, generation, completion, result)
      case Synced => FinishSync(rest)
  }

  // ---- Steps and runs ----

  /** Any method may be called at any time, also by a callback; the main actor
      takes a result or a timer only when no callback is running. */
  datatype Event =
    | CallPrepare(id: nat, directory: bool)
    | CallSwitchNetwork(network: Network, id: nat, directory: bool)
    | CallSyncNow(id: nat)
    | CallPerformAtSafePoint
    | CallResumeForegroundSync
    | CallSuspendForegroundSync
    | CallClose
    | TimerFired(generation: nat)
    | CallbackReturned
    | JobRun(outcome: BuildOutcome)
    | ResultDelivered(i: nat)

  function Step(s: System, event: Event): System {
    match event
    case CallPrepare(id, directory) => Prepare(Asked(s, OnPrepared(id)), OnPrepared(id), directory)
    case CallSwitchNetwork(network, id, directory) =>
      SwitchNetwork(Asked(s, SwitchCallback(s, network, id)), network, id, directory)
    case CallSyncNow(id) => SyncNow(Asked(s, OnSynced(id)), OnSynced(id))
    case CallPerformAtSafePoint => PerformAtSafePoint(s)
    case CallResumeForegroundSync => Scheduled(s.(process := s.process.(foreground := true)))
    case CallSuspendForegroundSync => Suspended(s)
    case CallClose => Close(s)
    case TimerFired(generation) => if MainIdle(s) then RunScheduled(s, generation) else s
    case CallbackReturned => Proceed(s)
    case JobRun(outcome) => RunJob(s, outcome)
    case ResultDelivered(i) => Deliver(s, i)
  }

  function Run(network: Network, events: seq<Event>): System {
    if events == [] then Initial(network)
    else Step(Run(network, events[..|events| - 1]), events[|events| - 1])
  }

  lemma RunFive(network: Network, a: Event, b: Event, c: Event, d: Event, e: Event)
    ensures Run(network, [a, b, c, d, e]) == Step(Step(Step(Step(Step(Initial(network), a), b), c), d), e)
  {
    assert [] + [a] == [a] && [a] + [b] == [a, b] && [a, b] + [c] == [a, b, c];
    assert [a, b, c] + [d] == [a, b, c, d] && [a, b, c, d] + [e] == [a, b, c, d, e];
    RunNext(network, [], a);
    RunNext(network, [a], b);
    RunNext(network, [a, b], c);
    RunNext(network, [a, b, c], d);
    RunNext(network, [a, b, c, d], e);
  }

  /** The system after more events. */
  function Onward(s: System, events: seq<Event>): System {
    if events == [] then s else Step(Onward(s, events[..|events| - 1]), events[|events| - 1])
  }

  lemma {:induction false} RunOnward(network: Network, before: seq<Event>, more: seq<Event>)
    ensures Run(network, before + more) == Onward(Run(network, before), more)
    decreases |more|
  {
    if more == [] {
      EmptyEnds(before);
    } else {
      var last := |more| - 1;
      RunOnward(network, before, more[..last]);
      assert before + more == before + more[..last] + [more[last]];
      RunNext(network, before + more[..last], more[last]);
    }
  }

  lemma RunNext(network: Network, events: seq<Event>, event: Event)
    ensures Run(network, events + [event]) == Step(Run(network, events), event)
  {
    DropLast(events, event);
  }
}
