/** The process as the main-actor object it is: methods that update its fields,
    each proved to be its transition function. A method that runs callbacks leaves
    the rest of its work on `calls` or `finishing` until they have returned. */
module ProcessObject {
  import opened Wrappers
  import opened ProcessLifecycle

  class BrowserProcess {
    var state: Phase
    var currentNetwork: Network
    var isForegroundSyncEnabled: bool
    var syncScheduleGeneration: nat
    var syncInFlight: bool
    var syncCompletions: seq<Callback>
    var syncMaintenanceSafePoints: seq<nat>
    var networkSwitchInFlight: bool
    var networkSwitchGeneration: nat

    var calls: seq<Call>
    var finishing: Finishing
    var preparationQueue: seq<Job>
    var mainQueue: seq<Posted>
    var networks: seq<Network>
    var closed: seq<nat>
    var log: Log

    ghost function Value(): System
      reads this
    {
      ProcessLifecycle.System(
        Process(state, currentNetwork, isForegroundSyncEnabled, syncScheduleGeneration, syncInFlight, syncCompletions,
                syncMaintenanceSafePoints, networkSwitchInFlight, networkSwitchGeneration),
        calls, finishing, preparationQueue, mainQueue, networks, closed, log)
    }

    constructor (network: Network)
      ensures Value() == Initial(network)
    {
      state, currentNetwork := Idle, network;
      isForegroundSyncEnabled, syncScheduleGeneration, syncInFlight := false, 0, false;
      syncCompletions, syncMaintenanceSafePoints := [], [];
      networkSwitchInFlight, networkSwitchGeneration := false, 0;
      calls, finishing, preparationQueue, mainQueue, networks, closed := [], NotFinishing, [], [], [], [];
      log := Log([], [], [], 0, [], 0, [], 0);
    }

    // ---- Parts of the methods ----

    /** Run a completion; what it does comes as further method calls. */
    method Fire(callback: Callback)
      modifies this
      ensures Value() == Fired(old(Value()), callback)
    {
      log := log.(fired := log.fired + [callback]);
    }

    method Async(job: Job)
      modifies this
      ensures Value() == Enqueued(old(Value()), job)
    {
      preparationQueue := preparationQueue + [job];
    }

    method Interrupt(call: Call)
      modifies this
      ensures Value() == Pushed(old(Value()), call)
    {
      calls := calls + [call];
    }

    method ScheduleForegroundSync()
      modifies this
      ensures Value() == Scheduled(old(Value()))
    {
      syncScheduleGeneration := NextGeneration(syncScheduleGeneration);
    }

    method ScheduleIfForeground()
      modifies this
      ensures Value() == RescheduledIfForeground(old(Value()))
    {
      if isForegroundSyncEnabled {
        ScheduleForegroundSync();
      }
    }

    method CloseUnused(result: Option<nat>)
      modifies this
      ensures Value() == Discarded(old(Value()), result)
    {
      if result.Some? {
        Async(CloseRuntime(result.value));
      }
    }

    // ---- Preparation and switching ----

    method Prepare(callback: Callback, directory: bool)
      modifies this
      ensures Value() == ProcessLifecycle.Prepare(old(Value()), callback, directory)
    {
      match state {
        case Ready(_) => Fire(callback);
        case Closed => Fire(callback);
        case Switching(_) => Fire(callback);
        case Preparing(callbacks) => state := Preparing(callbacks + [callback]);
        case _ =>
          state := Preparing([callback]);
          if directory {
            Async(BuildForPreparation(currentNetwork));
          } else {
            FinishPreparation(None);
          }
      }
    }

    method FinishPreparation(result: Option<nat>)
      modifies this
      ensures Value() == ProcessLifecycle.FinishPreparation(old(Value()), result)
    {
      if !state.Preparing? {
        CloseUnused(result);
        return;
      }
      var callbacks := state.callbacks;
      state := if result.Some? then Ready(result.value) else Failed;
      Interrupt(Reporting(callbacks, result.Some?));
    }

    method SwitchNetwork(network: Network, id: nat, directory: bool)
      modifies this
      ensures Value() == ProcessLifecycle.SwitchNetwork(old(Value()), network, id, directory)
    {
      var callback := OnSwitched(id, !networkSwitchInFlight && network == currentNetwork);
      if networkSwitchInFlight {
        Fire(callback);
        return;
      }
      if network == currentNetwork {
        if state.Ready? {
          Fire(callback);
        } else {
          Prepare(callback, directory);
        }
        return;
      }
      if !state.Ready? || !directory {
        Fire(callback);
        return;
      }
      SuspendForegroundSync();
      BeginSwitch();
      Async(BuildForSwitch(state.runtime, network, networkSwitchGeneration, callback));
    }

    method BeginSwitch()
      requires state.Ready?
      modifies this
      ensures var p := old(Value()).process;
              Value() == old(Value()).(process := p.(phase := Switching(p.phase.runtime), switchInFlight := true,
                                                       switchGeneration := NextGeneration(p.switchGeneration)))
    {
      state := Switching(state.runtime);
      networkSwitchInFlight := true;
      networkSwitchGeneration := NextGeneration(networkSwitchGeneration);
    }

    method FinishNetworkSwitch(previous: nat, network: Network, generation: nat, callback: Callback, result: Option<nat>)
      modifies this
      ensures Value() == FinishSwitch(old(Value()), previous, network, generation, callback, result)
    {
      if !networkSwitchInFlight || generation != networkSwitchGeneration || state != Switching(previous) {
        CloseUnused(result);
        Fire(callback);
        return;
      }
      EndSwitch(previous, network, result);
      ScheduleIfForeground();
      Fire(callback);
    }

    /** Commit to the new runtime, or go back to the previous one. */
    method EndSwitch(previous: nat, network: Network, result: Option<nat>)
      modifies this
      ensures Value() == SwitchEnded(old(Value()), previous, network, result)
    {
      networkSwitchInFlight := false;
      if result.Some? {
        state := Ready(result.value);
        currentNetwork := network;
        Async(CloseRuntime(previous));
      } else {
        state := Ready(previous);
      }
    }

    // ---- Synchronization ----

    method SyncNow(callback: Callback)
      modifies this
      ensures Value() == ProcessLifecycle.SyncNow(old(Value()), callback)
    {
      if !state.Ready? {
        Fire(callback);
        return;
      }
      ScheduleForegroundSync();
      syncCompletions := syncCompletions + [callback];
      StartSyncIfNeeded(state.runtime);
    }

    method StartSyncIfNeeded(runtime: nat)
      modifies this
      ensures Value() == StartSync(old(Value()), runtime)
    {
      if syncInFlight {
        return;
      }
      syncInFlight := true;
      log := log.(syncsStarted := log.syncsStarted + 1);
      if isForegroundSyncEnabled {
        Interrupt(StartingSync(runtime));
      } else {
        Async(SyncOnce(runtime));
      }
    }

    method RunScheduledForegroundSync(generation: nat)
      modifies this
      ensures Value() == RunScheduled(old(Value()), generation)
    {
      if generation == syncScheduleGeneration && isForegroundSyncEnabled && state.Ready? {
        StartSyncIfNeeded(state.runtime);
      }
    }

    /** Run a safe-point callback now. */
    method RunSafePoint(restarted: bool)
      modifies this
      ensures Value() == ProcessLifecycle.RunSafePoint(old(Value()), restarted)
    {
      log := log.(runs := log.runs + [SafePointRun(state.Closed?, syncInFlight, restarted)]);
    }

    method PerformAtSyncMaintenanceSafePoint() returns (accepted: bool)
      modifies this
      ensures Value() == PerformAtSafePoint(old(Value()))
      ensures accepted == !old(state).Closed?
    {
      if state.Closed? {
        return false;
      }
      if !syncInFlight {
        RunSafePoint(false);
        return true;
      }
      syncMaintenanceSafePoints := syncMaintenanceSafePoints + [log.tickets];
      log := log.(tickets := log.tickets + 1);
      accepted := true;
    }

    method ResumeForegroundSync()
      modifies this
      ensures Value() == Step(old(Value()), CallResumeForegroundSync)
    {
      isForegroundSyncEnabled := true;
      ScheduleForegroundSync();
    }

    method SuspendForegroundSync()
      modifies this
      ensures Value() == Suspended(old(Value()))
    {
      isForegroundSyncEnabled := false;
      ScheduleForegroundSync();
    }

    method FinishSync()
      modifies this
      ensures Value() == ProcessLifecycle.FinishSync(old(Value()))
    {
      syncInFlight := false;
      finishing := Draining(syncMaintenanceSafePoints, log.syncsStarted);
      syncMaintenanceSafePoints := [];
    }

    // ---- Closing ----

    method Close()
      modifies this
      ensures Value() == ProcessLifecycle.Close(old(Value()))
    {
      SuspendForegroundSync();
      networkSwitchInFlight := false;
      networkSwitchGeneration := NextGeneration(networkSwitchGeneration);
      var completions := TakePending();
      Interrupt(Closing(completions));
    }

    /** Throw the safe points away and take the completions. */
    method TakePending() returns (completions: seq<Callback>)
      modifies this
      ensures var s := old(Value());
              Value() == s.(process := s.process.(safePoints := [], completions := []),
                             log := s.log.(discarded := s.log.discarded + |s.process.safePoints|))
      ensures completions == old(syncCompletions)
    {
      log := log.(discarded := log.discarded + |syncMaintenanceSafePoints|);
      syncMaintenanceSafePoints := [];
      completions := syncCompletions;
      syncCompletions := [];
    }

    method FinishClose()
      modifies this
      ensures Value() == EndClose(old(Value()))
    {
      var closing := state;
      state := Closed;
      match closing {
        case Ready(runtime) => Async(CloseRuntime(runtime));
        case Switching(runtime) => Async(CloseRuntime(runtime));
        case Preparing(callbacks) => log := log.(dropped := log.dropped + callbacks);
        case _ =>
      }
    }

    // ---- Going on after a callback ----

    method Proceed()
      modifies this
      ensures Value() == ProcessLifecycle.Proceed(old(Value()))
    {
      if calls != [] {
        ProceedCall();
      } else {
        ProceedFinishing();
      }
    }

    method ProceedCall()
      requires calls != []
      modifies this
      ensures Value() == ProcessLifecycle.ProceedCall(old(Value()))
    {
      var call := calls[|calls| - 1];
      calls := calls[..|calls| - 1];
      match call {
        case StartingSync(runtime) => Async(SyncOnce(runtime));
        case Reporting(rest, succeeded) =>
          if rest != [] {
            Fire(rest[0]);
            Interrupt(Reporting(rest[1..], succeeded));
          } else if succeeded {
            ScheduleIfForeground();
          }
        case Closing(rest) =>
          if rest != [] {
            Fire(rest[0]);
            Interrupt(Closing(rest[1..]));
          } else {
            FinishClose();
          }
      }
    }

    method ProceedFinishing()
      modifies this
      ensures Value() == ProcessLifecycle.ProceedFinishing(old(Value()))
    {
      match finishing {
        case NotFinishing =>
        case Draining(tickets, begun) =>
          if tickets == [] || state.Closed? {
            EndDrain(tickets);
          } else {
            RunSafePoint(log.syncsStarted > begun);
            log := log.(ran := log.ran + [tickets[0]]);
            finishing := Draining(tickets[1..], begun);
          }
        case Observing(callbacks) =>
          ScheduleForegroundSync();
          finishing := Completing(callbacks);
        case Completing(callbacks) =>
          if callbacks == [] {
            finishing := NotFinishing;
          } else {
            Fire(callbacks[0]);
            finishing := Completing(callbacks[1..]);
          }
      }
    }

    /** The safe points are done: take the completions and report. */
    method EndDrain(tickets: seq<nat>)
      requires finishing.Draining? && finishing.tickets == tickets && (tickets == [] || state.Closed?)
      modifies this
      ensures Value() == ProcessLifecycle.ProceedFinishing(old(Value()))
    {
      log := log.(discarded := log.discarded + |tickets|);
      finishing := if isForegroundSyncEnabled then Observing(syncCompletions) else Completing(syncCompletions);
      syncCompletions := [];
    }

    // ---- The worker and its results ----

    method RunNextJob(outcome: BuildOutcome)
      modifies this
      ensures Value() == RunJob(old(Value()), outcome)
    {
      if preparationQueue == [] {
        return;
      }
      var job := preparationQueue[0];
      preparationQueue := preparationQueue[1..];
      match job {
        case BuildForPreparation(network) =>
          var result := BuildRuntime(network, outcome);
          mainQueue := mainQueue + [Prepared(network, result)];
        case BuildForSwitch(previous, network, generation, completion) =>
          var result := BuildRuntime(network, outcome);
          mainQueue := mainQueue + [Switched(previous, network, generation, completion, result)];
        case SyncOnce(_) => mainQueue := mainQueue + [Synced];
        case CloseRuntime(runtime) => closed := closed + [runtime];
      }
    }

    method BuildRuntime(network: Network, outcome: BuildOutcome) returns (result: Option<nat>)
      modifies this
      ensures (Value(), result) == Build(old(Value()), network, outcome)
    {
      if outcome.NotBuilt? {
        return None;
      }
      var runtime := |networks|;
      networks := networks + [network];
      if outcome.BuiltThenClosed? {
        closed := closed + [runtime];
        return None;
      }
      result := Some(runtime);
    }

    method DeliverResult(i: nat)
      modifies this
      ensures Value() == Deliver(old(Value()), i)
    {
      if calls != [] || !finishing.NotFinishing? || i >= |mainQueue| {
        return;
      }
      var posted := mainQueue[i];
      mainQueue := mainQueue[..i] + mainQueue[i + 1..];
      match posted {
        case Prepared(_, result) => FinishPreparation(result);
        case Switched(previous, network, generation, completion, result) =>
          FinishNetworkSwitch(previous, network, generation, completion, result);
        case Synced => FinishSync();
      }
    }
  }
}
