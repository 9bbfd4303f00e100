/** A network switch reaches the network that was asked for: every build for a switch
    carries the newest request that was accepted. */
module ProcessSwitching {
  import opened Wrappers
  import opened Sequences
  import opened ProcessLifecycle
  import opened ProcessOwnership
  import opened ProcessOwnershipSteps

  // ---- Requests ----

  datatype Request = Request(network: Network, id: nat)

  /** The process is ready on another network, no switch is in flight, and the new
      network's directory can be made. */
  predicate Accepts(s: System, network: Network, directory: bool) {
    s.process.phase.Ready? && s.process.network != network && !s.process.switchInFlight && directory
  }

  /** The newest request that was accepted. */
  function Accepted(network: Network, events: seq<Event>): Option<Request> {
    if events == [] then None
    else
      var before, last := events[..|events| - 1], events[|events| - 1];
      if last.CallSwitchNetwork? && Accepts(Run(network, before), last.network, last.directory) then
        Some(Request(last.network, last.id))
      else Accepted(network, before)
  }

  /** Requests accepted, and calls of close. */
  function Generations(network: Network, events: seq<Event>): nat {
    if events == [] then 0
    else
      var before, last := events[..|events| - 1], events[|events| - 1];
      Generations(network, before)
      + if last.CallClose? || (last.CallSwitchNetwork? && Accepts(Run(network, before), last.network, last.directory)) then 1 else 0
  }

  predicate JobServes(job: Job, request: Option<Request>) {
    job.BuildForSwitch? ==> request.Some? && job.network == request.value.network && job.completion == OnSwitched(request.value.id, false)
  }

  predicate ResultServes(posted: Posted, request: Option<Request>) {
    posted.Switched? ==>
      request.Some? && posted.network == request.value.network && posted.completion == OnSwitched(request.value.id, false)
  }

  ghost predicate Serves(s: System, request: Option<Request>) {
    && (forall job <- s.queue :: JobServes(job, request))
    && (forall posted <- s.posted :: ResultServes(posted, request))
  }

  // ---- Every step ----

  /** Neither queue nor results get a switch. */
  predicate OnlyOtherJobs(s: System, t: System) {
    && (forall job <- t.queue :: job in s.queue || !job.BuildForSwitch?)
    && (forall posted <- t.posted :: posted in s.posted)
  }

  lemma OthersServe(s: System, t: System, request: Option<Request>)
    requires Serves(s, request) && OnlyOtherJobs(s, t)
    ensures Serves(t, request)
  {
  }

  lemma PrepareOthers(s: System, callback: Callback, directory: bool)
    ensures OnlyOtherJobs(s, Prepare(s, callback, directory))
  {
  }

  /** Nothing is being built in a ready process, so the new build is the only one. */
  lemma AcceptedServes(s: System, network: Network, id: nat, request: Option<Request>)
    requires Owned(s, 0) && Accepts(s, network, true)
    ensures Serves(SwitchNetwork(s, network, id, true), Some(Request(network, id)))
  {
    forall job | job in s.queue ensures !job.BuildForSwitch? {
      BuildingHasNone(s, job);
    }
    forall posted | posted in s.posted ensures !posted.Switched? {
      BuildingPostedNone(s, posted);
    }
  }

  lemma BuildingHasNone(s: System, job: Job)
    requires Building(s) == 0 && job in s.queue
    ensures !job.BuildForSwitch?
  {
    NothingBuilding(s, s.process.(phase := Idle), false);
  }

  lemma BuildingPostedNone(s: System, posted: Posted)
    requires Building(s) == 0 && posted in s.posted
    ensures !posted.Switched?
  {
    NothingBuilding(s, s.process.(phase := Idle), false);
  }

  lemma RefusedOthers(s: System, network: Network, id: nat, directory: bool)
    requires !Accepts(s, network, directory)
    ensures OnlyOtherJobs(s, SwitchNetwork(s, network, id, directory))
  {
    PrepareOthers(s, SwitchCallback(s, network, id), directory);
  }

  lemma RunJobServes(s: System, outcome: BuildOutcome, request: Option<Request>)
    requires Serves(s, request)
    ensures Serves(RunJob(s, outcome), request)
  {
    if s.queue != [] {
      assert JobServes(s.queue[0], request);
    }
  }

  lemma DeliverOthers(s: System, i: nat)
    ensures OnlyOtherJobs(s, Deliver(s, i))
  {
    if MainIdle(s) && i < |s.posted| {
      TakenOthers(s, i);
      var rest := ResultTaken(s, i);
      match s.posted[i]
      case Prepared(_, result) => FinishOthers(rest, result);
      case Switched(previous, network, generation, completion, result) =>
        FinishSwitchOthers(rest, previous, network, generation, completion, result);
      case Synced =>
    }
  }

  lemma TakenOthers(s: System, i: nat)
    requires i < |s.posted|
    ensures forall posted <- ResultTaken(s, i).posted :: posted in s.posted
  {
  }

  lemma FinishOthers(s: System, result: Option<nat>)
    ensures OnlyOtherJobs(s, FinishPreparation(s, result))
  {
  }

  lemma FinishSwitchOthers(s: System, previous: nat, network: Network, generation: nat, callback: Callback, result: Option<nat>)
    ensures OnlyOtherJobs(s, FinishSwitch(s, previous, network, generation, callback, result))
  {
  }

  lemma ProceedOthers(s: System)
    ensures OnlyOtherJobs(s, Proceed(s))
  {
  }

  lemma StepServes(network: Network, before: seq<Event>, event: Event)
    requires Serves(Run(network, before), Accepted(network, before))
    ensures Serves(Step(Run(network, before), event), Accepted(network, before + [event]))
  {
    var s, request := Run(network, before), Accepted(network, before);
    DropLast(before, event);
    match event
    case CallSwitchNetwork(n, id, directory) =>
      RunOwned(network, before, 0);
      var asked := Asked(s, SwitchCallback(s, n, id));
      if Accepts(s, n, directory) {
        AskedOwned(s, SwitchCallback(s, n, id));
        AcceptedServes(asked, n, id, request);
      } else {
        RefusedOthers(asked, n, id, directory);
        OthersServe(s, Step(s, event), request);
      }
    case CallPrepare(id, directory) =>
      PrepareOthers(Asked(s, OnPrepared(id)), OnPrepared(id), directory);
      OthersServe(s, Step(s, event), request);
    case JobRun(outcome) => RunJobServes(s, outcome, request);
    case ResultDelivered(i) =>
      DeliverOthers(s, i);
      OthersServe(s, Step(s, event), request);
    case CallbackReturned =>
      ProceedOthers(s);
      OthersServe(s, Step(s, event), request);
    case CallSyncNow(_) => OthersServe(s, Step(s, event), request);
    case TimerFired(_) => OthersServe(s, Step(s, event), request);
    case CallPerformAtSafePoint =>
    case CallResumeForegroundSync =>
    case CallSuspendForegroundSync =>
    case CallClose =>
  }

  lemma AskedOwned(s: System, callback: Callback)
    requires Owned(s, 0)
    ensures Owned(Asked(s, callback), 0)
  {
    SameOwned(s, Asked(s, callback), 0);
  }

  lemma {:induction false} RunServes(network: Network, events: seq<Event>)
    ensures Serves(Run(network, events), Accepted(network, events))
    decreases |events|
  {
    if events != [] {
      var before := events[..|events| - 1];
      RunServes(network, before);
      SplitLast(events);
      StepServes(network, before, events[|events| - 1]);
    }
  }

  // ---- Main results ----

  /** A request starts a build for its network exactly when it is accepted; otherwise
      no build for a switch is queued. */
  lemma SwitchIsAccepted(s: System, network: Network, id: nat, directory: bool)
    ensures var t := Step(s, CallSwitchNetwork(network, id, directory));
            if Accepts(s, network, directory) then
              && t.process.phase == Switching(s.process.phase.runtime) && t.process.network == s.process.network
              && !t.process.foreground && t.process.switchInFlight && t.log.fired == s.log.fired
              && t.queue == s.queue + [BuildForSwitch(s.process.phase.runtime, network, t.process.switchGeneration, OnSwitched(id, false))]
            else forall job <- t.queue :: job in s.queue || !job.BuildForSwitch?
  {
    if !Accepts(s, network, directory) {
      RefusedOthers(Asked(s, SwitchCallback(s, network, id)), network, id, directory);
    }
  }

  /** When the result of a switch arrives while the process waits for it, it is the
      one of the newest accepted request: with a runtime the process is then on the
      network asked for, without one on the network it had; and the completion of that
      request runs. */
  lemma SwitchReachesItsNetwork(network: Network, events: seq<Event>, i: nat)
    ensures var s, request := Run(network, events), Accepted(network, events);
            MainIdle(s) && s.process.phase.Switching? && i < |s.posted| && !s.posted[i].Synced? ==>
              && request.Some? && s.posted[i].Switched?
              && var t, result := Step(s, ResultDelivered(i)), s.posted[i].result;
                 && t.process.phase == Ready(if result.Some? then result.value else s.process.phase.runtime)
                 && t.process.network == (if result.Some? then request.value.network else s.process.network)
                 && (result.Some? ==> result.value < |t.networks| && t.networks[result.value] == request.value.network)
                 && t.log.fired == s.log.fired + [OnSwitched(request.value.id, false)]
  {
    var s := Run(network, events);
    RunServes(network, events);
    RunOwned(network, events, 0);
    if MainIdle(s) && s.process.phase.Switching? && i < |s.posted| && !s.posted[i].Synced? {
      assert PostedFits(s.process, InClose(s.calls), s.networks, s.posted[i]);
      assert ResultServes(s.posted[i], Accepted(network, events));
    }
  }

  /** Each accepted request has a generation of its own, up to the wrap at 2^64. */
  lemma {:induction false} GenerationsAreCounted(network: Network, events: seq<Event>)
    ensures Run(network, events).process.switchGeneration == Generations(network, events) % 0x1_0000_0000_0000_0000
    decreases |events|
  {
    if events != [] {
      GenerationsAreCounted(network, events[..|events| - 1]);
      GenerationStep(Run(network, events[..|events| - 1]), events[|events| - 1]);
      CountsOn(Generations(network, events[..|events| - 1]));
    }
  }

  lemma CountsOn(n: nat)
    ensures NextGeneration(n % 0x1_0000_0000_0000_0000) == (n + 1) % 0x1_0000_0000_0000_0000
  {
  }

  lemma GenerationStep(s: System, event: Event)
    ensures Step(s, event).process.switchGeneration ==
              if event.CallClose? || (event.CallSwitchNetwork? && Accepts(s, event.network, event.directory)) then
                NextGeneration(s.process.switchGeneration)
              else s.process.switchGeneration
  {
    match event
    case CallSwitchNetwork(n, id, directory) =>
      PrepareGeneration(Asked(s, SwitchCallback(s, n, id)), SwitchCallback(s, n, id), directory);
    case CallPrepare(id, directory) => PrepareGeneration(Asked(s, OnPrepared(id)), OnPrepared(id), directory);
    case ResultDelivered(i) => DeliverGeneration(s, i);
    case CallbackReturned => ProceedGeneration(s);
    case JobRun(_) =>
    case CallSyncNow(_) =>
    case TimerFired(_) =>
    case CallPerformAtSafePoint =>
    case CallResumeForegroundSync =>
    case CallSuspendForegroundSync =>
    case CallClose =>
  }

  lemma PrepareGeneration(s: System, callback: Callback, directory: bool)
    ensures Prepare(s, callback, directory).process.switchGeneration == s.process.switchGeneration
  {
  }

  lemma DeliverGeneration(s: System, i: nat)
    ensures Deliver(s, i).process.switchGeneration == s.process.switchGeneration
  {
  }

  lemma ProceedGeneration(s: System)
    ensures Proceed(s).process.switchGeneration == s.process.switchGeneration
  {
  }
}
