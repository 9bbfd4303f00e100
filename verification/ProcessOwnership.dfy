/** Where runtimes and their builds can be. */
module ProcessOwnership {
  import opened Wrappers
  import opened Sums
  import opened ProcessLifecycle

  function Owner(phase: Phase, r: nat): nat {
    if phase == Ready(r) || phase == Switching(r) then 1 else 0
  }

  function ClosesOf(r: nat): Job -> nat {
    (job: Job) => if job == CloseRuntime(r) then 1 else 0
  }

  function ResultsOf(r: nat): Posted -> nat {
    (posted: Posted) => if !posted.Synced? && posted.result == Some(r) then 1 else 0
  }

  function Builds(): Job -> nat {
    (job: Job) => if job.BuildForPreparation? || job.BuildForSwitch? then 1 else 0
  }

  function BuildResults(): Posted -> nat {
    (posted: Posted) => if posted.Synced? then 0 else 1
  }

  /** The places of runtime r: owned, built and on its way to the main actor,
      queued for closing, closed. */
  function Places(s: System, r: nat): nat {
    Owner(s.process.phase, r) + Sum(s.posted, ResultsOf(r)) + Sum(s.queue, ClosesOf(r)) + multiset(s.closed)[r]
  }

  /** Builds that are queued or whose result is not yet delivered. */
  function Building(s: System): nat {
    Sum(s.queue, Builds()) + Sum(s.posted, BuildResults())
  }

  predicate BuildsFit(phase: Phase, building: nat) {
    match phase
    case Preparing(_) => building == 1
    case Switching(_) => building == 1
    case Closed => building <= 1
    case _ => building == 0
  }

  // ---- Builds belong to the phase that waits for them ----

  predicate InClose(calls: seq<Call>) {
    exists call <- calls :: call.Closing?
  }

  /** A switch from r is the one the process waits for, unless it is being closed. */
  predicate AwaitsSwitch(p: Process, closing: bool, previous: nat, generation: nat) {
    && p.phase == Switching(previous)
    && (closing || (p.switchInFlight && p.switchGeneration == generation))
  }

  predicate JobFits(p: Process, closing: bool, job: Job) {
    match job
    case BuildForPreparation(network) => p.phase.Closed? || (p.phase.Preparing? && p.network == network)
    case BuildForSwitch(previous, _, generation, _) => p.phase.Closed? || AwaitsSwitch(p, closing, previous, generation)
    case _ => true
  }

  predicate ResultFits(networks: seq<Network>, network: Network, result: Option<nat>) {
    result.Some? ==> result.value < |networks| && networks[result.value] == network
  }

  predicate PostedFits(p: Process, closing: bool, networks: seq<Network>, posted: Posted) {
    match posted
    case Prepared(network, result) =>
      ResultFits(networks, network, result) && JobFits(p, closing, BuildForPreparation(network))
    case Switched(previous, network, generation, completion, result) =>
      ResultFits(networks, network, result) && JobFits(p, closing, BuildForSwitch(previous, network, generation, completion))
    case Synced => true
  }

  ghost predicate AllFit(s: System) {
    && (forall job <- s.queue :: JobFits(s.process, InClose(s.calls), job))
    && (forall posted <- s.posted :: PostedFits(s.process, InClose(s.calls), s.networks, posted))
  }

  /** currentNetwork names the network of the owned runtime. */
  predicate OwnsCurrentNetwork(s: System) {
    s.process.phase.Ready? || s.process.phase.Switching? ==>
      s.process.phase.runtime < |s.networks| && s.networks[s.process.phase.runtime] == s.process.network
  }

  ghost predicate Owned(s: System, r: nat) {
    && Places(s, r) == (if r < |s.networks| then 1 else 0)
    && BuildsFit(s.process.phase, Building(s))
    && AllFit(s)
    && OwnsCurrentNetwork(s)
  }
}

/** Every step of the process keeps it. */
module ProcessOwnershipSteps {
  import opened Sequences
  import opened Sums
  import opened ProcessLifecycle
  import opened ProcessOwnership

  // ---- Small steps ----

  lemma EnqueueSums(queue: seq<Job>, job: Job, r: nat)
    ensures Sum(queue + [job], ClosesOf(r)) == Sum(queue, ClosesOf(r)) + ClosesOf(r)(job)
    ensures Sum(queue + [job], Builds()) == Sum(queue, Builds()) + Builds()(job)
  {
    SumAppend(queue, job, ClosesOf(r));
    SumAppend(queue, job, Builds());
  }

  lemma PostSums(posts: seq<Posted>, posted: Posted, r: nat)
    ensures Sum(posts + [posted], ResultsOf(r)) == Sum(posts, ResultsOf(r)) + ResultsOf(r)(posted)
    ensures Sum(posts + [posted], BuildResults()) == Sum(posts, BuildResults()) + BuildResults()(posted)
  {
    SumAppend(posts, posted, ResultsOf(r));
    SumAppend(posts, posted, BuildResults());
  }

  /** Nothing is being built, so every job and result fits any process. */
  lemma NothingBuilding(s: System, p: Process, closing: bool)
    requires Building(s) == 0
    ensures forall job <- s.queue :: JobFits(p, closing, job)
    ensures forall posted <- s.posted :: PostedFits(p, closing, s.networks, posted)
  {
    forall job | job in s.queue ensures JobFits(p, closing, job) {
      SumZero(s.queue, Builds(), job);
    }
    forall posted | posted in s.posted ensures PostedFits(p, closing, s.networks, posted) {
      SumZero(s.posted, BuildResults(), posted);
    }
  }

  /** What the other parts of the system do not touch. */
  predicate SameRuntimes(s: System, t: System) {
    && s.process.phase == t.process.phase && s.process.network == t.process.network
    && s.process.switchInFlight == t.process.switchInFlight && s.process.switchGeneration == t.process.switchGeneration
    && s.queue == t.queue && s.posted == t.posted && s.networks == t.networks && s.closed == t.closed
  }

  lemma SameOwned(s: System, t: System, r: nat)
    requires Owned(s, r) && SameRuntimes(s, t) && (InClose(s.calls) ==> InClose(t.calls))
    ensures Owned(t, r)
  {
    forall job | job in t.queue ensures JobFits(t.process, InClose(t.calls), job) {
      assert JobFits(s.process, InClose(s.calls), job);
    }
    forall posted | posted in t.posted ensures PostedFits(t.process, InClose(t.calls), t.networks, posted) {
      assert PostedFits(s.process, InClose(s.calls), s.networks, posted);
    }
  }

  lemma EnqueueSyncOwned(s: System, runtime: nat, r: nat)
    requires Owned(s, r)
    ensures Owned(Enqueued(s, SyncOnce(runtime)), r)
  {
    EnqueueSums(s.queue, SyncOnce(runtime), r);
  }

  lemma Pushing(calls: seq<Call>, call: Call)
    ensures InClose(calls + [call]) == (InClose(calls) || call.Closing?)
  {
    assert forall c :: c in calls + [call] <==> c in calls || c == call;
  }

  lemma Popping(calls: seq<Call>)
    requires calls != []
    ensures InClose(calls) == (InClose(calls[..|calls| - 1]) || calls[|calls| - 1].Closing?)
  {
    SplitLast(calls);
    Pushing(calls[..|calls| - 1], calls[|calls| - 1]);
  }

  // ---- Method calls ----

  /** No build is outstanding and none is queued; the phase changes between two
      that own nothing, or keep the runtime. */
  lemma IdlePhaseOwned(s: System, phase: Phase, r: nat)
    requires Owned(s, r) && Building(s) == 0 && BuildsFit(phase, 0)
    requires s.process.phase.Ready? ==> phase.Ready? && phase.runtime == s.process.phase.runtime
    requires !s.process.phase.Ready? && !s.process.phase.Switching? ==> !phase.Ready? && !phase.Switching?
    requires !s.process.phase.Switching?
    ensures Owned(InPhase(s, phase), r)
  {
    NothingBuilding(s, InPhase(s, phase).process, InClose(s.calls));
  }

  /** Start a build for the phase that waits for it. */
  lemma StartBuildOwned(s: System, p: Process, job: Job, r: nat)
    requires Owned(s, r) && Building(s) == 0 && !s.process.phase.Closed?
    requires Builds()(job) == 1 && JobFits(p, InClose(s.calls), job) && BuildsFit(p.phase, 1)
    requires p.network == s.process.network && Owner(p.phase, r) == Owner(s.process.phase, r)
    requires p.phase.Switching? ==> s.process.phase == Ready(p.phase.runtime)
    ensures Owned(Enqueued(s.(process := p), job), r)
  {
    NothingBuilding(s, p, InClose(s.calls));
    EnqueueSums(s.queue, job, r);
  }

  lemma PrepareOwned(s: System, callback: Callback, directory: bool, r: nat)
    requires Owned(s, r)
    ensures Owned(Prepare(s, callback, directory), r)
  {
    var t := Prepare(s, callback, directory);
    match s.process.phase
    case Preparing(callbacks) =>
      forall job | job in s.queue ensures JobFits(t.process, InClose(s.calls), job) {
        assert JobFits(s.process, InClose(s.calls), job);
      }
      forall posted | posted in s.posted ensures PostedFits(t.process, InClose(s.calls), s.networks, posted) {
        assert PostedFits(s.process, InClose(s.calls), s.networks, posted);
      }
    case Ready(_) => SameOwned(s, t, r);
    case Switching(_) => SameOwned(s, t, r);
    case Closed => SameOwned(s, t, r);
    case _ =>
      if directory {
        StartBuildOwned(s, InPhase(s, Preparing([callback])).process, BuildForPreparation(s.process.network), r);
      } else {
        IdlePhaseOwned(s, Failed, r);
        Pushing(s.calls, Reporting([callback], false));
        SameOwned(InPhase(s, Failed), t, r);
      }
  }

  lemma SwitchNetworkOwned(s: System, network: Network, id: nat, directory: bool, r: nat)
    requires Owned(s, r)
    ensures Owned(SwitchNetwork(s, network, id, directory), r)
  {
    var t, p, callback := SwitchNetwork(s, network, id, directory), s.process, SwitchCallback(s, network, id);
    if !p.switchInFlight && network == p.network && !p.phase.Ready? {
      PrepareOwned(s, callback, directory, r);
    } else if !p.switchInFlight && network != p.network && p.phase.Ready? && directory {
      StartBuildOwned(s, t.process, t.queue[|s.queue|], r);
    } else {
      SameOwned(s, t, r);
    }
  }

  lemma StartSyncOwned(s: System, runtime: nat, r: nat)
    requires Owned(s, r)
    ensures Owned(StartSync(s, runtime), r)
  {
    var started := s.(process := s.process.(syncInFlight := true), log := s.log.(syncsStarted := s.log.syncsStarted + 1));
    SameOwned(s, started, r);
    EnqueueSyncOwned(started, runtime, r);
    Pushing(s.calls, StartingSync(runtime));
    SameOwned(started, Pushed(started, StartingSync(runtime)), r);
  }

  lemma CloseOwned(s: System, r: nat)
    requires Owned(s, r)
    ensures Owned(Close(s), r)
  {
    var t := Close(s);
    Pushing(s.calls, t.calls[|s.calls|]);
    forall job | job in t.queue ensures JobFits(t.process, true, job) {
      assert JobFits(s.process, InClose(s.calls), job);
    }
    forall posted | posted in t.posted ensures PostedFits(t.process, true, t.networks, posted) {
      assert PostedFits(s.process, InClose(s.calls), s.networks, posted);
    }
  }

  lemma EndClosePlaces(s: System, r: nat)
    ensures Places(EndClose(s), r) == Places(s, r)
  {
    if s.process.phase.Ready? || s.process.phase.Switching? {
      EnqueueSums(s.queue, CloseRuntime(s.process.phase.runtime), r);
    }
  }

  lemma EndCloseBuilding(s: System)
    ensures Building(EndClose(s)) == Building(s)
  {
    if s.process.phase.Ready? || s.process.phase.Switching? {
      EnqueueSums(s.queue, CloseRuntime(s.process.phase.runtime), 0);
    }
  }

  /** Closed accepts any build that is still outstanding. */
  lemma EndCloseOwned(s: System, closing: bool, r: nat)
    requires Places(s, r) == (if r < |s.networks| then 1 else 0)
    requires BuildsFit(s.process.phase, Building(s)) && OwnsCurrentNetwork(s)
    requires forall posted <- s.posted :: PostedFits(s.process, closing, s.networks, posted)
    ensures Owned(EndClose(s), r)
  {
    var t := EndClose(s);
    EndClosePlaces(s, r);
    EndCloseBuilding(s);
    forall posted | posted in t.posted ensures PostedFits(t.process, InClose(t.calls), t.networks, posted) {
      assert PostedFits(s.process, closing, s.networks, posted);
    }
  }

  lemma ProceedCallOwned(s: System, r: nat)
    requires Owned(s, r) && s.calls != []
    ensures Owned(ProceedCall(s), r)
  {
    var t := ProceedCall(s);
    Popping(s.calls);
    match s.calls[|s.calls| - 1]
    case StartingSync(runtime) =>
      SameOwned(s, Popped(s), r);
      EnqueueSyncOwned(Popped(s), runtime, r);
    case Reporting(rest, succeeded) =>
      if rest != [] {
        Pushing(Popped(s).calls, Reporting(rest[1..], succeeded));
      }
      SameOwned(s, t, r);
    case Closing(rest) =>
      if rest == [] {
        EndCloseOwned(Popped(s), InClose(s.calls), r);
      } else {
        Pushing(Popped(s).calls, Closing(rest[1..]));
        SameOwned(s, t, r);
      }
  }

  // ---- The worker ----

  lemma BuildFits(s: System, outcome: BuildOutcome, r: nat)
    requires Owned(s, r) && s.queue != [] && Builds()(s.queue[0]) == 1
    ensures AllFit(RunJob(s, outcome)) && OwnsCurrentNetwork(RunJob(s, outcome))
  {
    var t, job := RunJob(s, outcome), s.queue[0];
    assert s.queue == [job] + s.queue[1..] && JobFits(s.process, InClose(s.calls), job);
    forall p | p in s.posted ensures PostedFits(t.process, InClose(t.calls), t.networks, p) {
      assert PostedFits(s.process, InClose(s.calls), s.networks, p);
    }
  }

  /** A build makes one new runtime, one that is closed at once, or none. */
  lemma BuildPlaces(s: System, outcome: BuildOutcome, r: nat)
    requires s.queue != [] && Builds()(s.queue[0]) == 1
    ensures var t := RunJob(s, outcome);
            && Building(t) == Building(s)
            && Places(t, r) == Places(s, r) + if outcome.NotBuilt? || r != |s.networks| then 0 else 1
  {
    var t := RunJob(s, outcome);
    PostSums(s.posted, t.posted[|s.posted|], r);
  }

  lemma BuildOwned(s: System, outcome: BuildOutcome, r: nat)
    requires Owned(s, r) && s.queue != [] && Builds()(s.queue[0]) == 1
    ensures Owned(RunJob(s, outcome), r)
  {
    BuildFits(s, outcome, r);
    BuildPlaces(s, outcome, r);
  }

  lemma SyncJobOwned(s: System, outcome: BuildOutcome, r: nat)
    requires Owned(s, r) && s.queue != [] && s.queue[0].SyncOnce?
    ensures Owned(RunJob(s, outcome), r)
  {
    PostSums(s.posted, Synced, r);
  }

  lemma CloseJobOwned(s: System, outcome: BuildOutcome, r: nat)
    requires Owned(s, r) && s.queue != [] && s.queue[0].CloseRuntime?
    ensures Owned(RunJob(s, outcome), r)
  {
  }

  lemma RunJobOwned(s: System, outcome: BuildOutcome, r: nat)
    requires Owned(s, r)
    ensures Owned(RunJob(s, outcome), r)
  {
    if s.queue != [] {
      match s.queue[0]
      case BuildForPreparation(_) => BuildOwned(s, outcome, r);
      case BuildForSwitch(_, _, _, _) => BuildOwned(s, outcome, r);
      case SyncOnce(_) => SyncJobOwned(s, outcome, r);
      case CloseRuntime(_) => CloseJobOwned(s, outcome, r);
    }
  }

  // ---- Results ----

  lemma RemoveSums(posts: seq<Posted>, i: nat, r: nat)
    requires i < |posts|
    ensures var rest := posts[..i] + posts[i + 1..];
            && Sum(posts, ResultsOf(r)) == Sum(rest, ResultsOf(r)) + ResultsOf(r)(posts[i])
            && Sum(posts, BuildResults()) == Sum(rest, BuildResults()) + BuildResults()(posts[i])
            && forall posted <- rest :: posted in posts
  {
    SumRemove(posts, i, ResultsOf(r));
    SumRemove(posts, i, BuildResults());
  }

  /** A result that came too late is closed: the process is. */
  lemma DiscardOwned(s: System, i: nat, r: nat)
    requires Owned(s, r) && i < |s.posted| && !s.posted[i].Synced? && s.process.phase.Closed?
    ensures Owned(Discarded(ResultTaken(s, i), s.posted[i].result), r)
  {
    var result := s.posted[i].result;
    RemoveSums(s.posted, i, r);
    if result.Some? {
      EnqueueSums(s.queue, CloseRuntime(result.value), r);
    }
  }

  /** A build's result is accepted: its runtime replaces the owner, which is queued
      for closing if there was one and the build succeeded. */
  lemma AcceptOwned(s: System, i: nat, t: System, r: nat)
    requires Owned(s, r) && i < |s.posted| && !s.posted[i].Synced? && Building(s) == 1
    requires t.posted == ResultTaken(s, i).posted && t.networks == s.networks && t.closed == s.closed
    requires t.process.phase.Ready? || t.process.phase.Failed?
    requires match s.posted[i].result
             case Some(built) =>
               && t.process.phase == Ready(built) && t.process.network == s.posted[i].network
               && t.queue == (if s.process.phase.Switching? then s.queue + [CloseRuntime(s.process.phase.runtime)] else s.queue)
             case None =>
               && t.process.network == s.process.network && t.queue == s.queue
               && (if s.process.phase.Switching? then t.process.phase == Ready(s.process.phase.runtime) else t.process.phase.Failed?)
    requires !s.process.phase.Ready?
    ensures Owned(t, r)
  {
    RemoveSums(s.posted, i, r);
    assert PostedFits(s.process, InClose(s.calls), s.networks, s.posted[i]);
    if s.process.phase.Switching? {
      EnqueueSums(s.queue, CloseRuntime(s.process.phase.runtime), r);
    }
    NothingBuilding(t, t.process, InClose(t.calls));
  }

  lemma DeliverOwned(s: System, i: nat, r: nat)
    requires Owned(s, r)
    ensures Owned(Deliver(s, i), r)
  {
    if MainIdle(s) && i < |s.posted| {
      var t := Deliver(s, i);
      assert PostedFits(s.process, InClose(s.calls), s.networks, s.posted[i]);
      if s.posted[i].Synced? {
        RemoveSums(s.posted, i, r);
        SameOwned(ResultTaken(s, i), t, r);
      } else if s.process.phase.Closed? {
        DiscardOwned(s, i, r);
        SameOwned(Discarded(ResultTaken(s, i), s.posted[i].result), t, r);
      } else {
        AcceptOwned(s, i, t, r);
      }
    }
  }

  // ---- Every step, every run ----

  lemma SyncNowOwned(s: System, callback: Callback, r: nat)
    requires Owned(s, r)
    ensures Owned(SyncNow(s, callback), r)
  {
    if s.process.phase.Ready? {
      var waiting := Scheduled(s);
      var w := waiting.(process := waiting.process.(completions := waiting.process.completions + [callback]));
      SameOwned(s, w, r);
      StartSyncOwned(w, s.process.phase.runtime, r);
    } else {
      SameOwned(s, SyncNow(s, callback), r);
    }
  }

  lemma CallOwned(s: System, event: Event, r: nat)
    requires Owned(s, r)
    requires event.CallPrepare? || event.CallSwitchNetwork? || event.CallSyncNow?
    ensures Owned(Step(s, event), r)
  {
    match event
    case CallPrepare(id, directory) =>
      SameOwned(s, Asked(s, OnPrepared(id)), r);
      PrepareOwned(Asked(s, OnPrepared(id)), OnPrepared(id), directory, r);
    case CallSwitchNetwork(network, id, directory) =>
      SameOwned(s, Asked(s, SwitchCallback(s, network, id)), r);
      SwitchNetworkOwned(Asked(s, SwitchCallback(s, network, id)), network, id, directory, r);
    case CallSyncNow(id) =>
      SameOwned(s, Asked(s, OnSynced(id)), r);
      SyncNowOwned(Asked(s, OnSynced(id)), OnSynced(id), r);
  }

  lemma FinishingTouchesNoRuntime(s: System)
    ensures SameRuntimes(s, ProceedFinishing(s)) && ProceedFinishing(s).calls == s.calls
  {
  }

  lemma ProceedOwned(s: System, r: nat)
    requires Owned(s, r)
    ensures Owned(Proceed(s), r)
  {
    if s.calls != [] {
      ProceedCallOwned(s, r);
    } else {
      FinishingTouchesNoRuntime(s);
      SameOwned(s, ProceedFinishing(s), r);
    }
  }

  lemma StepOwned(s: System, event: Event, r: nat)
    requires Owned(s, r)
    ensures Owned(Step(s, event), r)
  {
    match event
    case CallPrepare(_, _) => CallOwned(s, event, r);
    case CallSwitchNetwork(_, _, _) => CallOwned(s, event, r);
    case CallSyncNow(_) => CallOwned(s, event, r);
    case CallClose => CloseOwned(s, r);
    case TimerFired(generation) =>
      if s.process.phase.Ready? {
        StartSyncOwned(s, s.process.phase.runtime, r);
      }
    case CallbackReturned => ProceedOwned(s, r);
    case JobRun(outcome) => RunJobOwned(s, outcome, r);
    case ResultDelivered(i) => DeliverOwned(s, i, r);
    case CallPerformAtSafePoint => SameOwned(s, PerformAtSafePoint(s), r);
    case CallResumeForegroundSync => SameOwned(s, Step(s, event), r);
    case CallSuspendForegroundSync => SameOwned(s, Suspended(s), r);
  }

  lemma {:induction false} RunOwned(network: Network, events: seq<Event>, r: nat)
    ensures Owned(Run(network, events), r)
    decreases |events|
  {
    if events != [] {
      RunOwned(network, events[..|events| - 1], r);
      StepOwned(Run(network, events[..|events| - 1]), events[|events| - 1], r);
    }
  }
}
