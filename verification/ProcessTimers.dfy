/** When foreground synchronizations start: a timer is good until the next event that
    schedules or suspends, and a request of synchronization is never lost. */
module ProcessTimers {
  import opened Sequences
  import opened ProcessLifecycle
  import opened ProcessOwnership
  import opened ProcessOwnershipSteps
  import opened ProcessSwitching

  // ---- The foreground ----

  /** Synchronization in the foreground is on from a resume to the next suspension,
      close, or switch that is accepted. */
  function ForegroundOn(network: Network, events: seq<Event>): bool {
    if events == [] then false
    else
      var before, last := events[..|events| - 1], events[|events| - 1];
      match last
      case CallResumeForegroundSync => true
      case CallSuspendForegroundSync => false
      case CallClose => false
      case CallSwitchNetwork(n, _, directory) => ForegroundOn(network, before) && !Accepts(Run(network, before), n, directory)
      case _ => ForegroundOn(network, before)
  }

  /** The step makes every timer scheduled so far stale: a resume, a suspension or a
      close; an accepted switch; a synchronization asked for; and in the foreground a
      preparation that reports success, a switch that ends, a synchronization that has
      informed its observers. */
  predicate Reschedules(s: System, event: Event) {
    match event
    case CallResumeForegroundSync => true
    case CallSuspendForegroundSync => true
    case CallClose => true
    case CallSwitchNetwork(n, _, directory) => Accepts(s, n, directory)
    case CallSyncNow(_) => s.process.phase.Ready?
    case CallbackReturned =>
      if s.calls != [] then s.calls[|s.calls| - 1] == Reporting([], true) && s.process.foreground
      else s.finishing.Observing?
    case ResultDelivered(i) =>
      MainIdle(s) && s.process.phase.Switching? && i < |s.posted| && s.posted[i].Switched? && s.process.foreground
    case _ => false
  }

  lemma PrepareKeepsTimers(s: System, callback: Callback, directory: bool)
    ensures var t := Prepare(s, callback, directory).process;
            t.scheduleGeneration == s.process.scheduleGeneration && t.foreground == s.process.foreground
  {
  }

  lemma SwitchTimers(s: System, n: Network, id: nat, directory: bool)
    ensures var t := SwitchNetwork(s, n, id, directory).process;
            if Accepts(s, n, directory) then
              !t.foreground && t.scheduleGeneration == NextGeneration(s.process.scheduleGeneration)
            else t.foreground == s.process.foreground && t.scheduleGeneration == s.process.scheduleGeneration
  {
    PrepareKeepsTimers(s, SwitchCallback(s, n, id), directory);
  }

  lemma ProceedTimers(s: System)
    ensures var t := Proceed(s).process;
            t.foreground == s.process.foreground
            && t.scheduleGeneration == if Reschedules(s, CallbackReturned) then NextGeneration(s.process.scheduleGeneration)
                                       else s.process.scheduleGeneration
  {
  }

  /** A result that arrives while the process is switching is awaited. */
  lemma DeliverTimers(s: System, i: nat)
    requires Owned(s, 0)
    ensures var t := Deliver(s, i).process;
            t.foreground == s.process.foreground
            && t.scheduleGeneration == if Reschedules(s, ResultDelivered(i)) then NextGeneration(s.process.scheduleGeneration)
                                       else s.process.scheduleGeneration
  {
    if MainIdle(s) && i < |s.posted| && s.posted[i].Switched? {
      assert PostedFits(s.process, InClose(s.calls), s.networks, s.posted[i]);
    }
  }

  lemma SyncNowTimers(s: System, callback: Callback)
    ensures var t := SyncNow(s, callback).process;
            t.foreground == s.process.foreground
            && t.scheduleGeneration == if s.process.phase.Ready? then NextGeneration(s.process.scheduleGeneration)
                                       else s.process.scheduleGeneration
  {
  }

  lemma StepTimers(s: System, event: Event)
    requires Owned(s, 0)
    ensures Step(s, event).process.scheduleGeneration ==
              if Reschedules(s, event) then NextGeneration(s.process.scheduleGeneration) else s.process.scheduleGeneration
    ensures Step(s, event).process.foreground ==
              match event
              case CallResumeForegroundSync => true
              case CallSuspendForegroundSync => false
              case CallClose => false
              case CallSwitchNetwork(n, _, directory) => s.process.foreground && !Accepts(s, n, directory)
              case _ => s.process.foreground
  {
    match event
    case CallPrepare(id, directory) => PrepareKeepsTimers(Asked(s, OnPrepared(id)), OnPrepared(id), directory);
    case CallSwitchNetwork(n, id, directory) => SwitchTimers(Asked(s, SwitchCallback(s, n, id)), n, id, directory);
    case CallSyncNow(id) => SyncNowTimers(Asked(s, OnSynced(id)), OnSynced(id));
    case CallbackReturned => ProceedTimers(s);
    case ResultDelivered(i) => DeliverTimers(s, i);
    case JobRun(_) =>
    case TimerFired(_) =>
    case CallPerformAtSafePoint =>
    case CallResumeForegroundSync =>
    case CallSuspendForegroundSync =>
    case CallClose =>
  }

  /** How often the timers were made stale on the way. */
  function Reschedulings(s: System, more: seq<Event>): nat {
    if more == [] then 0
    else
      var before, last := more[..|more| - 1], more[|more| - 1];
      Reschedulings(s, before) + if Reschedules(Onward(s, before), last) then 1 else 0
  }

  /** The generation n generations on. */
  function Later(generation: nat, n: nat): nat {
    if n == 0 then generation else NextGeneration(Later(generation, n - 1))
  }

  /** Fewer than 2^64 generations never lead back. */
  lemma {:induction false} LaterIsOther(generation: nat, n: nat)
    requires generation <= MAX_GENERATION && n <= MAX_GENERATION
    ensures Later(generation, n) == if generation + n <= MAX_GENERATION then generation + n else generation + n - MAX_GENERATION - 1
  {
    if n > 0 {
      LaterIsOther(generation, n - 1);
    }
  }

  lemma FewReschedulings(s: System, more: seq<Event>)
    ensures Reschedulings(s, more) <= |more|
  {
  }

  lemma ReschedulingCounted(s: System, event: Event, generation: nat, n: nat)
    requires Owned(s, 0) && s.process.scheduleGeneration == Later(generation, n)
    ensures Step(s, event).process.scheduleGeneration == Later(generation, n + if Reschedules(s, event) then 1 else 0)
  {
    StepTimers(s, event);
  }

  lemma {:induction false} OnwardOwned(s: System, more: seq<Event>)
    requires Owned(s, 0)
    ensures Owned(Onward(s, more), 0)
    decreases |more|
  {
    if more != [] {
      OnwardOwned(s, more[..|more| - 1]);
      StepOwned(Onward(s, more[..|more| - 1]), more[|more| - 1], 0);
    }
  }

  lemma {:induction false} ReschedulingsCounted(s: System, more: seq<Event>, generation: nat)
    requires Owned(s, 0) && generation == s.process.scheduleGeneration <= MAX_GENERATION
    ensures Onward(s, more).process.scheduleGeneration == Later(generation, Reschedulings(s, more))
    decreases |more|
  {
    if more != [] {
      var before, last := more[..|more| - 1], more[|more| - 1];
      ReschedulingsCounted(s, before, generation);
      OnwardOwned(s, before);
      ReschedulingCounted(Onward(s, before), last, generation, Reschedulings(s, before));
    }
  }

  lemma {:induction false} GenerationInRange(network: Network, events: seq<Event>)
    ensures Run(network, events).process.scheduleGeneration <= MAX_GENERATION
    decreases |events|
  {
    if events != [] {
      var before := events[..|events| - 1];
      GenerationInRange(network, before);
      RunOwned(network, before, 0);
      StepTimers(Run(network, before), events[|events| - 1]);
    }
  }

  // ---- Main results ----

  /** In every run foreground synchronization is on exactly from a resume to the next
      suspension, close or accepted switch. */
  lemma {:induction false} ForegroundFollowsCalls(network: Network, events: seq<Event>)
    ensures Run(network, events).process.foreground == ForegroundOn(network, events)
    decreases |events|
  {
    if events != [] {
      var before := events[..|events| - 1];
      ForegroundFollowsCalls(network, before);
      RunOwned(network, before, 0);
      StepTimers(Run(network, before), events[|events| - 1]);
    }
  }

  /** A timer scheduled at the end of `events` and fired after fewer than 2^64 more
      events starts a synchronization if and only if nothing has made it stale since,
      foreground synchronization is on, the process is ready with no synchronization
      in flight, and the main actor is idle. */
  lemma TimerStartsSync(network: Network, events: seq<Event>, more: seq<Event>)
    requires |more| <= MAX_GENERATION
    ensures var s, t := Run(network, events), Run(network, events + more);
            var fired := Step(t, TimerFired(s.process.scheduleGeneration));
            if Reschedulings(s, more) == 0 && MainIdle(t) && ForegroundOn(network, events + more)
               && t.process.phase.Ready? && !t.process.syncInFlight then
              fired.process.syncInFlight && fired.calls == t.calls + [StartingSync(t.process.phase.runtime)]
            else fired == t
  {
    var s, t := Run(network, events), Run(network, events + more);
    GenerationInRange(network, events);
    RunOwned(network, events, 0);
    ReschedulingsCounted(s, more, s.process.scheduleGeneration);
    RunOnward(network, events, more);
    FewReschedulings(s, more);
    ForegroundFollowsCalls(network, events + more);
    LaterIsOther(s.process.scheduleGeneration, Reschedulings(s, more));
    FiredTimer(t, s.process.scheduleGeneration);
  }

  lemma FiredTimer(t: System, generation: nat)
    ensures var fired := Step(t, TimerFired(generation));
            if generation == t.process.scheduleGeneration && MainIdle(t) && t.process.foreground
               && t.process.phase.Ready? && !t.process.syncInFlight then
              fired.process.syncInFlight && fired.calls == t.calls + [StartingSync(t.process.phase.runtime)]
            else fired == t
  {
  }

  /** A completion of syncNow waits, in a ready process, for a synchronization that is
      then in flight, and runs at once in any other; one that starts is queued at once
      in the background and after its observer in the foreground. */
  lemma SyncNowOutcome(network: Network, events: seq<Event>, id: nat)
    ensures var s := Run(network, events);
            var t := Step(s, CallSyncNow(id));
            if s.process.phase.Ready? then
              && t.log.fired == s.log.fired && t.process.completions == s.process.completions + [OnSynced(id)]
              && t.process.syncInFlight
              && t.log.syncsStarted == s.log.syncsStarted + (if s.process.syncInFlight then 0 else 1)
              && t.queue == s.queue + (if s.process.syncInFlight || ForegroundOn(network, events) then []
                                       else [SyncOnce(s.process.phase.runtime)])
              && t.calls == s.calls + (if s.process.syncInFlight || !ForegroundOn(network, events) then []
                                       else [StartingSync(s.process.phase.runtime)])
            else t.log.fired == s.log.fired + [OnSynced(id)] && t.process == s.process
  {
    ForegroundFollowsCalls(network, events);
    var s := Run(network, events);
    EmptyEnds(s.queue);
    EmptyEnds(s.calls);
  }

  /** A synchronization whose safe points have run informs its observers, and the next
      one is scheduled, exactly when foreground synchronization is on then; its
      completions follow either way. */
  lemma FinishedSyncIsReported(network: Network, events: seq<Event>)
    ensures var s := Run(network, events);
            s.calls == [] && s.finishing.Draining? && (s.finishing.tickets == [] || s.process.phase.Closed?) ==>
              var t := Step(s, CallbackReturned);
              var reported := Step(t, CallbackReturned);
              if ForegroundOn(network, events) then
                && t.finishing == Observing(s.process.completions) && reported.finishing == Completing(s.process.completions)
                && Reschedules(t, CallbackReturned)
              else t.finishing == Completing(s.process.completions)
  {
    ForegroundFollowsCalls(network, events);
  }
}
