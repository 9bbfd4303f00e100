/** Safe-point callbacks run in order, at most once, never after close, and during
    a synchronization exactly when one of them started it. */
module ProcessSafePoints {
  import opened Wrappers
  import opened Sequences
  import opened ProcessLifecycle
  import opened ProcessOwnership
  import opened ProcessOwnershipSteps
  import ProcessCallbacks

  // ---- Tickets in order ----

  function First(tickets: seq<nat>, otherwise: nat): nat {
    if tickets == [] then otherwise else tickets[0]
  }

  /** Strictly increasing, all below `high`. */
  predicate Ascending(tickets: seq<nat>, high: nat) {
    tickets != [] ==> tickets[|tickets| - 1] < high && Ascending(tickets[..|tickets| - 1], tickets[|tickets| - 1])
  }

  lemma {:induction false} AscendingTail(tickets: seq<nat>, high: nat)
    requires Ascending(tickets, high) && tickets != []
    ensures Ascending(tickets[1..], high) && tickets[0] < First(tickets[1..], high)
    decreases |tickets|
  {
    if |tickets| > 1 {
      var last := |tickets| - 1;
      AscendingTail(tickets[..last], tickets[last]);
      assert tickets[..last][1..] == tickets[1..][..last - 1];
    }
  }

  lemma AscendingMore(tickets: seq<nat>, ticket: nat, high: nat)
    requires Ascending(tickets, ticket) && ticket < high
    ensures Ascending(tickets + [ticket], high)
  {
    DropLast(tickets, ticket);
  }

  function Drain(s: System): seq<nat> {
    if s.finishing.Draining? then s.finishing.tickets else []
  }

  ghost predicate InOrder(s: System) {
    var points, tickets := s.process.safePoints, s.log.tickets;
    && Ascending(s.log.ran, First(Drain(s), First(points, tickets)))
    && Ascending(Drain(s), First(points, tickets))
    && Ascending(points, tickets)
  }

  predicate AllKept(s: System) {
    && |s.log.ran| + |Drain(s)| + |s.process.safePoints| + s.log.discarded == s.log.tickets
    && (s.log.discarded > 0 ==> s.process.phase.Closed? || InClose(s.calls))
  }

  predicate WellTimed(s: System) {
    && (forall run <- s.log.runs :: !run.closed && (run.syncing <==> run.restarted))
    && (s.finishing.Draining? ==>
          && s.finishing.begun <= s.log.syncsStarted
          && (s.process.syncInFlight <==> s.finishing.begun < s.log.syncsStarted))
  }

  /** What most steps leave alone. */
  predicate SamePoints(s: System, t: System) {
    && s.log.ran == t.log.ran && Drain(s) == Drain(t) && s.process.safePoints == t.process.safePoints
    && s.log.tickets == t.log.tickets && s.log.discarded == t.log.discarded && s.log.runs == t.log.runs
  }

  lemma PerformInOrder(s: System)
    requires InOrder(s)
    ensures InOrder(PerformAtSafePoint(s))
  {
    if !s.process.phase.Closed? && s.process.syncInFlight {
      AscendingMore(s.process.safePoints, s.log.tickets, s.log.tickets + 1);
      if s.process.safePoints == [] {
        assert (s.process.safePoints + [s.log.tickets])[0] == s.log.tickets;
      }
    }
  }

  lemma {:induction false} AscendingWiden(tickets: seq<nat>, high: nat, higher: nat)
    requires Ascending(tickets, high) && high <= higher
    ensures Ascending(tickets, higher)
  {
  }

  lemma {:induction false} FirstBelow(tickets: seq<nat>, high: nat)
    requires Ascending(tickets, high)
    ensures First(tickets, high) <= high
    decreases |tickets|
  {
    if tickets != [] {
      FirstBelow(tickets[..|tickets| - 1], tickets[|tickets| - 1]);
    }
  }

  lemma CloseInOrder(s: System)
    requires InOrder(s)
    ensures InOrder(Close(s))
  {
    var points, tickets := s.process.safePoints, s.log.tickets;
    FirstBelow(points, tickets);
    AscendingWiden(Drain(s), First(points, tickets), tickets);
    AscendingWiden(s.log.ran, First(Drain(s), First(points, tickets)), First(Drain(s), tickets));
  }

  lemma ProceedFinishingInOrder(s: System)
    requires InOrder(s)
    ensures InOrder(ProceedFinishing(s))
  {
    var high := First(s.process.safePoints, s.log.tickets);
    if s.finishing.Draining? && s.finishing.tickets != [] {
      var tickets := s.finishing.tickets;
      AscendingTail(tickets, high);
      FirstBelow(tickets, high);
      if s.process.phase.Closed? {
        AscendingWiden(s.log.ran, tickets[0], high);
      } else {
        AscendingMore(s.log.ran, tickets[0], First(tickets[1..], high));
      }
    }
  }

  lemma FinishSyncInOrder(s: System)
    requires InOrder(s) && s.finishing.NotFinishing?
    ensures InOrder(FinishSync(s))
  {
  }

  lemma FinishPreparationSame(s: System, result: Option<nat>)
    ensures SamePoints(s, FinishPreparation(s, result))
  {
  }

  lemma SwitchEndedSame(s: System, previous: nat, network: Network, result: Option<nat>)
    requires s.process.phase.Switching?
    ensures var t := SwitchEnded(s, previous, network, result);
            SamePoints(s, t) && t.calls == s.calls && t.process.phase.Ready?
  {
  }

  lemma FinishSwitchSame(s: System, previous: nat, network: Network, generation: nat, callback: Callback, result: Option<nat>)
    ensures var t := FinishSwitch(s, previous, network, generation, callback, result);
            SamePoints(s, t) && t.calls == s.calls && (t.process.phase.Closed? <==> s.process.phase.Closed?)
  {
    if s.process.phase.Switching? {
      SwitchEndedSame(s, previous, network, result);
    }
  }

  lemma OtherResultsSame(s: System, i: nat)
    requires i < |s.posted| && !s.posted[i].Synced?
    ensures SamePoints(s, Deliver(s, i))
  {
    if MainIdle(s) {
      var rest := ResultTaken(s, i);
      match s.posted[i]
      case Prepared(_, result) => FinishPreparationSame(rest, result);
      case Switched(previous, network, generation, completion, result) =>
        FinishSwitchSame(rest, previous, network, generation, completion, result);
    }
  }

  lemma DeliverInOrder(s: System, i: nat)
    requires InOrder(s) && MainIdle(s)
    ensures InOrder(Deliver(s, i))
  {
    if i < |s.posted| {
      if s.posted[i].Synced? {
        FinishSyncInOrder(s.(posted := s.posted[..i] + s.posted[i + 1..]));
      } else {
        OtherResultsSame(s, i);
      }
    }
  }

  lemma ProceedCallSame(s: System)
    requires s.calls != []
    ensures SamePoints(s, ProceedCall(s))
  {
  }

  lemma PrepareSame(s: System, callback: Callback, directory: bool)
    ensures SamePoints(s, Prepare(s, callback, directory))
  {
  }

  lemma SwitchNetworkSame(s: System, network: Network, id: nat, directory: bool)
    ensures SamePoints(s, SwitchNetwork(s, network, id, directory))
  {
    PrepareSame(s, SwitchCallback(s, network, id), directory);
  }

  lemma StartSyncSame(s: System, runtime: nat)
    ensures SamePoints(s, StartSync(s, runtime))
  {
  }

  lemma SyncNowSame(s: System, callback: Callback)
    ensures SamePoints(s, SyncNow(s, callback))
  {
    if s.process.phase.Ready? {
      var waiting := Scheduled(s);
      StartSyncSame(waiting.(process := waiting.process.(completions := waiting.process.completions + [callback])),
                    s.process.phase.runtime);
    }
  }

  lemma TimerSame(s: System, generation: nat)
    ensures SamePoints(s, RunScheduled(s, generation))
  {
    if s.process.phase.Ready? {
      StartSyncSame(s, s.process.phase.runtime);
    }
  }

  lemma JobSame(s: System, outcome: BuildOutcome)
    ensures SamePoints(s, RunJob(s, outcome))
  {
  }

  lemma StepInOrder(s: System, event: Event)
    requires InOrder(s)
    ensures InOrder(Step(s, event))
  {
    match event
    case CallPerformAtSafePoint => PerformInOrder(s);
    case CallClose => CloseInOrder(s);
    case CallbackReturned =>
      if s.calls != [] {
        ProceedCallSame(s);
      } else {
        ProceedFinishingInOrder(s);
      }
    case ResultDelivered(i) =>
      if MainIdle(s) {
        DeliverInOrder(s, i);
      }
    case CallPrepare(id, directory) => PrepareSame(Asked(s, OnPrepared(id)), OnPrepared(id), directory);
    case CallSwitchNetwork(network, id, directory) =>
      SwitchNetworkSame(Asked(s, SwitchCallback(s, network, id)), network, id, directory);
    case CallSyncNow(id) => SyncNowSame(Asked(s, OnSynced(id)), OnSynced(id));
    case TimerFired(generation) => TimerSame(s, generation);
    case JobRun(outcome) => JobSame(s, outcome);
    case CallResumeForegroundSync =>
    case CallSuspendForegroundSync =>
  }

  lemma ProceedKeeps(s: System)
    requires AllKept(s)
    ensures AllKept(Proceed(s))
  {
    if s.calls != [] {
      var t := ProceedCall(s);
      ProceedCallSame(s);
      Popping(s.calls);
      if |t.calls| == |s.calls| {
        Pushing(Popped(s).calls, t.calls[|s.calls| - 1]);
      }
    }
  }

  /** Methods only push themselves onto the calls. */
  lemma PushKeeps(s: System, t: System)
    requires AllKept(s) && SamePoints(s, t) && (t.process.phase.Closed? <==> s.process.phase.Closed?)
    requires t.calls == s.calls || (t.calls != [] && t.calls[..|t.calls| - 1] == s.calls)
    ensures AllKept(t)
  {
    if t.calls != s.calls {
      Popping(t.calls);
    }
  }

  lemma StartSyncKeeps(s: System, runtime: nat)
    requires AllKept(s)
    ensures AllKept(StartSync(s, runtime))
  {
    DropLast(s.calls, StartingSync(runtime));
    StartSyncSame(s, runtime);
    PushKeeps(s, StartSync(s, runtime));
  }

  lemma SyncNowKeeps(s: System, callback: Callback)
    requires AllKept(s)
    ensures AllKept(SyncNow(s, callback))
  {
    if s.process.phase.Ready? {
      var waiting := Scheduled(s);
      StartSyncKeeps(waiting.(process := waiting.process.(completions := waiting.process.completions + [callback])),
                     s.process.phase.runtime);
    }
  }

  lemma PrepareKeeps(s: System, callback: Callback, directory: bool)
    requires AllKept(s)
    ensures AllKept(Prepare(s, callback, directory))
  {
    DropLast(s.calls, Reporting([callback], false));
    PrepareSame(s, callback, directory);
    PushKeeps(s, Prepare(s, callback, directory));
  }

  lemma SwitchNetworkKeeps(s: System, network: Network, id: nat, directory: bool)
    requires AllKept(s)
    ensures AllKept(SwitchNetwork(s, network, id, directory))
  {
    PrepareKeeps(s, SwitchCallback(s, network, id), directory);
  }

  lemma FinishPreparationKeeps(s: System, result: Option<nat>)
    requires AllKept(s)
    ensures AllKept(FinishPreparation(s, result))
  {
    if s.process.phase.Preparing? {
      DropLast(s.calls, Reporting(s.process.phase.callbacks, result.Some?));
    }
    FinishPreparationSame(s, result);
    PushKeeps(s, FinishPreparation(s, result));
  }

  lemma DeliverKeeps(s: System, i: nat)
    requires AllKept(s)
    ensures AllKept(Deliver(s, i))
  {
    if MainIdle(s) && i < |s.posted| {
      var rest := ResultTaken(s, i);
      match s.posted[i]
      case Prepared(_, result) => FinishPreparationKeeps(rest, result);
      case Switched(previous, network, generation, completion, result) =>
        FinishSwitchSame(rest, previous, network, generation, completion, result);
      case Synced =>
    }
  }

  lemma JobKeeps(s: System, outcome: BuildOutcome)
    requires AllKept(s)
    ensures AllKept(RunJob(s, outcome))
  {
    JobSame(s, outcome);
  }

  lemma StepKeeps(s: System, event: Event)
    requires AllKept(s)
    ensures AllKept(Step(s, event))
  {
    match event
    case CallbackReturned => ProceedKeeps(s);
    case ResultDelivered(i) => DeliverKeeps(s, i);
    case CallPrepare(id, directory) => PrepareKeeps(Asked(s, OnPrepared(id)), OnPrepared(id), directory);
    case CallSwitchNetwork(network, id, directory) =>
      SwitchNetworkKeeps(Asked(s, SwitchCallback(s, network, id)), network, id, directory);
    case CallSyncNow(id) => SyncNowKeeps(Asked(s, OnSynced(id)), OnSynced(id));
    case TimerFired(_) =>
      if s.process.phase.Ready? {
        StartSyncKeeps(s, s.process.phase.runtime);
      }
    case CallClose => Pushing(s.calls, Closing(s.process.completions));
    case JobRun(outcome) => JobKeeps(s, outcome);
    case CallPerformAtSafePoint =>
    case CallResumeForegroundSync =>
    case CallSuspendForegroundSync =>
  }

  lemma ProceedWellTimed(s: System)
    requires WellTimed(s)
    ensures WellTimed(Proceed(s))
  {
  }

  lemma DeliverWellTimed(s: System, i: nat)
    requires WellTimed(s)
    ensures WellTimed(Deliver(s, i))
  {
  }

  predicate SameTiming(s: System, t: System) {
    && s.log.runs == t.log.runs && s.finishing == t.finishing
    && s.log.syncsStarted == t.log.syncsStarted && s.process.syncInFlight == t.process.syncInFlight
  }

  lemma PrepareWellTimed(s: System, callback: Callback, directory: bool)
    requires WellTimed(s)
    ensures WellTimed(Prepare(s, callback, directory))
  {
    assert SameTiming(s, Prepare(s, callback, directory));
  }

  lemma StepWellTimed(s: System, event: Event)
    requires WellTimed(s)
    ensures WellTimed(Step(s, event))
  {
    match event
    case CallbackReturned => ProceedWellTimed(s);
    case ResultDelivered(i) => DeliverWellTimed(s, i);
    case CallPrepare(id, directory) => PrepareWellTimed(Asked(s, OnPrepared(id)), OnPrepared(id), directory);
    case CallSwitchNetwork(network, id, directory) =>
      var callback := SwitchCallback(s, network, id);
      PrepareWellTimed(Asked(s, callback), callback, directory);
    case JobRun(_) => assert SameTiming(s, Step(s, event));
    case CallSyncNow(_) =>
    case CallPerformAtSafePoint =>
    case CallResumeForegroundSync =>
    case CallSuspendForegroundSync =>
    case CallClose =>
    case TimerFired(_) =>
  }

  lemma {:induction false} RunPoints(network: Network, events: seq<Event>)
    ensures var s := Run(network, events);
            InOrder(s) && AllKept(s) && WellTimed(s)
    decreases |events|
  {
    if events != [] {
      var before := Run(network, events[..|events| - 1]);
      RunPoints(network, events[..|events| - 1]);
      StepInOrder(before, events[|events| - 1]);
      StepKeeps(before, events[|events| - 1]);
      StepWellTimed(before, events[|events| - 1]);
    }
  }

  // ---- Every request is answered ----

  /** Safe points asked for while the process was not closed. */
  function PointsAsked(network: Network, events: seq<Event>): nat {
    if events == [] then 0
    else
      var before, last := events[..|events| - 1], events[|events| - 1];
      PointsAsked(network, before)
      + if last.CallPerformAtSafePoint? && !Run(network, before).process.phase.Closed? then 1 else 0
  }

  /** Safe points that ran, and tickets of those that have not. */
  function Given(s: System): int {
    |s.log.runs| + s.log.tickets - |s.log.ran|
  }

  lemma DeliverGiven(s: System, i: nat)
    ensures Given(Deliver(s, i)) == Given(s)
  {
    if i < |s.posted| && !s.posted[i].Synced? {
      OtherResultsSame(s, i);
    }
  }

  lemma ProceedGiven(s: System)
    ensures Given(Proceed(s)) == Given(s)
  {
    if s.calls != [] {
      ProceedCallSame(s);
    }
  }

  lemma StepGiven(s: System, event: Event)
    ensures Given(Step(s, event)) == Given(s) + if event.CallPerformAtSafePoint? && !s.process.phase.Closed? then 1 else 0
  {
    match event
    case CallPrepare(id, directory) => PrepareSame(Asked(s, OnPrepared(id)), OnPrepared(id), directory);
    case CallSwitchNetwork(network, id, directory) =>
      SwitchNetworkSame(Asked(s, SwitchCallback(s, network, id)), network, id, directory);
    case CallSyncNow(id) => SyncNowSame(Asked(s, OnSynced(id)), OnSynced(id));
    case TimerFired(generation) => TimerSame(s, generation);
    case JobRun(outcome) => JobSame(s, outcome);
    case CallbackReturned => ProceedGiven(s);
    case ResultDelivered(i) => DeliverGiven(s, i);
    case CallPerformAtSafePoint =>
    case CallResumeForegroundSync =>
    case CallSuspendForegroundSync =>
    case CallClose =>
  }

  lemma {:induction false} RunGiven(network: Network, events: seq<Event>)
    ensures Given(Run(network, events)) == PointsAsked(network, events)
    decreases |events|
  {
    if events != [] {
      RunGiven(network, events[..|events| - 1]);
      StepGiven(Run(network, events[..|events| - 1]), events[|events| - 1]);
    }
  }

  // ---- Main results ----

  /** Conservation: every safe point asked for while the process was not closed has
      run, waits for the synchronization, or was discarded by close; and it ran if the
      main actor is idle in a process that is not closed, with none in flight. */
  lemma RequestsConserved(network: Network, events: seq<Event>)
    ensures var s := Run(network, events);
            && |s.log.runs| + |Drain(s)| + |s.process.safePoints| + s.log.discarded == PointsAsked(network, events)
            && (MainIdle(s) && !s.process.phase.Closed? && !s.process.syncInFlight ==> |s.log.runs| == PointsAsked(network, events))
  {
    RunPoints(network, events);
    RunGiven(network, events);
    EverySafePointRuns(network, events, 0);
  }

  lemma {:induction false} AscendingAt(tickets: seq<nat>, high: nat, i: nat, j: nat)
    requires Ascending(tickets, high) && i < j < |tickets|
    ensures tickets[i] < tickets[j]
    decreases |tickets|
  {
    var last := |tickets| - 1;
    if j < last {
      AscendingAt(tickets[..last], tickets[last], i, j);
    } else if i < last - 1 {
      AscendingAt(tickets[..last], tickets[last], i, last - 1);
    }
  }

  /** Strictly increasing numbers below their count are 0, 1, 2, ... */
  lemma {:induction false} AscendingFull(tickets: seq<nat>, high: nat, i: nat)
    requires Ascending(tickets, high) && high <= |tickets| && i < |tickets|
    ensures tickets[i] == i && high == |tickets|
    decreases |tickets|
  {
    var last := |tickets| - 1;
    if last > 0 {
      AscendingFull(tickets[..last], tickets[last], if i < last then i else 0);
    }
  }

  /** In every run the deferred safe points that ran did so in the order in which
      they were deferred, each at most once; none ran after close; and one ran
      during a synchronization exactly when an earlier one of the same drain had
      started it. */
  lemma SafePointsInOrder(network: Network, events: seq<Event>, i: nat, j: nat)
    ensures var log := Run(network, events).log;
            && (i < j < |log.ran| ==> log.ran[i] < log.ran[j])
            && (forall run <- log.runs :: !run.closed && (run.syncing <==> run.restarted))
  {
    RunPoints(network, events);
    var s := Run(network, events);
    if i < j < |s.log.ran| {
      AscendingAt(s.log.ran, First(Drain(s), First(s.process.safePoints, s.log.tickets)), i, j);
    }
  }

  /** Whenever the main actor is idle in a process that is not closed and has no
      synchronization in flight, every safe point deferred so far has run: the i-th
      that ran is the i-th that was deferred, and none is missing. */
  lemma EverySafePointRuns(network: Network, events: seq<Event>, i: nat)
    ensures var s := Run(network, events);
            MainIdle(s) && !s.process.phase.Closed? && !s.process.syncInFlight ==>
              |s.log.ran| == s.log.tickets && (i < |s.log.ran| ==> s.log.ran[i] == i)
  {
    RunPoints(network, events);
    var s := Run(network, events);
    ProcessCallbacks.RunBooks(network, events);
    if MainIdle(s) && !s.process.phase.Closed? && !s.process.syncInFlight && i < |s.log.ran| {
      AscendingFull(s.log.ran, s.log.tickets, i);
    }
  }
}
