/** A synchronization never runs on a closed runtime, as long as no preparation
    observer gives the runtime up between the start and the queueing of the job. */
module ProcessOrder {
  import opened Wrappers
  import opened Sums
  import opened ProcessLifecycle
  import opened ProcessOwnership
  import opened ProcessOwnershipSteps

  /** No synchronization of r is queued behind its closing. */
  predicate Ordered(queue: seq<Job>, r: nat, closed: bool) {
    queue != [] ==>
      && (queue[0] == SyncOnce(r) ==> !closed)
      && Ordered(queue[1..], r, closed || queue[0] == CloseRuntime(r))
  }

  lemma {:induction false} OrderedAppend(queue: seq<Job>, r: nat, closed: bool, job: Job)
    requires Ordered(queue, r, closed)
    requires job == SyncOnce(r) ==> !closed && Sum(queue, ClosesOf(r)) == 0
    ensures Ordered(queue + [job], r, closed)
    decreases |queue|
  {
    if queue != [] {
      assert (queue + [job])[1..] == queue[1..] + [job];
      OrderedAppend(queue[1..], r, closed || queue[0] == CloseRuntime(r), job);
    } else {
      assert (queue + [job])[1..] == [];
    }
  }

  lemma {:induction false} NoneOrdered(queue: seq<Job>, r: nat, closed: bool)
    requires SyncOnce(r) !in queue
    ensures Ordered(queue, r, closed)
    decreases |queue|
  {
    if queue != [] {
      assert queue[0] in queue;
      NoneOrdered(queue[1..], r, closed || queue[0] == CloseRuntime(r));
    }
  }

  /** Every synchronization of r is queued before its closing, and none before r
      was built. */
  ghost predicate InTime(s: System, r: nat) {
    Ordered(s.queue, r, r in s.closed) && (r >= |s.networks| ==> SyncOnce(r) !in s.queue)
  }

  /** When a preparation observer returns, the process still owns the runtime whose
      synchronization it announced. */
  predicate ObserverKeepsRuntime(s: System, event: Event) {
    event.CallbackReturned? && s.calls != [] && s.calls[|s.calls| - 1].StartingSync? ==>
      Owner(s.process.phase, s.calls[|s.calls| - 1].runtime) == 1
  }

  ghost predicate ObserversKeepRuntimes(network: Network, events: seq<Event>) {
    events != [] ==>
      && ObserversKeepRuntimes(network, events[..|events| - 1])
      && ObserverKeepsRuntime(Run(network, events[..|events| - 1]), events[|events| - 1])
  }

  /** Apart from the worker, a step leaves the queue alone or adds one job, and it
      only adds synchronizations of the owned runtime. */
  predicate AddsAtMostOne(s: System, t: System) {
    && t.closed == s.closed && t.networks == s.networks
    && (t.queue == s.queue ||
        (|t.queue| == |s.queue| + 1 && t.queue == s.queue + [t.queue[|s.queue|]]
         && var job := t.queue[|s.queue|]; job.SyncOnce? ==> Owner(s.process.phase, job.runtime) == 1))
  }

  lemma ProceedAdds(s: System)
    requires ObserverKeepsRuntime(s, CallbackReturned)
    ensures AddsAtMostOne(s, Proceed(s))
  {
  }

  lemma DeliverAdds(s: System, i: nat)
    ensures AddsAtMostOne(s, Deliver(s, i))
  {
  }

  lemma SwitchNetworkAdds(s: System, network: Network, id: nat, directory: bool)
    ensures AddsAtMostOne(s, SwitchNetwork(s, network, id, directory))
  {
  }

  lemma StepAdds(s: System, event: Event)
    requires !event.JobRun? && ObserverKeepsRuntime(s, event)
    ensures AddsAtMostOne(s, Step(s, event))
  {
    match event
    case CallSwitchNetwork(network, id, directory) =>
      SwitchNetworkAdds(Asked(s, SwitchCallback(s, network, id)), network, id, directory);
    case CallbackReturned => ProceedAdds(s);
    case ResultDelivered(i) => DeliverAdds(s, i);
    case _ =>
  }

  lemma RunJobInTime(s: System, outcome: BuildOutcome, r: nat)
    requires Owned(s, r) && InTime(s, r)
    ensures InTime(RunJob(s, outcome), r)
  {
    if s.queue != [] && r == |s.networks| {
      assert SyncOnce(r) !in s.queue[1..];
      NoneOrdered(s.queue[1..], r, true);
    }
  }

  lemma StepInTime(s: System, event: Event, r: nat)
    requires Owned(s, r) && InTime(s, r) && ObserverKeepsRuntime(s, event)
    ensures InTime(Step(s, event), r)
  {
    var t := Step(s, event);
    if event.JobRun? {
      RunJobInTime(s, event.outcome, r);
    } else {
      StepAdds(s, event);
      if t.queue != s.queue {
        OrderedAppend(s.queue, r, r in s.closed, t.queue[|s.queue|]);
      }
    }
  }

  lemma {:induction false} RunInTime(network: Network, events: seq<Event>, r: nat)
    requires ObserversKeepRuntimes(network, events)
    ensures InTime(Run(network, events), r)
    decreases |events|
  {
    if events != [] {
      RunInTime(network, events[..|events| - 1], r);
      RunOwned(network, events[..|events| - 1], r);
      StepInTime(Run(network, events[..|events| - 1]), events[|events| - 1], r);
    }
  }

  // ---- Main result ----

  /** The synchronization the worker is about to run is of a runtime that is open. */
  lemma NoSyncAfterClose(network: Network, events: seq<Event>)
    requires ObserversKeepRuntimes(network, events)
    ensures var s := Run(network, events);
            s.queue != [] && s.queue[0].SyncOnce? ==> s.queue[0].runtime !in s.closed
  {
    var s := Run(network, events);
    if s.queue != [] && s.queue[0].SyncOnce? {
      RunInTime(network, events, s.queue[0].runtime);
    }
  }

  // ---- Exactly when one does ----

  /** Once announced, r is not on its way to the main actor any more. */
  ghost predicate PastDelivery(s: System, r: nat) {
    StartingSync(r) in s.calls ==> r < |s.networks| && Sum(s.posted, ResultsOf(r)) == 0
  }

  lemma RunJobPosts(s: System, outcome: BuildOutcome, r: nat)
    requires r < |s.networks|
    ensures |s.networks| <= |RunJob(s, outcome).networks|
    ensures Sum(RunJob(s, outcome).posted, ResultsOf(r)) == Sum(s.posted, ResultsOf(r))
  {
    if s.queue != [] && !s.queue[0].CloseRuntime? {
      SumAppend(s.posted, RunJob(s, outcome).posted[|s.posted|], ResultsOf(r));
    }
  }

  lemma DeliverPosts(s: System, i: nat, r: nat)
    ensures |s.networks| == |Deliver(s, i).networks|
    ensures Sum(Deliver(s, i).posted, ResultsOf(r)) <= Sum(s.posted, ResultsOf(r))
  {
    DeliverAdds(s, i);
    if MainIdle(s) && i < |s.posted| {
      SumRemove(s.posted, i, ResultsOf(r));
    }
  }

  /** No result is posted for a runtime built before. */
  lemma StepPosts(s: System, event: Event, r: nat)
    requires r < |s.networks|
    ensures |s.networks| <= |Step(s, event).networks|
    ensures Sum(Step(s, event).posted, ResultsOf(r)) <= Sum(s.posted, ResultsOf(r))
  {
    match event
    case JobRun(outcome) => RunJobPosts(s, outcome, r);
    case ResultDelivered(i) => DeliverPosts(s, i, r);
    case _ =>
  }

  lemma ProceedAnnounces(s: System, r: nat)
    ensures StartingSync(r) in Proceed(s).calls ==> StartingSync(r) in s.calls
  {
  }

  /** Only the owned runtime's synchronization is newly announced. */
  lemma StepAnnounces(s: System, event: Event, r: nat)
    requires StartingSync(r) in Step(s, event).calls && StartingSync(r) !in s.calls
    ensures Owner(s.process.phase, r) == 1
  {
    if event.CallbackReturned? {
      ProceedAnnounces(s, r);
    }
  }

  lemma StepPastDelivery(s: System, event: Event, r: nat)
    requires Owned(s, r) && PastDelivery(s, r)
    ensures PastDelivery(Step(s, event), r)
  {
    if StartingSync(r) in Step(s, event).calls {
      if StartingSync(r) !in s.calls {
        StepAnnounces(s, event, r);
      }
      StepPosts(s, event, r);
    }
  }

  lemma {:induction false} RunPastDelivery(network: Network, events: seq<Event>, r: nat)
    ensures PastDelivery(Run(network, events), r)
    decreases |events|
  {
    if events != [] {
      RunPastDelivery(network, events[..|events| - 1], r);
      RunOwned(network, events[..|events| - 1], r);
      StepPastDelivery(Run(network, events[..|events| - 1]), events[|events| - 1], r);
    }
  }

  /** The event queues a synchronization of r. */
  predicate Queues(s: System, event: Event, r: nat) {
    !event.JobRun? && Step(s, event).queue == s.queue + [SyncOnce(r)]
  }

  lemma ObserverQueues(s: System, event: Event)
    requires !ObserverKeepsRuntime(s, event)
    ensures Step(s, event).queue == s.queue + [SyncOnce(s.calls[|s.calls| - 1].runtime)]
  {
  }

  /** A synchronization is queued for the owned runtime, or by an observer that did
      not keep the one it was announced for. */
  lemma ObserverDecides(s: System, event: Event, r: nat)
    requires Queues(s, event, r)
    ensures ObserverKeepsRuntime(s, event) <==> Owner(s.process.phase, r) == 1
    ensures ObserverKeepsRuntime(s, event) || StartingSync(r) in s.calls
  {
    var job := Step(s, event).queue[|s.queue|];
    assert job == SyncOnce(r);
    if ObserverKeepsRuntime(s, event) {
      StepAdds(s, event);
    } else {
      ObserverQueues(s, event);
    }
  }

  /** A synchronization of r is `ahead` jobs from the head, and its runtime will be
      open when it gets there if and only if `open`. */
  ghost predicate Behind(s: System, ahead: nat, r: nat, open: bool) {
    && ahead < |s.queue| && s.queue[ahead] == SyncOnce(r) && r < |s.networks|
    && (open <==> r !in s.closed && CloseRuntime(r) !in s.queue[..ahead])
  }

  lemma {:induction false} NoCloses(queue: seq<Job>, r: nat)
    ensures Sum(queue, ClosesOf(r)) == 0 <==> CloseRuntime(r) !in queue
    decreases |queue|
  {
    if queue != [] {
      NoCloses(queue[1..], r);
      assert queue == [queue[0]] + queue[1..];
    }
  }

  lemma QueuedBehind(s: System, event: Event, r: nat)
    requires Owned(s, r) && PastDelivery(s, r) && Queues(s, event, r)
    ensures Behind(Step(s, event), |s.queue|, r, Owner(s.process.phase, r) == 1)
  {
    var t := Step(s, event);
    ObserverDecides(s, event, r);
    NoCloses(s.queue, r);
    Unaffected(s, event);
    assert t.queue[..|s.queue|] == s.queue;
  }

  /** Only the worker closes runtimes or takes jobs. */
  lemma Unaffected(s: System, event: Event)
    requires !event.JobRun?
    ensures Step(s, event).closed == s.closed && Step(s, event).networks == s.networks
    ensures s.queue <= Step(s, event).queue
  {
    match event
    case CallbackReturned => ProceedUnaffected(s);
    case ResultDelivered(i) => DeliverAdds(s, i);
    case CallSwitchNetwork(network, id, directory) =>
      SwitchNetworkAdds(Asked(s, SwitchCallback(s, network, id)), network, id, directory);
    case _ =>
  }

  lemma ProceedUnaffected(s: System)
    ensures Proceed(s).closed == s.closed && Proceed(s).networks == s.networks && s.queue <= Proceed(s).queue
  {
  }

  lemma QuietBehind(s: System, event: Event, ahead: nat, r: nat, open: bool)
    requires Behind(s, ahead, r, open) && !event.JobRun?
    ensures Behind(Step(s, event), ahead, r, open)
  {
    Unaffected(s, event);
    assert Step(s, event).queue[..ahead] == s.queue[..ahead];
  }

  lemma RunJobBehind(s: System, outcome: BuildOutcome, ahead: nat, r: nat, open: bool)
    requires Behind(s, ahead, r, open) && ahead > 0
    ensures Behind(RunJob(s, outcome), ahead - 1, r, open)
  {
    assert s.queue[..ahead] == [s.queue[0]] + s.queue[1..][..ahead - 1];
  }

  lemma StepBehind(s: System, event: Event, ahead: nat, left: nat, r: nat, open: bool)
    requires Behind(s, ahead, r, open) && ahead == left + if event.JobRun? then 1 else 0
    ensures Behind(Step(s, event), left, r, open)
  {
    if event.JobRun? {
      RunJobBehind(s, event.outcome, ahead, r, open);
    } else {
      QuietBehind(s, event, ahead, r, open);
    }
  }

  /** How many jobs the worker ran. */
  function JobsRun(events: seq<Event>): nat {
    if events == [] then 0
    else JobsRun(events[..|events| - 1]) + if events[|events| - 1].JobRun? then 1 else 0
  }

  lemma {:induction false} OnwardBehind(s: System, more: seq<Event>, ahead: nat, left: nat, r: nat, open: bool)
    requires Behind(s, ahead, r, open) && ahead == left + JobsRun(more)
    ensures Behind(Onward(s, more), left, r, open)
    decreases |more|
  {
    if more != [] {
      var before, last := more[..|more| - 1], more[|more| - 1];
      var between := left + if last.JobRun? then 1 else 0;
      OnwardBehind(s, before, ahead, between, r, open);
      StepBehind(Onward(s, before), last, between, left, r, open);
    }
  }

  /** The synchronization comes next when the jobs before it have run. */
  lemma ReachesHead(s: System, more: seq<Event>, r: nat, open: bool)
    requires Behind(s, JobsRun(more), r, open)
    ensures var end := Onward(s, more);
            end.queue != [] && end.queue[0] == SyncOnce(r) && (r in end.closed <==> !open)
  {
    OnwardBehind(s, more, JobsRun(more), 0, r, open);
    HeadBehind(Onward(s, more), r, open);
  }

  lemma HeadBehind(s: System, r: nat, open: bool)
    requires Behind(s, 0, r, open)
    ensures s.queue != [] && s.queue[0] == SyncOnce(r) && (r in s.closed <==> !open)
  {
    assert s.queue[..0] == [];
  }

  lemma QueuedBehindInRun(network: Network, before: seq<Event>, event: Event, r: nat)
    requires Queues(Run(network, before), event, r)
    ensures var s := Run(network, before);
            && Behind(Step(s, event), |s.queue|, r, ObserverKeepsRuntime(s, event))
            && (ObserverKeepsRuntime(s, event) <==> Owner(s.process.phase, r) == 1)
  {
    RunOwned(network, before, r);
    RunPastDelivery(network, before, r);
    QueuedBehind(Run(network, before), event, r);
    ObserverDecides(Run(network, before), event, r);
  }

  /** In every run, for every event that queues a synchronization of r: however the
      run goes on, when the worker has run the jobs queued before it that
      synchronization is next, and its runtime is closed by then if and only if the
      process did not own r any more when it was queued, which happens exactly when
      a preparation observer gave it up. */
  lemma SyncMeetsClosedRuntime(network: Network, before: seq<Event>, event: Event, more: seq<Event>, r: nat)
    requires Queues(Run(network, before), event, r)
    requires JobsRun(more) == |Run(network, before).queue|
    ensures var s, end := Run(network, before), Run(network, before + [event] + more);
            && end.queue != [] && end.queue[0] == SyncOnce(r)
            && (r in end.closed <==> Owner(s.process.phase, r) == 0)
            && (r in end.closed <==> !ObserverKeepsRuntime(s, event))
  {
    var s := Run(network, before);
    QueuedBehindInRun(network, before, event, r);
    ReachesHead(Step(s, event), more, r, ObserverKeepsRuntime(s, event));
    RunNext(network, before, event);
    RunOnward(network, before + [event], more);
  }

  // ---- An observer that closes the process ----

  /** One runtime is open, and its preparation observer is running. */
  function Announced(s: System): System {
    s.(process := s.process.(phase := Ready(0), completions := [], safePoints := []),
       calls := [StartingSync(0)], queue := [], networks := [Mainnet], closed := [])
  }

  lemma ClosedByObserver(s: System)
    ensures var closing := Step(Announced(s), CallClose);
            var closed := Step(closing, CallbackReturned);
            var returned := Step(closed, CallbackReturned);
            && returned.queue == [CloseRuntime(0), SyncOnce(0)]
            && var t := Step(returned, JobRun(NotBuilt));
               t.queue == [SyncOnce(0)] && 0 in t.closed
  {
    var closing := Step(Announced(s), CallClose);
    assert closing.calls == [StartingSync(0), Closing([])];
    assert Popped(closing).calls == [StartingSync(0)];
    var closed := Step(closing, CallbackReturned);
    assert closed.calls == [StartingSync(0)] && closed.queue == [CloseRuntime(0)] && closed.closed == [];
  }

  function Opened(p: Process, calls: seq<Call>, log: Log): System {
    Initial(Mainnet).(process := p.(phase := Ready(0)), calls := calls, networks := [Mainnet], log := log)
  }

  lemma Preparation()
    ensures var s := Run(Mainnet, [CallPrepare(0, true), JobRun(Built), ResultDelivered(0), CallbackReturned, CallbackReturned]);
            s == Opened(Initial(Mainnet).process, [], s.log)
  {
    RunFive(Mainnet, CallPrepare(0, true), JobRun(Built), ResultDelivered(0), CallbackReturned, CallbackReturned);
    FirstBuild();
    FirstReport(Step(Step(Initial(Mainnet), CallPrepare(0, true)), JobRun(Built)).log);
  }

  function JustBuilt(log: Log): System {
    Initial(Mainnet).(process := Initial(Mainnet).process.(phase := Preparing([OnPrepared(0)])),
                      posted := [Prepared(Mainnet, Some(0))], networks := [Mainnet], log := log)
  }

  lemma FirstBuild()
    ensures var s := Step(Step(Initial(Mainnet), CallPrepare(0, true)), JobRun(Built));
            s == JustBuilt(s.log)
  {
    var s := Step(Initial(Mainnet), CallPrepare(0, true));
    assert s.queue == [BuildForPreparation(Mainnet)] && s.queue[1..] == [];
  }

  lemma FirstReport(log: Log)
    ensures var s := Step(Step(Step(JustBuilt(log), ResultDelivered(0)), CallbackReturned), CallbackReturned);
            s == Opened(Initial(Mainnet).process, [], s.log)
  {
    var p, c := Initial(Mainnet).process, OnPrepared(0);
    var s3 := Step(JustBuilt(log), ResultDelivered(0));
    assert s3 == Opened(p, [Reporting([c], true)], log);
    var s4 := Step(s3, CallbackReturned);
    assert Popped(s3).calls == [] && [c][1..] == [];
    assert s4 == Opened(p, [Reporting([], true)], s4.log);
    assert Popped(s4).calls == [];
  }

  /** An observer that closes the process: the run ends with the synchronization of
      the first runtime next, and that runtime closed. */
  lemma ObserverCanCloseItsRuntime() returns (events: seq<Event>)
    ensures var s := Run(Mainnet, events);
            s.queue == [SyncOnce(0)] && 0 in s.closed
  {
    var prepared := [CallPrepare(0, true), JobRun(Built), ResultDelivered(0), CallbackReturned, CallbackReturned];
    var resumed := prepared + [CallResumeForegroundSync];
    var announced := resumed + [TimerFired(1)];
    var closing := announced + [CallClose];
    var closed := closing + [CallbackReturned];
    var returned := closed + [CallbackReturned];
    events := returned + [JobRun(NotBuilt)];
    Preparation();
    RunNext(Mainnet, prepared, CallResumeForegroundSync);
    RunNext(Mainnet, resumed, TimerFired(1));
    assert Run(Mainnet, announced).calls == [StartingSync(0)];
    assert Run(Mainnet, announced) == Announced(Run(Mainnet, announced));
    ClosedByObserver(Run(Mainnet, announced));
    RunNext(Mainnet, announced, CallClose);
    RunNext(Mainnet, closing, CallbackReturned);
    RunNext(Mainnet, closed, CallbackReturned);
    RunNext(Mainnet, returned, JobRun(NotBuilt));
  }
}
