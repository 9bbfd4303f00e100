/** Which completions never run: those that wait for a preparation when close ends. */
module ProcessLosses {
  import opened Sequences
  import opened ProcessLifecycle
  import opened ProcessCallbacks

  /** The step is the end of close while c waits for a preparation. */
  predicate Loses(s: System, event: Event, c: Callback) {
    event.CallbackReturned? && s.calls != [] && s.calls[|s.calls| - 1] == Closing([])
    && s.process.phase.Preparing? && c in s.process.phase.callbacks
  }

  function LostBy(s: System, event: Event): seq<Callback> {
    if event.CallbackReturned? && s.calls != [] && s.calls[|s.calls| - 1] == Closing([]) && s.process.phase.Preparing? then
      s.process.phase.callbacks
    else []
  }

  lemma ProceedDrops(s: System)
    ensures Proceed(s).log.dropped == s.log.dropped + LostBy(s, CallbackReturned)
  {
    EmptyEnds(s.log.dropped);
    if s.calls == [] {
      assert ProceedFinishing(s).log.dropped == s.log.dropped;
    }
  }

  lemma DeliverDrops(s: System, i: nat)
    ensures Deliver(s, i).log.dropped == s.log.dropped
  {
  }

  lemma StepDrops(s: System, event: Event)
    ensures Step(s, event).log.dropped == s.log.dropped + LostBy(s, event)
  {
    EmptyEnds(s.log.dropped);
    match event
    case CallbackReturned => ProceedDrops(s);
    case ResultDelivered(i) => DeliverDrops(s, i);
    case _ =>
  }

  lemma StepLoses(s: System, event: Event, c: Callback)
    ensures c in Step(s, event).log.dropped <==> c in s.log.dropped || Loses(s, event, c)
  {
    StepDrops(s, event);
  }

  /** Some event of the run loses c. */
  ghost predicate EverLoses(network: Network, events: seq<Event>, c: Callback) {
    events != [] &&
    var before, last := events[..|events| - 1], events[|events| - 1];
    EverLoses(network, before, c) || Loses(Run(network, before), last, c)
  }

  lemma {:induction false} DroppedWhenLost(network: Network, events: seq<Event>, c: Callback)
    ensures c in Run(network, events).log.dropped <==> EverLoses(network, events, c)
    decreases |events|
  {
    if events != [] {
      DroppedWhenLost(network, events[..|events| - 1], c);
      StepLoses(Run(network, events[..|events| - 1]), events[|events| - 1], c);
    }
  }

  // ---- Main result ----

  /** At rest a completion has run less often than it was handed over if and only if
      at some point of the run close ended while it waited for a preparation. */
  lemma LostExactlyByClose(network: Network, events: seq<Event>, c: Callback)
    ensures var s := Run(network, events);
            AtRest(s) ==>
              (Times(s.log.fired, c) < Times(s.log.asked, c) <==> EverLoses(network, events, c))
  {
    CompletionsRunExactlyOnce(network, events, c);
    DroppedWhenLost(network, events, c);
  }
}
