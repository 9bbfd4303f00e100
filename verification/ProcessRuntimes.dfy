/** Runtime ownership: every runtime built is in one place and closed at most once. */
module ProcessRuntimes {
  import opened ProcessLifecycle
  import opened ProcessOwnership
  import opened ProcessOwnershipSteps

  /** In every run, with methods called again from callbacks: every runtime built is
      in exactly one place, so it is closed at most once and never while owned; no
      other runtime is anywhere; and the current network is the owned runtime's. */
  lemma RuntimesConserved(network: Network, events: seq<Event>, r: nat)
    ensures var s := Run(network, events);
            && Places(s, r) == (if r < |s.networks| then 1 else 0)
            && multiset(s.closed)[r] <= 1
            && (s.process.phase.Ready? || s.process.phase.Switching? ==>
                  var owned := s.process.phase.runtime;
                  owned < |s.networks| && owned !in s.closed && s.networks[owned] == s.process.network)
  {
    var s := Run(network, events);
    RunOwned(network, events, r);
    if s.process.phase.Ready? || s.process.phase.Switching? {
      RunOwned(network, events, s.process.phase.runtime);
    }
  }

  /** Besides the owned one, at most one runtime is neither closed nor queued for
      closing: that of the one preparation or switch the process waits for. */
  lemma OneBuildAtATime(network: Network, events: seq<Event>)
    ensures var s := Run(network, events);
            && Building(s) <= 1
            && (s.process.phase.Preparing? || s.process.phase.Switching? ==> Building(s) == 1)
            && (s.process.phase.Idle? || s.process.phase.Ready? || s.process.phase.Failed? ==> Building(s) == 0)
  {
    RunOwned(network, events, 0);
  }

  /** The switch is a transaction: when its result arrives while the process waits
      for it, the process owns the new runtime on the new network or, if the build
      failed, the old runtime on the old network. */
  lemma SwitchIsTransaction(network: Network, events: seq<Event>, i: nat)
    ensures var s := Run(network, events);
            MainIdle(s) && s.process.phase.Switching? && i < |s.posted| && !s.posted[i].Synced? ==>
              && s.posted[i].Switched? && s.posted[i].previous == s.process.phase.runtime
              && var t, result := Deliver(s, i), s.posted[i].result;
                 t.process.phase == Ready(if result.Some? then result.value else s.process.phase.runtime)
                 && t.process.network == (if result.Some? then s.posted[i].network else s.process.network)
                 && (result.Some? ==> CloseRuntime(s.process.phase.runtime) in t.queue)
                 && !t.process.switchInFlight
  {
    RunOwned(network, events, 0);
    var s := Run(network, events);
    if MainIdle(s) && s.process.phase.Switching? && i < |s.posted| && !s.posted[i].Synced? {
      assert PostedFits(s.process, InClose(s.calls), s.networks, s.posted[i]);
    }
  }
}
