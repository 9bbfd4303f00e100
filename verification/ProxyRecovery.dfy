/** The recovery budget: between two resets at most two proxy and WebView
    rotations happen, however failures, redirects and delayed callbacks mix. */
module ProxyRecovery {
  import opened ProxyCoordinator
  import opened ProxyRecoverySteps

  /** In every run: the replay count is the number of suppressed navigations and
      at most two, and at most that many rotations happened since the last reset;
      once they are used up no scheduled recovery can rotate again. */
  lemma RecoveryIsBounded(events: seq<(Event, Env)>, i: nat, env: Env)
    requires Unwrapped(events)
    ensures var c := Run(events);
            && c.recovery.rotations <= c.recovery.replayCount == |c.recovery.suppressed| <= 2
            && (i < |c.nav.tasks| && c.recovery.rotations == c.recovery.replayCount ==>
                  Rotate(c, c.nav.tasks[i], env) == c)
  {
    RunWithin(events);
    var c := Run(events);
    if i < |c.nav.tasks| {
      assert c.nav.tasks[i] in c.nav.tasks;
    }
  }
}
