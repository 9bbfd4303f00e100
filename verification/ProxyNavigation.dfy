/** A request that is not safe to replay is loaded at most once for each time it
    is handed to the coordinator, and every load uses the scope that is active. */
module ProxyNavigation {
  import opened ProxyCoordinator
  import opened ProxyLoadAccounts
  import opened ProxyNavigationSteps
  import opened ProxySessions

  /** Through suspension, authority changes, renderer death and failure recovery,
      an unsafe request is loaded at most as often as it was handed to `enqueue`;
      while it is pending it has been loaded less often than that. */
  lemma UnsafeLoadedAtMostOnce(events: seq<(Event, Env)>, r: Request)
    requires !Replayable(r)
    ensures var n := Run(events).nav;
            Loads(n.loaded, r) + (if IsPending(n, r) then 1 else 0) <= HandedOver(events, r)
  {
    RunPaid(events, r);
  }

  lemma {:induction false} LoadScopesAgree(loaded: seq<Load>, i: nat)
    requires ScopesAgree(loaded) && i < |loaded|
    ensures loaded[i].destinationScope == loaded[i].activeScope
    decreases |loaded|
  {
    if i < |loaded| - 1 {
      LoadScopesAgree(loaded[..|loaded| - 1], i);
    }
  }

  /** Every load has the destination scope equal to the active scope, and the session
      it went through, the only one alive just then, was started for that scope. */
  lemma LoadsUseActiveScope(events: seq<(Event, Env)>, i: nat)
    requires i < |Run(events).nav.loaded|
    ensures var load, started := Run(events).nav.loaded[i], Run(events).life.startedFor;
            && load.destinationScope == load.activeScope
            && (Unwrapped(events) ==>
                  && load.session < |started| && started[load.session] == Started(load.epoch, load.activeScope)
                  && load.joined == load.session)
  {
    RunPaid(events, Request(0, "", Get));
    LoadScopesAgree(Run(events).nav.loaded, i);
    if Unwrapped(events) {
      LoadsUseTheirSession(events, i);
    }
  }
}
