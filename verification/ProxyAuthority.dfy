/** The authority gate: as long as the handshake authority is not ready, only hosts
    that may be browsed during the header sync are loaded, through the bootstrap
    proxy; once it is ready, everything is loaded through the whole-browser proxy. */
module ProxyAuthority {
  import opened ProxyCoordinator
  import opened ProxySessions
  import opened ProxyAuthorityGate
  import opened ProxyAuthoritySteps

  lemma {:induction false} LoadDueAt(loaded: seq<Load>, i: nat)
    requires LoadsDue(loaded) && i < |loaded|
    ensures loaded[i].destinationScope == Expected(loaded[i].ready)
    decreases |loaded|
  {
    if i < |loaded| - 1 {
      LoadDueAt(loaded[..|loaded| - 1], i);
    }
  }

  /** In every run, whatever was loaded while the handshake authority was not ready
      was for the bootstrap scope and everything else for the whole-browser scope;
      and whenever a WebView is shown, what it shows and the active proxy are those
      the authority now allows. */
  lemma AuthorityGatesLoads(events: seq<(Event, Env)>, i: nat)
    ensures var c := Run(events);
            && (i < |c.nav.loaded| ==> c.nav.loaded[i].destinationScope == Expected(c.nav.loaded[i].ready))
            && (c.nav.webView.Some? ==>
                  && c.machine.phase.Active? && c.machine.phase.scope == Expected(c.nav.ready)
                  && c.nav.last.Some? && c.nav.last.value.destination.scope == Expected(c.nav.ready))
  {
    RunGate(events);
    if i < |Run(events).nav.loaded| {
      LoadDueAt(Run(events).nav.loaded, i);
    }
  }

  /** The gate is a matter of native sessions, not only of scopes: the session every
      load went through was started as the proxy the authority allowed just then. */
  lemma AuthorityGatesSessions(events: seq<(Event, Env)>, i: nat)
    requires Unwrapped(events) && i < |Run(events).nav.loaded|
    ensures var load, started := Run(events).nav.loaded[i], Run(events).life.startedFor;
            load.session < |started| && started[load.session] == Started(load.epoch, Expected(load.ready))
  {
    AuthorityGatesLoads(events, i);
    LoadsUseTheirSession(events, i);
  }
}
