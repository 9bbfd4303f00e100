/** At most one native proxy session is alive in any interleaving: every session
    is joined exactly once, in creation order, before the next one is created. */
module ProxySessions {
  import opened Wrappers
  import opened ProxyCoordinator
  import opened ProxySessionInvariant
  import opened ProxySessionSteps

  /** Sessions created and not yet joined. */
  function Alive(l: Life): int {
    |l.startedFor| - |l.joined|
  }

  lemma {:induction false} InOrderAt(joined: seq<nat>, i: nat)
    requires InOrder(joined) && i < |joined|
    ensures joined[i] == i
    decreases |joined|
  {
    if i < |joined| - 1 {
      InOrderAt(joined[..|joined| - 1], i);
    }
  }

  /** In every run: at most one session is alive, the joined ones are exactly
      sessions 0, 1, 2, ... each once, and the next start to run finds none alive. */
  lemma AtMostOneSession(events: seq<(Event, Env)>)
    requires Unwrapped(events)
    ensures var l := Run(events).life;
            && 0 <= Alive(l) <= 1
            && (forall i :: 0 <= i < |l.joined| ==> l.joined[i] == i)
            && (l.worker.Waiting? && l.queue != [] && l.queue[0].Start? ==> Alive(l) == 0)
  {
    var place := RunSound(events);
    var l := Run(events).life;
    forall i | 0 <= i < |l.joined| ensures l.joined[i] == i {
      InOrderAt(l.joined, i);
    }
  }

  /** The places of session s: published, held by the worker, queued for joining,
      joined. */
  function Holders(l: Life, s: nat): (r: nat) {
    (if l.activeProxy == Some(s) then 1 else 0) +
    (if (l.worker.Created? && l.worker.session == s) || l.worker == Delivered(s, false) then 1 else 0) +
    Joins(l.queue, s) + JoinedTimes(l.joined, s)
  }

  function Joins(queue: seq<Job>, s: nat): nat {
    if queue == [] then 0 else (if queue[0] == Join(s) then 1 else 0) + Joins(queue[1..], s)
  }

  function JoinedTimes(joined: seq<nat>, s: nat): nat {
    if joined == [] then 0 else JoinedTimes(joined[..|joined| - 1], s) + if joined[|joined| - 1] == s then 1 else 0
  }

  lemma {:induction false} NoJoins(queue: seq<Job>, low: nat, high: nat, s: nat)
    requires Increasing(queue, low, high)
    ensures Joins(queue, s) == 0
    decreases |queue|
  {
    if queue != [] {
      NoJoins(queue[1..], queue[0].epoch, high, s);
    }
  }

  lemma {:induction false} JoinedOnce(joined: seq<nat>, s: nat)
    requires InOrder(joined)
    ensures JoinedTimes(joined, s) == if s < |joined| then 1 else 0
    decreases |joined|
  {
    if joined != [] {
      JoinedOnce(joined[..|joined| - 1], s);
    }
  }

  /** Conservation: every created session is in exactly one place, and no other
      session is anywhere. */
  lemma SessionsConserved(events: seq<(Event, Env)>, s: nat)
    requires Unwrapped(events)
    ensures var l := Run(events).life;
            Holders(l, s) == if s < |l.startedFor| then 1 else 0
  {
    var place := RunSound(events);
    var m, l := Run(events).machine, Run(events).life;
    JoinedOnce(l.joined, s);
    if place.Retired? {
      NoJoins(l.queue[1..], 0, m.epoch, s);
    } else if !place.Published? {
      NoJoins(l.queue, if l.worker.Created? then l.worker.epoch else 0, m.epoch, s);
    }
  }

  /** Agreement: a session is published exactly while the machine is active; it is
      the one started for that epoch, it is alive, and its scope is the active one. */
  lemma PublishedSessionAgrees(events: seq<(Event, Env)>)
    requires Unwrapped(events)
    ensures var c := Run(events);
            && (c.life.activeProxy.Some? <==> c.machine.phase.Active?)
            && (c.machine.phase.Active? ==>
                  && |c.life.joined| == c.life.activeProxy.value < |c.life.startedFor|
                  && c.life.startedFor[c.life.activeProxy.value] == Started(c.machine.phase.epoch, c.machine.phase.scope)
                  && c.machine.phase.epoch == c.machine.epoch
                  && c.life.activeScope == Some(c.machine.phase.scope))
  {
    var place := RunSound(events);
  }

  lemma {:induction false} BackedAt(loaded: seq<Load>, started: seq<Started>, i: nat)
    requires Backed(loaded, started) && i < |loaded|
    ensures loaded[i].session < |started| && loaded[i].joined == loaded[i].session
    ensures started[loaded[i].session] == Started(loaded[i].epoch, loaded[i].destinationScope)
    decreases |loaded|
  {
    if i < |loaded| - 1 {
      BackedAt(loaded[..|loaded| - 1], started, i);
    }
  }

  /** Every load of every run went through the one session alive: that session was
      created by the start for the load's epoch and destination scope, and when the
      load happened exactly the sessions before it had been joined. */
  lemma LoadsUseTheirSession(events: seq<(Event, Env)>, i: nat)
    requires Unwrapped(events) && i < |Run(events).nav.loaded|
    ensures var load, started := Run(events).nav.loaded[i], Run(events).life.startedFor;
            && load.session < |started| && started[load.session] == Started(load.epoch, load.destinationScope)
            && load.joined == load.session
  {
    var place := RunSound(events);
    BackedAt(Run(events).nav.loaded, Run(events).life.startedFor, i);
  }
}
