/** What an attempt comes to, and what becomes of its lease and of the service. */
module OneShotOutcomes {
  import opened Wrappers
  import opened Sums
  import opened Sequences
  import opened OneShotAuthority

  // ---- One attempt, with nothing of others in between ----

  /** An attempt from its first reading of the facts to its result. */
  function WholeAttempt(w: World, selection: Selection, wallet: Wallet, before: Facts, granted: Option<nat>, after: Facts,
                        invocations: seq<Invocation>, guardSucceeded: bool): World
  {
    var a := |w.attempts|;
    var asked := Step(Step(w, Began(selection, wallet, before)), Acquired(a, granted));
    Consumption(Step(asked, Rechecked(a, after)), a, invocations, guardSucceeded)
  }

  predicate GateOpen(selection: Selection, wallet: Wallet, facts: Facts) {
    Eligible(selection, wallet) && facts == OpenFacts(selection, wallet)
  }

  /** The attempt gets hold of a lease that still retains the service. */
  predicate Obtains(w: World, selection: Selection, wallet: Wallet, before: Facts, granted: Option<nat>) {
    GateOpen(selection, wallet, before) && granted.Some? && granted.value < |w.leases| && w.leases[granted.value]
  }

  /** And through it the service's one use. */
  predicate TakesTheUse(w: World, selection: Selection, wallet: Wallet, before: Facts, granted: Option<nat>, after: Facts) {
    && Obtains(w, selection, wallet, before, granted) && GateOpen(selection, wallet, after)
    && w.selection == selection && w.wallet == wallet && w.useAvailable
  }

  /** Only the first invocation can run the operation. */
  predicate Operates(selection: Selection, wallet: Wallet, invocations: seq<Invocation>) {
    invocations != [] && GateOpen(selection, wallet, invocations[0].facts)
  }

  lemma {:induction false} InvocationsOutcome(w: World, a: nat, invocations: seq<Invocation>)
    requires a < |w.attempts| && w.attempts[a].stage == Guarded(false, false, false)
    ensures var after := AfterInvocations(w, a, invocations);
            var t := w.attempts[a];
            var operates := Operates(t.selection, t.wallet, invocations);
            && after == w.(attempts := after.attempts) && |after.attempts| == |w.attempts|
            && after.attempts[a].stage == Guarded(invocations != [], false, operates && invocations[0].answer)
            && after.attempts[a].runs == t.runs + (if operates then 1 else 0)
            && after.attempts[a].selection == t.selection && after.attempts[a].wallet == t.wallet
    decreases |invocations|
  {
    if invocations != [] {
      var init, last := invocations[..|invocations| - 1], invocations[|invocations| - 1];
      InvocationsOutcome(w, a, init);
      GateIsOneReading(w.attempts[a].selection, w.attempts[a].wallet, last.facts);
    }
  }

  lemma {:induction false} InvocationsSpareOthers(w: World, a: nat, invocations: seq<Invocation>, b: nat)
    requires a < |w.attempts| && b < |w.attempts| && a != b
    ensures var after := AfterInvocations(w, a, invocations);
            |after.attempts| == |w.attempts| && after.attempts[b] == w.attempts[b]
    decreases |invocations|
  {
    if invocations != [] {
      InvocationsSpareOthers(w, a, invocations[..|invocations| - 1], b);
    }
  }

  /** Up to the recheck: the attempt goes on if the gate was open both times and a
      lease was granted; a live lease is discarded if only the recheck failed. */
  lemma RecheckOutcome(w: World, selection: Selection, wallet: Wallet, before: Facts, granted: Option<nat>, after: Facts)
    ensures var a := |w.attempts|;
            var asked := Step(Step(w, Began(selection, wallet, before)), Acquired(a, granted));
            var checked := Step(asked, Rechecked(a, after));
            var fails := Obtains(w, selection, wallet, before, granted) && !GateOpen(selection, wallet, after);
            && |checked.attempts| == a + 1 && checked.attempts[..a] == w.attempts
            && checked.selection == w.selection && checked.wallet == w.wallet
            && checked.attempts[a].runs == 0 && checked.attempts[a].selection == selection && checked.attempts[a].wallet == wallet
            && checked.attempts[a].stage ==
                 (if GateOpen(selection, wallet, before) && granted.Some? && GateOpen(selection, wallet, after) then
                    Consuming(granted.value, wallet)
                  else Done(false))
            && checked.leases == (if fails then w.leases[granted.value := false] else w.leases)
            && checked.useAvailable == (w.useAvailable && !fails)
  {
    GateIsOneReading(selection, wallet, before);
    GateIsOneReading(selection, wallet, after);
  }

  /** Up to the guard: whether the use is taken, and what becomes of the lease. */
  lemma ClaimOutcome(w: World, selection: Selection, wallet: Wallet, before: Facts, granted: Option<nat>, after: Facts)
    ensures var a := |w.attempts|;
            var asked := Step(Step(w, Began(selection, wallet, before)), Acquired(a, granted));
            var claimed := Step(Step(Step(asked, Rechecked(a, after)), Consumed(a)), Claimed(a));
            var obtains := Obtains(w, selection, wallet, before, granted);
            && |claimed.attempts| == a + 1 && claimed.attempts[..a] == w.attempts
            && claimed.attempts[a].runs == 0 && claimed.attempts[a].selection == selection && claimed.attempts[a].wallet == wallet
            && claimed.attempts[a].stage ==
                 (if TakesTheUse(w, selection, wallet, before, granted, after) then Guarded(false, false, false) else Done(false))
            && claimed.leases == (if obtains then w.leases[granted.value := false] else w.leases)
            && claimed.useAvailable == (w.useAvailable && !obtains)
  {
    RecheckOutcome(w, selection, wallet, before, granted, after);
  }

  /** The outcome of an attempt, both ways: the operation runs once if the attempt
      takes the use and the first invocation finds the gate open, and not at all
      otherwise; the result is the guard's and the operation's; a lease it obtained
      is dead and the service's use gone; nothing else changes. */
  lemma AttemptOutcome(w: World, selection: Selection, wallet: Wallet, before: Facts, granted: Option<nat>, after: Facts,
                       invocations: seq<Invocation>, guardSucceeded: bool)
    ensures var end := WholeAttempt(w, selection, wallet, before, granted, after, invocations, guardSucceeded);
            var a := |w.attempts|;
            var obtains := Obtains(w, selection, wallet, before, granted);
            var operates := TakesTheUse(w, selection, wallet, before, granted, after) && Operates(selection, wallet, invocations);
            && |end.attempts| == a + 1 && end.attempts[..a] == w.attempts
            && end.attempts[a].runs == (if operates then 1 else 0)
            && end.attempts[a].stage == Done(operates && guardSucceeded && invocations[0].answer)
            && end.leases == (if obtains then w.leases[granted.value := false] else w.leases)
            && end.useAvailable == (w.useAvailable && !obtains)
  {
    var a := |w.attempts|;
    var asked := Step(Step(w, Began(selection, wallet, before)), Acquired(a, granted));
    var claimed := Step(Step(Step(asked, Rechecked(a, after)), Consumed(a)), Claimed(a));
    ClaimOutcome(w, selection, wallet, before, granted, after);
    if claimed.attempts[a].stage.Done? {
      NoUseNoEffect(claimed, a, invocations);
    } else {
      InvocationsOutcome(claimed, a, invocations);
      forall b: nat | b < a ensures AfterInvocations(claimed, a, invocations).attempts[b] == w.attempts[b] {
        InvocationsSpareOthers(claimed, a, invocations, b);
        assert claimed.attempts[b] == claimed.attempts[..a][b];
      }
    }
  }

  // ---- Leases, with anything in between ----

  /** A lease that no longer retains the service has cost it its use, unless the
      attempt that consumed the lease is just about to take it. */
  ghost predicate Spent(w: World) {
    (exists l :: 0 <= l < |w.leases| && !w.leases[l]) && w.useAvailable ==> exists t <- w.attempts :: t.stage.Claiming?
  }

  /** The attempt's lease is in its hands, or dead. */
  predicate Holds(w: World, a: nat, lease: nat) {
    && a < |w.attempts| && lease < |w.leases|
    && match w.attempts[a].stage
       case Acquiring => false
       case Rechecking(held) => held == lease
       case Consuming(held, _) => held == lease
       case Claiming => !w.leases[lease]
       case Guarded(_, _, _) => !w.leases[lease]
       case Done(_) => !w.leases[lease]
  }

  lemma UpdateSpent(w: World, a: nat, t: Attempt)
    requires Spent(w) && a < |w.attempts| && !w.attempts[a].stage.Claiming?
    ensures Spent(Update(w, a, t))
  {
    if exists u <- w.attempts :: u.stage.Claiming? {
      var i :| 0 <= i < |w.attempts| && w.attempts[i].stage.Claiming?;
      assert Update(w, a, t).attempts[i] == w.attempts[i];
    }
  }

  lemma ConsumeSpent(w: World, a: nat)
    requires Spent(w) && a < |w.attempts|
    ensures Spent(Consume(w, a))
  {
    var w' := Consume(w, a);
    if w.attempts[a].stage.Consuming? {
      if w'.attempts[a].stage.Claiming? {
        assert w'.attempts[a] in w'.attempts;
      } else {
        UpdateSpent(w, a, w'.attempts[a]);
      }
    }
  }

  lemma BeginSpent(w: World, selection: Selection, wallet: Wallet, facts: Facts)
    requires Spent(w)
    ensures Spent(Begin(w, selection, wallet, facts))
  {
    if t: Attempt :| t in w.attempts && t.stage.Claiming? {
      assert t in Begin(w, selection, wallet, facts).attempts;
    }
  }

  lemma RecheckSpent(w: World, a: nat, facts: Facts)
    requires Spent(w) && a < |w.attempts|
    ensures Spent(Recheck(w, a, facts))
  {
    if w.attempts[a].stage.Rechecking? {
      UpdateSpent(w, a, Recheck(w, a, facts).attempts[a]);
    }
  }

  lemma AcquireSpent(w: World, a: nat, lease: Option<nat>)
    requires Spent(w) && a < |w.attempts|
    ensures Spent(Acquire(w, a, lease))
  {
    if w.attempts[a].stage.Acquiring? {
      UpdateSpent(w, a, Acquire(w, a, lease).attempts[a]);
    }
  }

  lemma GuardedSpent(w: World, a: nat, t: Attempt)
    requires Spent(w) && a < |w.attempts| && w.attempts[a].stage.Guarded?
    ensures Spent(Update(w, a, t))
  {
    UpdateSpent(w, a, t);
  }

  lemma StepSpent(w: World, event: Event)
    requires Spent(w)
    ensures Spent(Step(w, event))
  {
    match event
    case LeaseMade => assert forall l :: 0 <= l < |w.leases| ==> (w.leases + [true])[l] == w.leases[l];
    case LeaseDiscarded(_) =>
    case ServiceDiscarded =>
    case Began(selection, wallet, facts) => BeginSpent(w, selection, wallet, facts);
    case Acquired(a, granted) => if a < |w.attempts| { AcquireSpent(w, a, granted); }
    case Rechecked(a, facts) => if a < |w.attempts| { RecheckSpent(w, a, facts); }
    case Consumed(a) => if a < |w.attempts| { ConsumeSpent(w, a); }
    case Claimed(a) =>
    case CalledBack(a, facts) =>
      if a < |w.attempts| && w.attempts[a].stage.Guarded? { GuardedSpent(w, a, CallBack(w, a, facts).attempts[a]); }
    case Operated(a, value) =>
      if a < |w.attempts| && w.attempts[a].stage.Guarded? { GuardedSpent(w, a, OperationReturns(w, a, value).attempts[a]); }
    case GuardReturned(a, value) =>
      if a < |w.attempts| && w.attempts[a].stage.Guarded? { GuardedSpent(w, a, GuardReturns(w, a, value).attempts[a]); }
  }

  lemma {:induction false} RunSpent(selection: Selection, wallet: Wallet, events: seq<Event>)
    ensures Spent(Run(selection, wallet, events))
    decreases |events|
  {
    if events != [] {
      RunSpent(selection, wallet, events[..|events| - 1]);
      StepSpent(Run(selection, wallet, events[..|events| - 1]), events[|events| - 1]);
    }
  }

  lemma StepHolds(w: World, event: Event, a: nat, lease: nat)
    requires Holds(w, a, lease)
    ensures Holds(Step(w, event), a, lease)
  {
  }

  /** The world after more events. */
  function Onward(w: World, events: seq<Event>): World {
    if events == [] then w else Step(Onward(w, events[..|events| - 1]), events[|events| - 1])
  }

  lemma {:induction false} OnwardHolds(w: World, events: seq<Event>, a: nat, lease: nat)
    requires Holds(w, a, lease)
    ensures Holds(Onward(w, events), a, lease)
    decreases |events|
  {
    if events != [] {
      OnwardHolds(w, events[..|events| - 1], a, lease);
      StepHolds(Onward(w, events[..|events| - 1]), events[|events| - 1], a, lease);
    }
  }

  lemma {:induction false} RunOnward(selection: Selection, wallet: Wallet, before: seq<Event>, more: seq<Event>)
    ensures Run(selection, wallet, before + more) == Onward(Run(selection, wallet, before), more)
    decreases |more|
  {
    if more == [] {
      EmptyEnds(before);
    } else {
      var init, last := more[..|more| - 1], more[|more| - 1];
      RunOnward(selection, wallet, before, init);
      assert before + more == before + init + [last];
      DropLast(before + init, last);
    }
  }

  /** Attempt b is just about to take the use. */
  predicate AboutToClaim(w: World, b: nat) {
    b < |w.attempts| && w.attempts[b].stage.Claiming? && Step(w, Claimed(b)).attempts[b].stage.Guarded?
  }

  /** Whatever happens after an attempt was granted a live lease: when the attempt is
      done, the lease is dead, and the service's use is gone too if and only if no
      other attempt that consumed the lease is just about to take it. */
  lemma GrantedLeaseIsSpent(selection: Selection, wallet: Wallet, events: seq<Event>, a: nat, lease: nat, more: seq<Event>)
    ensures var before, end := Run(selection, wallet, events), Run(selection, wallet, events + [Acquired(a, Some(lease))] + more);
            a < |before.attempts| && before.attempts[a].stage.Acquiring? && lease < |before.leases| ==>
              && a < |end.attempts| && lease < |end.leases|
              && (end.attempts[a].stage.Done? ==>
                    !end.leases[lease] && (!end.useAvailable <==> forall b :: !AboutToClaim(end, b)))
  {
    var granting := [Acquired(a, Some(lease))];
    var w := Run(selection, wallet, events);
    if a < |w.attempts| && w.attempts[a].stage.Acquiring? && lease < |w.leases| {
      DropLast(events, Acquired(a, Some(lease)));
      RunOnward(selection, wallet, events + granting, more);
      OnwardHolds(Run(selection, wallet, events + granting), more, a, lease);
      RunSpent(selection, wallet, events + granting + more);
      var end := Run(selection, wallet, events + granting + more);
      if end.attempts[a].stage.Done? {
        ClaimersTakeTheUse(end, lease);
      }
    }
  }

  lemma ClaimersTakeTheUse(w: World, lease: nat)
    requires Spent(w) && lease < |w.leases| && !w.leases[lease]
    ensures !w.useAvailable <==> forall b :: !AboutToClaim(w, b)
  {
    if w.useAvailable {
      var t :| t in w.attempts && t.stage.Claiming?;
      var b :| 0 <= b < |w.attempts| && w.attempts[b] == t;
      assert AboutToClaim(w, b);
    }
  }

  /** That exception is real: of two attempts granted the same lease, the one whose
      recheck fails is done while the other has consumed the lease and not yet
      claimed the use. */
  lemma UseCanOutliveItsLease(selection: Selection, wallet: Wallet, closed: Facts)
    requires Eligible(selection, wallet) && closed != OpenFacts(selection, wallet)
    ensures var open := OpenFacts(selection, wallet);
            var began := Step(Step(Step(Initial(selection, wallet), LeaseMade), Began(selection, wallet, open)), Began(selection, wallet, open));
            var consumed := Step(Step(Step(began, Acquired(0, Some(0))), Rechecked(0, open)), Consumed(0));
            var end := Step(Step(consumed, Acquired(1, Some(0))), Rechecked(1, closed));
            end.attempts[1].stage == Done(false) && end.leases == [false] && end.useAvailable && end.attempts[0].stage == Claiming
  {
    GateIsOneReading(selection, wallet, OpenFacts(selection, wallet));
    GateIsOneReading(selection, wallet, closed);
  }

  // ---- A forfeited use stays forfeited ----

  ghost predicate NeverUsed(w: World) {
    !w.useAvailable && forall t <- w.attempts :: !t.claimed
  }

  lemma StepNeverUsed(w: World, event: Event)
    requires NeverUsed(w)
    ensures NeverUsed(Step(w, event))
  {
    match event
    case Began(selection, wallet, facts) =>
    case _ =>
  }

  lemma {:induction false} OnwardNeverUsed(w: World, events: seq<Event>)
    requires NeverUsed(w)
    ensures NeverUsed(Onward(w, events))
    decreases |events|
  {
    if events != [] {
      OnwardNeverUsed(w, events[..|events| - 1]);
      StepNeverUsed(Onward(w, events[..|events| - 1]), events[|events| - 1]);
    }
  }

  /** Once the service or a live lease of it is discarded before any attempt took
      the use, the operation never runs and nothing ever reports true. */
  lemma DiscardedNeverRuns(selection: Selection, wallet: Wallet, events: seq<Event>, discard: Event, more: seq<Event>)
    ensures var before, end := Run(selection, wallet, events), Run(selection, wallet, events + [discard] + more);
            && (forall t <- before.attempts :: !t.claimed)
            && (discard.ServiceDiscarded?
                || (discard.LeaseDiscarded? && discard.lease < |before.leases| && before.leases[discard.lease])) ==>
              Sum(end.attempts, Runs()) == 0 && forall t <- end.attempts :: t.stage != Done(true)
  {
    var before, end := Run(selection, wallet, events), Run(selection, wallet, events + [discard] + more);
    DropLast(events, discard);
    RunOnward(selection, wallet, events + [discard], more);
    if NeverUsed(Step(before, discard)) {
      OnwardNeverUsed(Step(before, discard), more);
      RunSound(selection, wallet, events + [discard] + more);
      RunsAtMostClaims(end.attempts);
      NoClaims(end.attempts);
    }
  }

  lemma {:induction false} NoClaims(attempts: seq<Attempt>)
    requires forall t <- attempts :: !t.claimed
    ensures Sum(attempts, Claims()) == 0
    decreases |attempts|
  {
    if attempts != [] {
      assert attempts[0] in attempts;
      NoClaims(attempts[1..]);
    }
  }
}
