/** HrmHnsaWalletConsumer.swift: one broker-verified authority, handed through leases
    to an untrusted guard that may call back never, once or many times, while an
    operation runs, or late. Any number of attempts run interleaved. */
module OneShotAuthority {
  import opened Wrappers
  import opened Sums

  datatype Network = Mainnet | Testnet | Regtest

  datatype Selection = Selection(network: Network, service: string)

  datatype Wallet = Wallet(network: Network, wellFormed: bool, lease: nat)

  /** The wallet and application facts, read at one moment; `leaseIsCurrent` is the
      lease registry's answer about the expected wallet at that moment. */
  datatype Facts = Facts(
    selection: Option<Selection>, wallet: Option<Wallet>, leaseIsCurrent: bool, foreground: bool,
    protectedStorageAvailable: bool, reopenedDurableWallet: bool, confirmedPersistentWallet: bool,
    hasUnconfirmedRecovery: bool, operationInFlight: bool, retirementBlocked: bool)

  /** hrmHnsaWalletConsumerMayUse. */
  predicate MayUse(selection: Selection, wallet: Wallet, current: Facts) {
    && current.selection == Some(selection)
    && current.wallet == Some(wallet)
    && selection.network == wallet.network
    && wallet.wellFormed
    && current.leaseIsCurrent
    && current.foreground
    && current.protectedStorageAvailable
    && current.reopenedDurableWallet
    && current.confirmedPersistentWallet
    && !current.hasUnconfirmedRecovery
    && !current.operationInFlight
    && !current.retirementBlocked
  }

  // ---- State ----

  /** Where an attempt to use the authority is. */
  datatype Stage =
    | Acquiring
    | Rechecking(lease: nat)
    | Consuming(lease: nat, current: Wallet)
    | Claiming
    | Guarded(invoked: bool, operating: bool, succeeded: bool)
    | Done(result: bool)

  /** `before`, `after` and `within` are the facts read before the source was asked,
      after it answered, and in the guard's callback. */
  datatype Attempt = Attempt(
    selection: Selection, wallet: Wallet, stage: Stage,
    before: Facts, after: Option<Facts>, within: Option<Facts>,
    claimed: bool, runs: nat, returned: Option<bool>)

  /** One service with its single use, the leases that retain it, the attempts. */
  datatype World = World(
    selection: Selection, wallet: Wallet, useAvailable: bool, leases: seq<bool>, attempts: seq<Attempt>)

  function Initial(selection: Selection, wallet: Wallet): World {
    World(selection, wallet, true, [], [])
  }

  // ---- Steps ----

  function Update(w: World, a: nat, attempt: Attempt): World
    requires a < |w.attempts|
  {
    w.(attempts := w.attempts[a := attempt])
  }

  /** HrmHnsaWalletConsumerLease.discard. */
  function DiscardLease(w: World, lease: nat): World {
    if lease < |w.leases| && w.leases[lease] then w.(leases := w.leases[lease := false], useAvailable := false) else w
  }

  /** attemptHrmHnsaWalletConsumerUse up to the source. */
  function Begin(w: World, selection: Selection, wallet: Wallet, facts: Facts): World {
    var stage := if MayUse(selection, wallet, facts) then Acquiring else Done(false);
    w.(attempts := w.attempts + [Attempt(selection, wallet, stage, facts, None, None, false, 0, None)])
  }

  function Acquire(w: World, a: nat, lease: Option<nat>): World
    requires a < |w.attempts|
  {
    var attempt := w.attempts[a];
    if !attempt.stage.Acquiring? then w
    else Update(w, a, attempt.(stage := if lease.Some? then Rechecking(lease.value) else Done(false)))
  }

  function Recheck(w: World, a: nat, facts: Facts): World
    requires a < |w.attempts|
  {
    var attempt := w.attempts[a];
    if !attempt.stage.Rechecking? then w
    else if facts.wallet.Some? && MayUse(attempt.selection, attempt.wallet, facts) then
      Update(w, a, attempt.(stage := Consuming(attempt.stage.lease, facts.wallet.value), after := Some(facts)))
    else DiscardLease(Update(w, a, attempt.(stage := Done(false), after := Some(facts))), attempt.stage.lease)
  }

  /** consumeFor: take the service out of the lease and compare identities. */
  function Consume(w: World, a: nat): World
    requires a < |w.attempts|
  {
    var attempt := w.attempts[a];
    if !attempt.stage.Consuming? then w
    else
      var Consuming(lease, current) := attempt.stage;
      if lease >= |w.leases| || !w.leases[lease] then Update(w, a, attempt.(stage := Done(false)))
      else
        var taken := w.(leases := w.leases[lease := false]);
        if w.selection == attempt.selection && w.wallet == current then Update(taken, a, attempt.(stage := Claiming))
        else Update(taken.(useAvailable := false), a, attempt.(stage := Done(false)))
  }

  /** useIfCurrent up to the guard. */
  function Claim(w: World, a: nat): World
    requires a < |w.attempts|
  {
    var attempt := w.attempts[a];
    if !attempt.stage.Claiming? then w
    else if w.useAvailable then
      Update(w.(useAvailable := false), a, attempt.(stage := Guarded(false, false, false), claimed := true))
    else Update(w, a, attempt.(stage := Done(false)))
  }

  /** The guard calls the callback it was given; the operation starts if it may. */
  function CallBack(w: World, a: nat, facts: Facts): World
    requires a < |w.attempts|
  {
    var attempt := w.attempts[a];
    if !attempt.stage.Guarded? || attempt.stage.invoked then w
    else
      var may := MayUse(attempt.selection, attempt.wallet, facts);
      Update(w, a, attempt.(stage := Guarded(true, may, false), within := Some(facts),
                            runs := if may then attempt.runs + 1 else attempt.runs))
  }

  function OperationReturns(w: World, a: nat, value: bool): World
    requires a < |w.attempts|
  {
    var attempt := w.attempts[a];
    if !attempt.stage.Guarded? || !attempt.stage.operating then w
    else Update(w, a, attempt.(stage := Guarded(true, false, value), returned := Some(value)))
  }

  /** The guard returns: not while the operation runs, whose lock it waits for. */
  function GuardReturns(w: World, a: nat, value: bool): World
    requires a < |w.attempts|
  {
    var attempt := w.attempts[a];
    if !attempt.stage.Guarded? || attempt.stage.operating then w
    else Update(w, a, attempt.(stage := Done(value && attempt.stage.invoked && attempt.stage.succeeded)))
  }

  datatype Event =
    | LeaseMade
    | LeaseDiscarded(lease: nat)
    | ServiceDiscarded
    | Began(selection: Selection, wallet: Wallet, facts: Facts)
    | Acquired(attempt: nat, granted: Option<nat>)
    | Rechecked(attempt: nat, facts: Facts)
    | Consumed(attempt: nat)
    | Claimed(attempt: nat)
    | CalledBack(attempt: nat, facts: Facts)
    | Operated(attempt: nat, value: bool)
    | GuardReturned(attempt: nat, value: bool)

  function Step(w: World, event: Event): World {
    match event
    case LeaseMade => w.(leases := w.leases + [true])
    case LeaseDiscarded(lease) => DiscardLease(w, lease)
    case ServiceDiscarded => w.(useAvailable := false)
    case Began(selection, wallet, facts) => Begin(w, selection, wallet, facts)
    case Acquired(a, granted) => if a < |w.attempts| then Acquire(w, a, granted) else w
    case Rechecked(a, facts) => if a < |w.attempts| then Recheck(w, a, facts) else w
    case Consumed(a) => if a < |w.attempts| then Consume(w, a) else w
    case Claimed(a) => if a < |w.attempts| then Claim(w, a) else w
    case CalledBack(a, facts) => if a < |w.attempts| then CallBack(w, a, facts) else w
    case Operated(a, value) => if a < |w.attempts| then OperationReturns(w, a, value) else w
    case GuardReturned(a, value) => if a < |w.attempts| then GuardReturns(w, a, value) else w
  }

  function Run(selection: Selection, wallet: Wallet, events: seq<Event>): World {
    if events == [] then Initial(selection, wallet)
    else Step(Run(selection, wallet, events[..|events| - 1]), events[|events| - 1])
  }

  // ---- One use, from the lease to the guard's return ----

  /** One call of the guard's callback: the facts it reads, and the operation's
      answer should it run. */
  datatype Invocation = Invocation(facts: Facts, answer: bool)

  function AfterInvocations(w: World, a: nat, invocations: seq<Invocation>): World {
    if invocations == [] then w
    else
      var last := invocations[|invocations| - 1];
      Step(Step(AfterInvocations(w, a, invocations[..|invocations| - 1]), CalledBack(a, last.facts)), Operated(a, last.answer))
  }

  /** The steps of one consumeFor, with nothing of other attempts in between. */
  function Consumption(w: World, a: nat, invocations: seq<Invocation>, guardSucceeded: bool): World {
    Step(AfterInvocations(Step(Step(w, Consumed(a)), Claimed(a)), a, invocations), GuardReturned(a, guardSucceeded))
  }

  lemma {:induction false} NoUseNoEffect(w: World, a: nat, invocations: seq<Invocation>)
    requires a < |w.attempts| && w.attempts[a].stage.Done?
    ensures AfterInvocations(w, a, invocations) == w
    decreases |invocations|
  {
    if invocations != [] {
      NoUseNoEffect(w, a, invocations[..|invocations| - 1]);
    }
  }

  // ---- What every step keeps ----

  /** The gates an attempt has passed by its stage. */
  predicate PassedGates(w: World, t: Attempt) {
    && (!t.stage.Done? ==> MayUse(t.selection, t.wallet, t.before))
    && (t.stage.Consuming? || t.stage.Claiming? || t.claimed ==>
          MayUse(t.selection, t.wallet, t.before) && t.after.Some? && MayUse(t.selection, t.wallet, t.after.value))
    && (t.stage.Consuming? ==> t.stage.current == t.wallet)
    && (t.stage.Claiming? || t.claimed ==> w.selection == t.selection && w.wallet == t.wallet)
    && (t.runs > 0 ==> t.within.Some? && MayUse(t.selection, t.wallet, t.within.value))
  }

  /** How often the operation ran, and what a true result needs. */
  predicate RanOnce(t: Attempt) {
    && t.runs <= (if t.claimed then 1 else 0)
    && (t.stage.Guarded? ==>
          && t.claimed
          && (!t.stage.invoked ==> t.runs == 0 && !t.stage.operating && !t.stage.succeeded)
          && (t.stage.operating ==> t.runs == 1 && !t.stage.succeeded)
          && (t.stage.succeeded ==> t.runs == 1 && t.returned == Some(true)))
    && (t.stage.Done? && t.stage.result ==> t.runs == 1 && t.returned == Some(true))
    && (t.claimed ==> t.stage.Guarded? || t.stage.Done?)
  }

  function Claims(): Attempt -> nat {
    (t: Attempt) => if t.claimed then 1 else 0
  }

  function Runs(): Attempt -> nat {
    (t: Attempt) => t.runs
  }

  ghost predicate Sound(w: World) {
    && Sum(w.attempts, Claims()) <= (if w.useAvailable then 0 else 1)
    && forall t <- w.attempts :: PassedGates(w, t) && RanOnce(t)
  }

  /** One attempt changes; it claims the use only if the use was available. */
  lemma UpdateSound(w: World, a: nat, t: Attempt, w': World)
    requires Sound(w) && a < |w.attempts|
    requires w'.attempts == w.attempts[a := t] && w'.selection == w.selection && w'.wallet == w.wallet
    requires PassedGates(w, t) && RanOnce(t) && (w'.useAvailable ==> w.useAvailable)
    requires t.claimed ==> w.attempts[a].claimed || (w.useAvailable && !w'.useAvailable)
    requires w.attempts[a].claimed ==> t.claimed
    ensures Sound(w')
  {
    SumUpdate(w.attempts, a, t, Claims());
    assert w.attempts[a] in w.attempts;
    forall u | u in w'.attempts ensures PassedGates(w', u) && RanOnce(u) {
      assert u == t || u in w.attempts;
    }
  }

  lemma BeginSound(w: World, selection: Selection, wallet: Wallet, facts: Facts)
    requires Sound(w)
    ensures Sound(Begin(w, selection, wallet, facts))
  {
    var t := Begin(w, selection, wallet, facts).attempts[|w.attempts|];
    SumAppend(w.attempts, t, Claims());
    assert PassedGates(w, t) && RanOnce(t);
  }

  lemma DiscardLeaseSound(w: World, lease: nat)
    requires Sound(w)
    ensures Sound(DiscardLease(w, lease))
  {
  }

  lemma AcquireSound(w: World, a: nat, lease: Option<nat>)
    requires Sound(w) && a < |w.attempts|
    ensures Sound(Acquire(w, a, lease))
  {
    assert w.attempts[a] in w.attempts;
    if w.attempts[a].stage.Acquiring? {
      var w' := Acquire(w, a, lease);
      UpdateSound(w, a, w'.attempts[a], w');
    }
  }

  lemma RecheckSound(w: World, a: nat, facts: Facts)
    requires Sound(w) && a < |w.attempts|
    ensures Sound(Recheck(w, a, facts))
  {
    assert w.attempts[a] in w.attempts;
    if w.attempts[a].stage.Rechecking? {
      var w' := Recheck(w, a, facts);
      UpdateSound(w, a, w'.attempts[a], w');
    }
  }

  lemma ConsumeSound(w: World, a: nat)
    requires Sound(w) && a < |w.attempts|
    ensures Sound(Consume(w, a))
  {
    assert w.attempts[a] in w.attempts;
    if w.attempts[a].stage.Consuming? {
      var w' := Consume(w, a);
      UpdateSound(w, a, w'.attempts[a], w');
    }
  }

  lemma ClaimSound(w: World, a: nat)
    requires Sound(w) && a < |w.attempts|
    ensures Sound(Claim(w, a))
  {
    assert w.attempts[a] in w.attempts;
    if w.attempts[a].stage.Claiming? {
      var w' := Claim(w, a);
      UpdateSound(w, a, w'.attempts[a], w');
    }
  }

  lemma CallBackSound(w: World, a: nat, facts: Facts)
    requires Sound(w) && a < |w.attempts|
    ensures Sound(CallBack(w, a, facts))
  {
    assert w.attempts[a] in w.attempts;
    if w.attempts[a].stage.Guarded? && !w.attempts[a].stage.invoked {
      var w' := CallBack(w, a, facts);
      UpdateSound(w, a, w'.attempts[a], w');
    }
  }

  lemma OperationSound(w: World, a: nat, value: bool)
    requires Sound(w) && a < |w.attempts|
    ensures Sound(OperationReturns(w, a, value))
  {
    assert w.attempts[a] in w.attempts;
    if w.attempts[a].stage.Guarded? && w.attempts[a].stage.operating {
      var w' := OperationReturns(w, a, value);
      UpdateSound(w, a, w'.attempts[a], w');
    }
  }

  lemma GuardSound(w: World, a: nat, value: bool)
    requires Sound(w) && a < |w.attempts|
    ensures Sound(GuardReturns(w, a, value))
  {
    assert w.attempts[a] in w.attempts;
    if w.attempts[a].stage.Guarded? && !w.attempts[a].stage.operating {
      var w' := GuardReturns(w, a, value);
      UpdateSound(w, a, w'.attempts[a], w');
    }
  }

  lemma StepSound(w: World, event: Event)
    requires Sound(w)
    ensures Sound(Step(w, event))
  {
    match event
    case LeaseMade =>
    case LeaseDiscarded(lease) => DiscardLeaseSound(w, lease);
    case ServiceDiscarded =>
    case Began(selection, wallet, facts) => BeginSound(w, selection, wallet, facts);
    case Acquired(a, granted) => if a < |w.attempts| { AcquireSound(w, a, granted); }
    case Rechecked(a, facts) => if a < |w.attempts| { RecheckSound(w, a, facts); }
    case Consumed(a) => if a < |w.attempts| { ConsumeSound(w, a); }
    case Claimed(a) => if a < |w.attempts| { ClaimSound(w, a); }
    case CalledBack(a, facts) => if a < |w.attempts| { CallBackSound(w, a, facts); }
    case Operated(a, value) => if a < |w.attempts| { OperationSound(w, a, value); }
    case GuardReturned(a, value) => if a < |w.attempts| { GuardSound(w, a, value); }
  }

  lemma SameService(w: World, event: Event)
    ensures Step(w, event).selection == w.selection && Step(w, event).wallet == w.wallet
  {
  }

  lemma {:induction false} RunSound(selection: Selection, wallet: Wallet, events: seq<Event>)
    ensures Sound(Run(selection, wallet, events))
    ensures Run(selection, wallet, events).selection == selection && Run(selection, wallet, events).wallet == wallet
    decreases |events|
  {
    if events != [] {
      var before := Run(selection, wallet, events[..|events| - 1]);
      RunSound(selection, wallet, events[..|events| - 1]);
      StepSound(before, events[|events| - 1]);
      SameService(before, events[|events| - 1]);
    }
  }

  lemma {:induction false} RunsAtMostClaims(attempts: seq<Attempt>)
    requires forall t <- attempts :: RanOnce(t)
    ensures Sum(attempts, Runs()) <= Sum(attempts, Claims())
    decreases |attempts|
  {
    if attempts != [] {
      assert attempts[0] in attempts;
      RunsAtMostClaims(attempts[1..]);
    }
  }

  // ---- Main results ----

  /** Over all attempts and leases of one service, whatever the guard does, the
      operation runs at most once. */
  lemma OperationRunsAtMostOnce(selection: Selection, wallet: Wallet, events: seq<Event>)
    ensures Sum(Run(selection, wallet, events).attempts, Runs()) <= 1
  {
    RunSound(selection, wallet, events);
    RunsAtMostClaims(Run(selection, wallet, events).attempts);
  }

  /** The one reading of the facts that opens the gate. */
  function OpenFacts(selection: Selection, wallet: Wallet): Facts {
    Facts(Some(selection), Some(wallet), true, true, true, true, true, false, false, false)
  }

  predicate Eligible(selection: Selection, wallet: Wallet) {
    selection.network == wallet.network && wallet.wellFormed
  }

  lemma GateIsOneReading(selection: Selection, wallet: Wallet, facts: Facts)
    ensures MayUse(selection, wallet, facts) <==> Eligible(selection, wallet) && facts == OpenFacts(selection, wallet)
  {
  }

  /** When it ran, selection and wallet were the service's own and the facts read
      before the source was asked, after it answered, and in the callback were
      exactly those that open the gate; and an attempt only reports true if its
      operation ran once and returned true. */
  lemma GateHeldThroughout(selection: Selection, wallet: Wallet, events: seq<Event>, a: nat)
    ensures var w := Run(selection, wallet, events);
            a < |w.attempts| ==>
              var t := w.attempts[a];
              && (t.runs > 0 ==>
                    && t.runs == 1 && t.selection == selection && t.wallet == wallet && Eligible(selection, wallet)
                    && t.before == OpenFacts(selection, wallet)
                    && t.after == Some(OpenFacts(selection, wallet))
                    && t.within == Some(OpenFacts(selection, wallet)))
              && (t.stage == Done(true) ==> t.runs == 1 && t.returned == Some(true))
  {
    RunSound(selection, wallet, events);
    var w := Run(selection, wallet, events);
    if a < |w.attempts| {
      assert w.attempts[a] in w.attempts;
    }
  }
}

/** The two lock-protected objects, method by method. */
module OneShotAuthorityObjects {
  import opened Wrappers
  import opened OneShotAuthority

  /** BrokerVerifiedHrmHnsaNamedService. */
  class Service {
    const selection: Selection
    const wallet: Wallet
    var useAvailable: bool

    constructor (selection: Selection, wallet: Wallet)
      ensures this.selection == selection && this.wallet == wallet && useAvailable
    {
      this.selection, this.wallet, useAvailable := selection, wallet, true;
    }

    /** This is w's service. */
    ghost predicate Shows(w: World)
      reads this
    {
      w.selection == selection && w.wallet == wallet && w.useAvailable == useAvailable
    }

    /** The first section of useIfCurrent under the lock. */
    method TakeUse() returns (mayAttempt: bool)
      modifies this
      ensures mayAttempt == old(useAvailable) && !useAvailable
    {
      mayAttempt := useAvailable;
      useAvailable := false;
    }

    method Discard()
      modifies this
      ensures !useAvailable
    {
      useAvailable := false;
    }
  }

  /** HrmHnsaWalletConsumerLease. */
  class Lease {
    var retainedService: Option<Service>

    constructor (service: Service)
      ensures retainedService == Some(service)
    {
      retainedService := Some(service);
    }

    /** consumeFor up to the guard: the service whose use the caller now holds. */
    method Consume(selection: Selection, wallet: Wallet) returns (claimed: Option<Service>)
      modifies this, if retainedService.Some? then {retainedService.value} else {}
      ensures retainedService.None?
      ensures old(retainedService).None? ==> claimed.None?
      ensures old(retainedService).Some? ==>
        && var service := old(retainedService).value;
           !service.useAvailable
           && (claimed == if old(service.useAvailable) && service.selection == selection && service.wallet == wallet
                          then Some(service) else None)
    {
      var service := retainedService;
      retainedService := None;
      if service.None? {
        return None;
      }
      if service.value.selection != selection || service.value.wallet != wallet {
        service.value.Discard();
        return None;
      }
      var mayAttempt := service.value.TakeUse();
      claimed := if mayAttempt then service else None;
    }

    /** This is w's given lease, of w's service. */
    ghost predicate Shows(w: World, lease: nat)
      reads this, if retainedService.Some? then {retainedService.value} else {}
    {
      && lease < |w.leases| && w.leases[lease] == retainedService.Some?
      && (retainedService.Some? ==> retainedService.value.Shows(w))
    }

    /** consumeFor with its guard and operation: attempt a consumes this lease, the
        guard calls back as it likes and returns. */
    method ConsumeFor(ghost w: World, ghost a: nat, selection: Selection, current: Wallet, expected: Wallet,
                      invocations: seq<Invocation>, guardSucceeded: bool)
      returns (result: bool, runs: nat)
      requires a < |w.attempts| && w.attempts[a].stage.Consuming? && Shows(w, w.attempts[a].stage.lease)
      requires w.attempts[a].stage.current == current
      requires w.attempts[a].selection == selection && w.attempts[a].wallet == expected
      modifies this, if retainedService.Some? then {retainedService.value} else {}
      ensures var after := Consumption(w, a, invocations, guardSucceeded);
              && Shows(after, w.attempts[a].stage.lease)
              && (old(retainedService).Some? ==> old(retainedService).value.Shows(after))
              && |after.attempts| == |w.attempts| && after.attempts[a].stage == Done(result)
              && after.attempts[a].runs == w.attempts[a].runs + runs
    {
      var service := Consume(selection, current);
      ghost var claimed := Step(Step(w, Consumed(a)), Claimed(a));
      if service.None? {
        NoUseNoEffect(claimed, a, invocations);
        return false, 0;
      }
      var use := new Use();
      runs := use.Invoke(claimed, a, selection, expected, invocations);
      result := use.Finish(guardSucceeded);
    }

    method Discard()
      modifies this, if retainedService.Some? then {retainedService.value} else {}
      ensures retainedService.None?
      ensures old(retainedService).Some? ==> !old(retainedService).value.useAvailable
    {
      var service := retainedService;
      retainedService := None;
      if service.Some? {
        service.value.Discard();
      }
    }
  }

  /** The variables of one use that its callback and its end share. */
  class Use {
    var callbackActive: bool
    var callbackInvoked: bool
    var callbackSucceeded: bool
    ghost var operating: bool

    ghost function AsStage(): Stage
      reads this
    {
      Guarded(callbackInvoked, operating, callbackSucceeded)
    }

    constructor ()
      ensures callbackActive && AsStage() == Guarded(false, false, false)
    {
      callbackActive, callbackInvoked, callbackSucceeded, operating := true, false, false, false;
    }

    /** The callback up to the operation: whether to run it. */
    method Enter(selection: Selection, wallet: Wallet, facts: Facts) returns (run: bool)
      modifies this
      ensures callbackActive == old(callbackActive)
      ensures run == (old(callbackActive) && !old(callbackInvoked) && MayUse(selection, wallet, facts))
      ensures if old(callbackActive) && !old(callbackInvoked) then AsStage() == Guarded(true, run, false)
              else AsStage() == old(AsStage())
    {
      if !callbackActive || callbackInvoked {
        return false;
      }
      callbackInvoked := true;
      run := MayUse(selection, wallet, facts);
      operating := run;
      callbackSucceeded := false;
    }

    /** The operation returned. */
    method Leave(value: bool)
      requires operating && callbackInvoked
      modifies this
      ensures callbackActive == old(callbackActive) && AsStage() == Guarded(true, false, value)
    {
      callbackSucceeded := value;
      operating := false;
    }

    /** The guard calls back any number of times. */
    method Invoke(ghost w: World, ghost a: nat, selection: Selection, expected: Wallet, invocations: seq<Invocation>)
      returns (runs: nat)
      requires callbackActive && !operating
      requires a < |w.attempts| && w.attempts[a].stage == AsStage()
      requires w.attempts[a].selection == selection && w.attempts[a].wallet == expected
      modifies this
      ensures callbackActive && !operating
      ensures var after := AfterInvocations(w, a, invocations);
              && after == w.(attempts := after.attempts) && |after.attempts| == |w.attempts|
              && after.attempts[a].stage == AsStage()
              && after.attempts[a].runs == w.attempts[a].runs + runs
    {
      runs := 0;
      var i := 0;
      ghost var now := w;
      while i < |invocations|
        invariant i <= |invocations| && callbackActive && !operating
        invariant now == AfterInvocations(w, a, invocations[..i])
        invariant now == w.(attempts := now.attempts) && |now.attempts| == |w.attempts|
        invariant now.attempts[a].stage == AsStage() && now.attempts[a].runs == w.attempts[a].runs + runs
        invariant now.attempts[a].selection == selection && now.attempts[a].wallet == expected
      {
        var run := Enter(selection, expected, invocations[i].facts);
        if run {
          Leave(invocations[i].answer);
          runs := runs + 1;
        }
        assert invocations[..i + 1][..i] == invocations[..i];
        now := Step(Step(now, CalledBack(a, invocations[i].facts)), Operated(a, invocations[i].answer));
        i := i + 1;
      }
      assert invocations[..i] == invocations;
    }

    /** The guard returned. */
    method Finish(guardSucceeded: bool) returns (result: bool)
      modifies this
      ensures !callbackActive && AsStage() == old(AsStage())
      ensures result == (guardSucceeded && callbackInvoked && callbackSucceeded)
    {
      callbackActive := false;
      result := guardSucceeded && callbackInvoked && callbackSucceeded;
    }
  }
}
