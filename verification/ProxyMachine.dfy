/** BrowserProxyStateMachine.swift: the epoch-tagged admission machine, first as
    functions on its value, then as the struct's mutating methods. */
module ProxyMachine {
  import opened Wrappers

  const MAX_EPOCH: nat := 0xFFFF_FFFF_FFFF_FFFF

  datatype Scope = WholeBrowser | IcannBootstrap | Icann | HandshakeRoot(root: string)

  datatype Phase =
    | Suspended
    | Idle
    | Starting(epoch: nat, scope: Scope)
    | Active(epoch: nat, scope: Scope)
    | Failed(epoch: nat, scope: Scope)
    | Destroyed

  datatype Action =
    | RevokeWebView
    | RequestStopActiveProxy
    | StartProxy(epoch: nat, scope: Scope)
    | DisposeStaleProxy
    | DisposeStaleProxyThenStart(epoch: nat, scope: Scope)
    | PublishCandidateAndAdmitWebView(epoch: nat, scope: Scope)
    | AdmitThroughActiveProxy(epoch: nat, scope: Scope)
    | ShowFailure(epoch: nat)

  datatype Machine = Machine(phase: Phase, epoch: nat, pendingScope: Option<Scope>, isForeground: bool)

  const INITIAL: Machine := Machine(Suspended, 0, None, false)

  function NextEpoch(value: nat): nat {
    if value == MAX_EPOCH then 1 else value + 1
  }

  function BeginStart(m: Machine, scope: Scope): (Machine, seq<Action>) {
    var epoch := NextEpoch(m.epoch);
    (m.(epoch := epoch, phase := Starting(epoch, scope)), [StartProxy(epoch, scope)])
  }

  /** Stop the active generation and start another one. */
  function Replace(m: Machine, scope: Scope): (Machine, seq<Action>) {
    var (next, start) := BeginStart(m, scope);
    (next, [RevokeWebView, RequestStopActiveProxy] + start)
  }

  function QueueNavigation(m: Machine, scope: Scope): (Machine, seq<Action>) {
    if m.phase.Destroyed? then (m, [])
    else
      var queued := m.(pendingScope := Some(scope));
      if !m.isForeground then (queued, [])
      else
        match m.phase
        case Idle => BeginStart(queued, scope)
        case Failed(_, _) => BeginStart(queued, scope)
        case Active(generation, active) =>
          if active == scope then (queued, [AdmitThroughActiveProxy(generation, active)])
          else Replace(queued, scope)
        case _ => (queued, [])
  }

  function Resume(m: Machine): (Machine, seq<Action>) {
    if m.phase.Destroyed? then (m, [])
    else
      var woken := m.(isForeground := true, phase := if m.phase.Suspended? then Idle else m.phase);
      match woken.pendingScope
      case None => (woken, [])
      case Some(scope) =>
        match woken.phase
        case Idle => BeginStart(woken, scope)
        case Failed(_, _) => BeginStart(woken, scope)
        case Active(generation, active) =>
          if active == scope then (woken, [AdmitThroughActiveProxy(generation, active)])
          else Replace(woken, scope)
        case _ => (woken, [])
  }

  function ProxyStarted(m: Machine, epoch: nat, scope: Scope, succeeded: bool): (Machine, seq<Action>) {
    if m.phase != Starting(epoch, scope) || !m.isForeground then
      (m, if succeeded then [DisposeStaleProxy] else [])
    else if !succeeded then
      var failed := m.(phase := Failed(epoch, scope));
      if m.pendingScope.Some? && m.pendingScope.value != scope then BeginStart(failed, m.pendingScope.value)
      else (failed, [ShowFailure(epoch)])
    else if m.pendingScope != Some(scope) then RestartAfterStale(m.(phase := Idle))
    else (m.(phase := Active(epoch, scope)), [PublishCandidateAndAdmitWebView(epoch, scope)])
  }

  function RestartAfterStale(m: Machine): (Machine, seq<Action>) {
    var idle := m.(phase := if m.isForeground then Idle else Suspended);
    if !m.isForeground || m.pendingScope.None? then (idle, [DisposeStaleProxy])
    else
      var epoch := NextEpoch(m.epoch);
      (idle.(epoch := epoch, phase := Starting(epoch, m.pendingScope.value)),
       [DisposeStaleProxyThenStart(epoch, m.pendingScope.value)])
  }

  function NavigationAdmitted(m: Machine, epoch: nat, scope: Scope): Machine {
    if m.phase == Active(epoch, scope) then m.(pendingScope := None) else m
  }

  function AdmissionFailed(m: Machine, epoch: nat, scope: Scope): (Machine, seq<Action>) {
    if m.phase == Active(epoch, scope) then
      (m.(phase := Failed(epoch, scope)), [RevokeWebView, ShowFailure(epoch)])
    else (m, [])
  }

  function StopActions(m: Machine): seq<Action> {
    if m.phase.Active? then [RevokeWebView, RequestStopActiveProxy] else [RevokeWebView]
  }

  function Suspend(m: Machine, retained: Option<Scope>): (Machine, seq<Action>) {
    if m.phase.Destroyed? then (m, [])
    else (Machine(Suspended, NextEpoch(m.epoch), retained, false), StopActions(m))
  }

  function RendererTerminated(m: Machine, retained: Option<Scope>): (Machine, seq<Action>) {
    if m.phase.Destroyed? then (m, [])
    else
      var next := Machine(if m.isForeground then Idle else Suspended, NextEpoch(m.epoch), retained, m.isForeground);
      if m.isForeground && retained.Some? then
        var (started, start) := BeginStart(next, retained.value);
        (started, StopActions(m) + start)
      else (next, StopActions(m))
  }

  function RecoverProvisionalNavigation(m: Machine, scope: Scope): (Machine, seq<Action>) {
    if m.isForeground && m.phase.Active? && m.phase.scope == scope then
      Replace(m.(pendingScope := Some(scope), epoch := NextEpoch(m.epoch), phase := Idle), scope)
    else (m, [])
  }

  function Destroy(m: Machine): (Machine, seq<Action>) {
    if m.phase.Destroyed? then (m, [])
    else (Machine(Destroyed, NextEpoch(m.epoch), None, false), StopActions(m))
  }

  // ---- What every transition keeps ----

  /** Not foreground means suspended or destroyed, a start always has a scope to
      serve, and a phase that names an epoch names the newest one. */
  predicate Consistent(m: Machine) {
    && m.epoch <= MAX_EPOCH
    && (m.phase.Suspended? || m.phase.Destroyed? <==> !m.isForeground)
    && (m.phase.Starting? ==> m.pendingScope.Some?)
    && (m.phase.Starting? || m.phase.Active? || m.phase.Failed? ==> m.phase.epoch == m.epoch)
  }

  datatype Call =
    | CallQueueNavigation(scope: Scope)
    | CallResume
    | CallProxyStarted(epoch: nat, scope: Scope, succeeded: bool)
    | CallNavigationAdmitted(epoch: nat, scope: Scope)
    | CallAdmissionFailed(epoch: nat, scope: Scope)
    | CallSuspend(retained: Option<Scope>)
    | CallRendererTerminated(retained: Option<Scope>)
    | CallRecover(scope: Scope)
    | CallDestroy

  function Apply(m: Machine, call: Call): (Machine, seq<Action>) {
    match call
    case CallQueueNavigation(scope) => QueueNavigation(m, scope)
    case CallResume => Resume(m)
    case CallProxyStarted(epoch, scope, succeeded) => ProxyStarted(m, epoch, scope, succeeded)
    case CallNavigationAdmitted(epoch, scope) => (NavigationAdmitted(m, epoch, scope), [])
    case CallAdmissionFailed(epoch, scope) => AdmissionFailed(m, epoch, scope)
    case CallSuspend(retained) => Suspend(m, retained)
    case CallRendererTerminated(retained) => RendererTerminated(m, retained)
    case CallRecover(scope) => RecoverProvisionalNavigation(m, scope)
    case CallDestroy => Destroy(m)
  }

  function ApplyAll(m: Machine, calls: seq<Call>): Machine {
    if calls == [] then m
    else Apply(ApplyAll(m, calls[..|calls| - 1]), calls[|calls| - 1]).0
  }

  /** Every run of the machine is consistent, whatever it is asked to do. */
  lemma {:induction false} AlwaysConsistent(calls: seq<Call>)
    ensures Consistent(ApplyAll(INITIAL, calls))
    decreases |calls|
  {
    if calls != [] {
      AlwaysConsistent(calls[..|calls| - 1]);
    }
  }

  predicate Starts(action: Action) {
    action.StartProxy? || action.DisposeStaleProxyThenStart?
  }

  /** A transition asks for a start exactly when it enters .starting under a new
      epoch: one start, as its last action, of that epoch and the pending scope. */
  lemma StartsAreAnnounced(m: Machine, call: Call)
    requires Consistent(m) && m.epoch < MAX_EPOCH - 1
    ensures var (next, actions) := Apply(m, call);
            var n := |actions|;
            && (forall i :: 0 <= i < n - 1 ==> !Starts(actions[i]))
            && ((n > 0 && Starts(actions[n - 1])) <==> (next.phase.Starting? && next.epoch != m.epoch))
            && (n > 0 && Starts(actions[n - 1]) ==>
                  && next.epoch > m.epoch
                  && next.phase == Starting(actions[n - 1].epoch, actions[n - 1].scope)
                  && next.pendingScope == Some(actions[n - 1].scope))
  {
  }

  /** The scope is not served by an active generation, and none is being started. */
  predicate Unserved(m: Machine, scope: Scope) {
    m.phase == Idle || m.phase.Failed? || (m.phase.Active? && m.phase.scope != scope)
  }

  /** When a call has to begin a start. */
  predicate MustStart(m: Machine, call: Call) {
    match call
    case CallQueueNavigation(scope) => m.isForeground && Unserved(m, scope)
    case CallResume => m.pendingScope.Some? && (m.phase == Suspended || Unserved(m, m.pendingScope.value))
    case CallProxyStarted(epoch, scope, _) => m.phase == Starting(epoch, scope) && m.pendingScope != Some(scope)
    case CallRendererTerminated(retained) => m.isForeground && retained.Some?
    case CallRecover(scope) => m.phase.Active? && m.phase.scope == scope
    case _ => false
  }

  /** A call begins a start exactly when it has to. */
  lemma StartsExactlyWhen(m: Machine, call: Call)
    requires Consistent(m) && m.epoch < MAX_EPOCH - 1
    ensures var (next, actions) := Apply(m, call);
            (actions != [] && Starts(actions[|actions| - 1])) <==> MustStart(m, call)
  {
  }

  /** A generation that stops being active has its WebView revoked first, and then its
      proxy stopped, or the failure shown when it was not admitted. */
  lemma LeavingActiveRevokes(m: Machine, call: Call)
    requires Consistent(m) && m.phase.Active? && Apply(m, call).0.phase != m.phase
    ensures var actions := Apply(m, call).1;
            && |actions| >= 2 && actions[0] == RevokeWebView
            && actions[1] == if call.CallAdmissionFailed? then ShowFailure(m.phase.epoch) else RequestStopActiveProxy
  {
  }

  /** A callback of a superseded start changes nothing and starts nothing; a
      destroyed machine never changes and never asks for anything but disposal. */
  lemma StaleCallbacksAndDestruction(m: Machine, call: Call, epoch: nat, scope: Scope, succeeded: bool)
    ensures m.phase != Starting(epoch, scope) ==>
              ProxyStarted(m, epoch, scope, succeeded) == (m, if succeeded then [DisposeStaleProxy] else [])
    ensures m.phase.Destroyed? ==>
              Apply(m, call).0 == m && forall a <- Apply(m, call).1 :: a == DisposeStaleProxy
  {
  }

  // ---- Whole runs ----

  /** The epochs of the starts that actions ask for. */
  function EpochsOf(actions: seq<Action>): seq<nat> {
    if actions == [] then []
    else (if Starts(actions[0]) then [actions[0].epoch] else []) + EpochsOf(actions[1..])
  }

  function StartEpochs(calls: seq<Call>): seq<nat> {
    if calls == [] then []
    else StartEpochs(calls[..|calls| - 1]) + EpochsOf(Apply(ApplyAll(INITIAL, calls[..|calls| - 1]), calls[|calls| - 1]).1)
  }

  /** The run stays clear of the wrap of the epoch. */
  ghost predicate Clear(calls: seq<Call>) {
    calls != [] ==> Clear(calls[..|calls| - 1]) && ApplyAll(INITIAL, calls[..|calls| - 1]).epoch < MAX_EPOCH - 1
  }

  /** Strictly increasing, up to `high`. */
  predicate Ascends(epochs: seq<nat>, high: nat) {
    epochs != [] ==>
      epochs[|epochs| - 1] <= high && epochs[|epochs| - 1] > 0 && Ascends(epochs[..|epochs| - 1], epochs[|epochs| - 1] - 1)
  }

  lemma {:induction false} NoEpochs(actions: seq<Action>)
    requires forall a <- actions :: !Starts(a)
    ensures EpochsOf(actions) == []
    decreases |actions|
  {
    if actions != [] {
      assert actions[0] in actions;
      NoEpochs(actions[1..]);
    }
  }

  lemma {:induction false} LastEpoch(actions: seq<Action>)
    requires actions != [] && Starts(actions[|actions| - 1])
    requires forall i :: 0 <= i < |actions| - 1 ==> !Starts(actions[i])
    ensures EpochsOf(actions) == [actions[|actions| - 1].epoch]
    decreases |actions|
  {
    if |actions| == 1 {
      assert actions[1..] == [];
    } else {
      LastEpoch(actions[1..]);
    }
  }

  /** One transition starts nothing, or one new epoch that it enters. */
  lemma EpochsOfTransition(m: Machine, call: Call)
    requires Consistent(m) && m.epoch < MAX_EPOCH - 1
    ensures var (next, actions) := Apply(m, call);
            && m.epoch <= next.epoch
            && EpochsOf(actions) == (if next.phase.Starting? && next.epoch != m.epoch then [next.epoch] else [])
            && (next.phase.Starting? && next.epoch == m.epoch ==> m.phase == next.phase)
  {
    var (next, actions) := Apply(m, call);
    StartsAreAnnounced(m, call);
    if next.phase.Starting? && next.epoch != m.epoch {
      LastEpoch(actions);
      assert Consistent(next);
    } else {
      forall a | a in actions ensures !Starts(a) {
        var i :| 0 <= i < |actions| && actions[i] == a;
      }
      NoEpochs(actions);
    }
  }

  lemma {:induction false} AscendsHigher(epochs: seq<nat>, high: nat, higher: nat)
    requires Ascends(epochs, high) && high <= higher
    ensures Ascends(epochs, higher)
  {
  }

  /** Over every run clear of the wrap the epochs of the requested starts strictly
      increase, and .starting always names the newest of them. */
  lemma {:induction false} StartEpochsIncrease(calls: seq<Call>)
    requires Clear(calls)
    ensures var m, epochs := ApplyAll(INITIAL, calls), StartEpochs(calls);
            && Ascends(epochs, m.epoch)
            && (m.phase.Starting? ==> epochs != [] && epochs[|epochs| - 1] == m.phase.epoch == m.epoch)
    decreases |calls|
  {
    if calls != [] {
      var before, last := calls[..|calls| - 1], calls[|calls| - 1];
      var m, epochs := ApplyAll(INITIAL, before), StartEpochs(before);
      StartEpochsIncrease(before);
      AlwaysConsistent(before);
      AlwaysConsistent(calls);
      EpochsOfTransition(m, last);
      NewEpoch(epochs, m.epoch, Apply(m, last).0.epoch, EpochsOf(Apply(m, last).1));
    }
  }

  /** Epochs a call uses up: one for an interruption, two for a recovery, and one for
      the start that it or any other call begins. */
  function Advances(m: Machine, call: Call): nat {
    var begins := if Apply(m, call).0.phase.Starting? && Apply(m, call).0.phase != m.phase then 1 else 0;
    match call
    case CallSuspend(_) => if m.phase.Destroyed? then 0 else 1
    case CallDestroy => if m.phase.Destroyed? then 0 else 1
    case CallRendererTerminated(_) => if m.phase.Destroyed? then 0 else 1 + begins
    case CallRecover(_) => 2 * begins
    case _ => begins
  }

  function AllAdvances(calls: seq<Call>): nat {
    if calls == [] then 0
    else AllAdvances(calls[..|calls| - 1]) + Advances(ApplyAll(INITIAL, calls[..|calls| - 1]), calls[|calls| - 1])
  }

  /** Over every run clear of the wrap the epoch is the number of epochs used up, so
      what was started before an interruption never matches again. */
  lemma {:induction false} EpochCountsAdvances(calls: seq<Call>)
    requires Clear(calls)
    ensures ApplyAll(INITIAL, calls).epoch == AllAdvances(calls)
    decreases |calls|
  {
    if calls != [] {
      var before := calls[..|calls| - 1];
      EpochCountsAdvances(before);
      AlwaysConsistent(before);
      AdvancesCounted(ApplyAll(INITIAL, before), calls[|calls| - 1]);
    }
  }

  lemma AdvancesCounted(m: Machine, call: Call)
    requires Consistent(m) && m.epoch < MAX_EPOCH - 1
    ensures Apply(m, call).0.epoch == m.epoch + Advances(m, call)
  {
  }

  lemma NewEpoch(epochs: seq<nat>, high: nat, higher: nat, more: seq<nat>)
    requires Ascends(epochs, high) && high <= higher
    requires more == [] || (more == [higher] && high < higher)
    ensures Ascends(epochs + more, higher)
    ensures more == [] ==> epochs + more == epochs
  {
    if more == [] {
      AscendsHigher(epochs, high, higher);
      assert epochs + more == epochs;
    } else {
      AscendsHigher(epochs, high, higher - 1);
      assert (epochs + more)[..|epochs|] == epochs;
    }
  }

  /** Once destroyed, a machine stays as it is and never asks for a start again. */
  lemma {:induction false} DestroyedForGood(calls: seq<Call>, more: seq<Call>)
    requires ApplyAll(INITIAL, calls).phase.Destroyed?
    ensures ApplyAll(INITIAL, calls + more) == ApplyAll(INITIAL, calls)
    ensures StartEpochs(calls + more) == StartEpochs(calls)
    decreases |more|
  {
    if more == [] {
      assert calls + more == calls;
    } else {
      var last := more[|more| - 1];
      var before := calls + more[..|more| - 1];
      assert (calls + more)[..|calls + more| - 1] == before;
      DestroyedForGood(calls, more[..|more| - 1]);
      StaleCallbacksAndDestruction(ApplyAll(INITIAL, before), last, 0, WholeBrowser, true);
      NoEpochs(Apply(ApplyAll(INITIAL, before), last).1);
    }
  }
}

/** The struct's mutating methods, each proved to be its function above. */
module ProxyStateMachine {
  import opened Wrappers
  import opened ProxyMachine

  class BrowserProxyStateMachine {
    var phase: Phase
    var epoch: nat
    var pendingScope: Option<Scope>
    var isForeground: bool

    ghost function State(): Machine
      reads this
    {
      Machine(phase, epoch, pendingScope, isForeground)
    }

    constructor ()
      ensures State() == INITIAL
    {
      phase, epoch, pendingScope, isForeground := Suspended, 0, None, false;
    }

    method QueueNavigation(scope: Scope) returns (actions: seq<Action>)
      modifies this
      ensures (State(), actions) == ProxyMachine.QueueNavigation(old(State()), scope)
    {
      if phase == Destroyed {
        return [];
      }
      pendingScope := Some(scope);
      if !isForeground {
        return [];
      }
      match phase {
        case Idle => actions := BeginStart(scope);
        case Failed(_, _) => actions := BeginStart(scope);
        case Active(generation, active) =>
          if active == scope {
            return [AdmitThroughActiveProxy(generation, active)];
          }
          var start := BeginStart(scope);
          return [RevokeWebView, RequestStopActiveProxy] + start;
        case _ => return [];
      }
    }

    method Resume() returns (actions: seq<Action>)
      modifies this
      ensures (State(), actions) == ProxyMachine.Resume(old(State()))
    {
      if phase == Destroyed {
        return [];
      }
      isForeground := true;
      if phase == Suspended {
        phase := Idle;
      }
      if pendingScope.None? {
        return [];
      }
      match phase {
        case Idle => actions := BeginStart(pendingScope.value);
        case Failed(_, _) => actions := BeginStart(pendingScope.value);
        case Active(generation, active) =>
          if active == pendingScope.value {
            return [AdmitThroughActiveProxy(generation, active)];
          }
          var start := BeginStart(pendingScope.value);
          return [RevokeWebView, RequestStopActiveProxy] + start;
        case _ => return [];
      }
    }

    method ProxyStarted(callbackEpoch: nat, callbackScope: Scope, succeeded: bool) returns (actions: seq<Action>)
      modifies this
      ensures (State(), actions) == ProxyMachine.ProxyStarted(old(State()), callbackEpoch, callbackScope, succeeded)
    {
      if phase != Starting(callbackEpoch, callbackScope) || !isForeground {
        return if succeeded then [DisposeStaleProxy] else [];
      }
      if !succeeded {
        phase := Failed(callbackEpoch, callbackScope);
        if pendingScope.Some? && pendingScope.value != callbackScope {
          actions := BeginStart(pendingScope.value);
          return;
        }
        return [ShowFailure(callbackEpoch)];
      }
      if pendingScope != Some(callbackScope) {
        phase := Idle;
        actions := RestartActionsAfterStaleProxy();
        return;
      }
      phase := Active(callbackEpoch, callbackScope);
      return [PublishCandidateAndAdmitWebView(callbackEpoch, callbackScope)];
    }

    method NavigationAdmitted(callbackEpoch: nat, scope: Scope)
      modifies this
      ensures State() == ProxyMachine.NavigationAdmitted(old(State()), callbackEpoch, scope)
    {
      if phase == Active(callbackEpoch, scope) {
        pendingScope := None;
      }
    }

    method AdmissionFailed(callbackEpoch: nat, scope: Scope) returns (actions: seq<Action>)
      modifies this
      ensures (State(), actions) == ProxyMachine.AdmissionFailed(old(State()), callbackEpoch, scope)
    {
      if phase != Active(callbackEpoch, scope) {
        return [];
      }
      phase := Failed(callbackEpoch, scope);
      return [RevokeWebView, ShowFailure(callbackEpoch)];
    }

    method Suspend(retained: Option<Scope>) returns (actions: seq<Action>)
      modifies this
      ensures (State(), actions) == ProxyMachine.Suspend(old(State()), retained)
    {
      if phase == Destroyed {
        return [];
      }
      pendingScope := retained;
      isForeground := false;
      epoch := NextEpoch(epoch);
      var hadLiveProxy := phase.Active?;
      phase := Suspended;
      actions := [RevokeWebView];
      if hadLiveProxy {
        actions := actions + [RequestStopActiveProxy];
      }
      assert actions == StopActions(old(State()));
    }

    method RendererTerminated(retained: Option<Scope>) returns (actions: seq<Action>)
      modifies this
      ensures (State(), actions) == ProxyMachine.RendererTerminated(old(State()), retained)
    {
      if phase == Destroyed {
        return [];
      }
      var hadLiveProxy := phase.Active?;
      pendingScope := retained;
      epoch := NextEpoch(epoch);
      phase := if isForeground then Idle else Suspended;
      actions := [RevokeWebView];
      if hadLiveProxy {
        actions := actions + [RequestStopActiveProxy];
      }
      assert actions == StopActions(old(State()));
      if isForeground && pendingScope.Some? {
        var start := BeginStart(pendingScope.value);
        actions := actions + start;
      }
    }

    method RecoverProvisionalNavigation(scope: Scope) returns (actions: seq<Action>)
      modifies this
      ensures (State(), actions) == ProxyMachine.RecoverProvisionalNavigation(old(State()), scope)
    {
      if !isForeground || !phase.Active? || phase.scope != scope {
        return [];
      }
      pendingScope := Some(scope);
      epoch := NextEpoch(epoch);
      phase := Idle;
      var start := BeginStart(scope);
      return [RevokeWebView, RequestStopActiveProxy] + start;
    }

    method Destroy() returns (actions: seq<Action>)
      modifies this
      ensures (State(), actions) == ProxyMachine.Destroy(old(State()))
    {
      if phase == Destroyed {
        return [];
      }
      var hadLiveProxy := phase.Active?;
      epoch := NextEpoch(epoch);
      pendingScope := None;
      isForeground := false;
      phase := Destroyed;
      actions := [RevokeWebView];
      if hadLiveProxy {
        actions := actions + [RequestStopActiveProxy];
      }
      assert actions == StopActions(old(State()));
    }

    method BeginStart(scope: Scope) returns (actions: seq<Action>)
      modifies this
      ensures (State(), actions) == ProxyMachine.BeginStart(old(State()), scope)
    {
      epoch := NextEpoch(epoch);
      phase := Starting(epoch, scope);
      return [StartProxy(epoch, scope)];
    }

    method RestartActionsAfterStaleProxy() returns (actions: seq<Action>)
      modifies this
      ensures (State(), actions) == ProxyMachine.RestartAfterStale(old(State()))
    {
      phase := if isForeground then Idle else Suspended;
      if !isForeground || pendingScope.None? {
        return [DisposeStaleProxy];
      }
      epoch := NextEpoch(epoch);
      phase := Starting(epoch, pendingScope.value);
      return [DisposeStaleProxyThenStart(epoch, pendingScope.value)];
    }
  }
}
