/** When the declared total bounds the fees: exactly when it covers what was spent and
    the maximum fee of every name still to be requested. */
module BulkRunnerFees {
  import opened Wrappers
  import opened Sequences
  import opened Arithmetic
  import opened BulkRunner
  import opened BulkRunnerSafety

  /** Runs by servers that keep to the fee cap, without --retry-inflight. */
  ghost predicate Continues(more: seq<Invocation>) {
    forall v <- more :: Obeys(Rules(true, true), v.args, v.answers)
  }

  /** Names that may still be requested without a retry. */
  function Unsent(cp: Checkpoint, attempt: Option<Sent>): int {
    |Names(cp)| - cp.nextIndex - if attempt.Some? then 1 else 0
  }

  function Exposure(spent: nat, fee: nat, unsent: int): int {
    spent + fee * unsent
  }

  ghost predicate Exposed(w: World, limit: int) {
    && w.disk.Some? && Shaped(w.disk.value) && Attempted(w, w.disk.value)
    && 0 <= Unsent(w.disk.value, w.attempt)
    && Exposure(Spent(w.sent), w.disk.value.identity.maxFee, Unsent(w.disk.value, w.attempt)) <= limit
  }

  // ---- The exposure never grows ----

  lemma ExposureSends(spent: nat, fee: nat, unsent: int, charged: nat)
    requires charged <= fee
    ensures Exposure(spent + charged, fee, unsent - 1) <= Exposure(spent, fee, unsent)
  {
    Distribute(unsent - 1, 1, fee);
  }

  lemma ExposureSkips(spent: nat, fee: nat, unsent: int, less: int)
    requires less <= unsent
    ensures Exposure(spent, fee, less) <= Exposure(spent, fee, unsent)
  {
    ProductMonotone(less, unsent, fee);
  }

  lemma SendExposed(w: World, effect: Effect, limit: int)
    requires Exposed(w, limit) && Legal(w, effect, Rules(true, true)) && effect.Send?
    ensures Exposed(Happen(w, effect), limit)
  {
    var Send(index, name, answer) := effect;
    var cp := w.disk.value;
    DropLast(w.sent, Sent(index, name, answer));
    ExposureSends(Spent(w.sent), cp.identity.maxFee, Unsent(cp, w.attempt), answer.fee);
  }

  lemma WriteExposed(w: World, cp: Checkpoint, limit: int)
    requires Exposed(w, limit) && Legal(w, Write(cp), Rules(true, true))
    ensures Exposed(Happen(w, Write(cp)), limit)
  {
    var before, after := w.disk.value, Happen(w, Write(cp));
    ShapedKept(before, w.attempt, cp, Rules(true, true));
    ExposureSkips(Spent(w.sent), cp.identity.maxFee, Unsent(before, w.attempt), Unsent(cp, after.attempt));
  }

  lemma {:induction false} ReplayExposed(w: World, effects: seq<Effect>, count: nat, limit: int)
    requires Exposed(w, limit) && AllLegal(w, effects, Rules(true, true))
    ensures Exposed(Replay(w, effects, count), limit)
    decreases |effects|
  {
    if effects != [] && count > 0 {
      if effects[0].Send? {
        SendExposed(w, effects[0], limit);
      } else {
        WriteExposed(w, effects[0].checkpoint, limit);
      }
      ReplayExposed(Happen(w, effects[0]), effects[1..], count - 1, limit);
    }
  }

  lemma {:induction false} HistoryExposed(invocations: seq<Invocation>, more: seq<Invocation>, limit: int)
    requires Exposed(History(invocations), limit) && Continues(more)
    ensures Exposed(History(invocations + more), limit)
    decreases |more|
  {
    if more == [] {
      EmptyEnds(invocations);
    } else {
      var last, init := more[|more| - 1], more[..|more| - 1];
      assert last in more && forall v <- init :: v in more;
      HistoryExposed(invocations, init, limit);
      assert invocations + more == invocations + init + [last];
      InvokeExposed(History(invocations + init), last, limit);
      HistoryNext(invocations + init, last);
    }
  }

  lemma InvokeExposed(w: World, invocation: Invocation, limit: int)
    requires Exposed(w, limit) && Obeys(Rules(true, true), invocation.args, invocation.answers)
    ensures Exposed(Invoke(w, invocation), limit)
  {
    RunLegal(w, invocation.args, invocation.answers, Rules(true, true));
    ReplayExposed(w, BulkRunner.Run(invocation.args, w.disk, invocation.answers).effects, invocation.survives, limit);
  }

  lemma HistoryNext(invocations: seq<Invocation>, last: Invocation)
    ensures History(invocations + [last]) == Invoke(History(invocations), last)
  {
    DropLast(invocations, last);
  }

  // ---- A server that charges the maximum every time ----

  function Confirmation(): string {
    seq(64, _ => '0')
  }

  function ChargesAll(fee: nat): nat -> Answer {
    (i: nat) => Answer(Some(Confirmation()), fee)
  }

  lemma ExposureCharged(spent: nat, fee: nat, unsent: int)
    ensures Exposure(spent + fee, fee, unsent - 1) == Exposure(spent, fee, unsent)
  {
    Distribute(unsent - 1, 1, fee);
  }

  lemma {:induction false} LoopSpends(w: World, cp: Checkpoint, names: seq<string>, index: nat, fee: nat)
    requires index <= |names|
    ensures var ran := Loop(cp, names, index, ChargesAll(fee));
            Spent(Replay(w, ran.effects, |ran.effects|).sent) == Exposure(Spent(w.sent), fee, |names| - index)
    decreases |names| - index
  {
    if index < |names| {
      var name, answer := names[index], ChargesAll(fee)(index);
      var begun := Begun(cp, index, name);
      var done := Committed(begun, index, name, Confirmation(), |names|);
      var w1 := Happen(w, Write(begun));
      var w2 := Happen(w1, Send(index, name, answer));
      LoopSpends(Happen(w2, Write(done)), done, names, index + 1, fee);
      ReplayThree(w, Write(begun), Send(index, name, answer), Write(done),
                  Loop(done, names, index + 1, ChargesAll(fee)).effects);
      DropLast(w.sent, Sent(index, name, answer));
      ExposureCharged(Spent(w.sent), fee, |names| - index);
    }
  }

  /** One more run, all of whose requests are confirmed at the maximum fee. */
  function FullRun(w: World): Invocation
    requires w.disk.Some?
  {
    var identity := w.disk.value.identity;
    var args, answers := ArgsOf(identity, NoResolution), ChargesAll(identity.maxFee);
    Invocation(args, answers, |BulkRunner.Run(args, w.disk, answers).effects|)
  }

  lemma FullRunSpends(w: World)
    requires w.disk.Some? && Shaped(w.disk.value) && w.disk.value.inflight.None?
    ensures var cp := w.disk.value;
            Spent(Invoke(w, FullRun(w)).sent) == Exposure(Spent(w.sent), cp.identity.maxFee, |Names(cp)| - cp.nextIndex)
    ensures Obeys(Rules(true, true), FullRun(w).args, FullRun(w).answers)
  {
    var cp := w.disk.value;
    var args, answers := FullRun(w).args, FullRun(w).answers;
    var loop := Loop(cp, args.names, cp.nextIndex, answers);
    assert IdentityOf(args) == cp.identity;
    EmptyEnds(loop.effects);
    assert BulkRunner.Run(args, w.disk, answers).effects == loop.effects;
    LoopSpends(w, cp, args.names, cp.nextIndex, cp.identity.maxFee);
  }

  // ---- Main results ----

  /** The declared total is kept by every continuation without --retry-inflight, by
      servers that keep to the fee cap. */
  ghost predicate TotalKept(invocations: seq<Invocation>, total: nat) {
    forall more :: Continues(more) ==> Spent(History(invocations + more).sent) <= total
  }

  /** What was spent and the maximum fee of every name from the next one on. */
  function WorstCase(w: World): int
    requires w.disk.Some?
  {
    var cp := w.disk.value;
    Exposure(Spent(w.sent), cp.identity.maxFee, |Names(cp)| - cp.nextIndex)
  }

  lemma CoveredIsKept(invocations: seq<Invocation>, total: nat)
    requires Exposed(History(invocations), total)
    ensures TotalKept(invocations, total)
  {
    forall more | Continues(more) ensures Spent(History(invocations + more).sent) <= total {
      HistoryExposed(invocations, more, total);
      SpentWithinExposure(History(invocations + more), total);
    }
  }

  lemma KeptNext(invocations: seq<Invocation>, next: Invocation, total: nat)
    requires TotalKept(invocations, total) && Obeys(Rules(true, true), next.args, next.answers)
    ensures Spent(Invoke(History(invocations), next).sent) <= total
  {
    HistoryNext(invocations, next);
    assert Continues([next]);
    assert Spent(History(invocations + [next]).sent) <= total;
  }

  /** A continuation that reaches the worst case. */
  lemma FullCharge(w: World) returns (full: Invocation)
    requires w.disk.Some? && Shaped(w.disk.value) && w.disk.value.inflight.None?
    ensures Spent(Invoke(w, full).sent) == WorstCase(w)
    ensures Obeys(Rules(true, true), full.args, full.answers)
  {
    full := FullRun(w);
    FullRunSpends(w);
  }

  lemma WorldKept(invocations: seq<Invocation>)
    ensures var w := History(invocations);
            w.disk.Some? ==> Shaped(w.disk.value) && Attempted(w, w.disk.value)
  {
    HistoryKept(invocations, 0, Rules(false, false));
  }

  /** Nothing in flight: the declared total is kept from here on if and only if it
      covers what was spent and the maximum fee of every name left. */
  lemma TotalKeptExactly(invocations: seq<Invocation>, w: World, total: nat)
    requires w == History(invocations)
    requires w.disk.Some? && w.disk.value.inflight.None? && w.disk.value.identity.maxTotal == Some(total)
    ensures TotalKept(invocations, total) <==> WorstCase(w) <= total
  {
    WorldKept(invocations);
    var full := FullCharge(w);
    if TotalKept(invocations, total) {
      KeptNext(invocations, full, total);
    }
    if WorstCase(w) <= total {
      CoveredIsKept(invocations, total);
    }
  }

  lemma SpentWithinExposure(w: World, limit: int)
    requires Exposed(w, limit)
    ensures Spent(w.sent) <= limit
  {
    ProductMonotone(0, Unsent(w.disk.value, w.attempt), w.disk.value.identity.maxFee);
  }

  /** What an operator can check before --retry-inflight: clearing the in-flight name
      leaves the declared total safe if and only if it covers what was spent and the
      maximum fee of every name from the in-flight one on. */
  lemma RetryKeepsTotalExactly(invocations: seq<Invocation>, w: World, total: nat, answers: nat -> Answer)
    requires w == History(invocations)
    requires w.disk.Some? && w.disk.value.inflight.Some? && w.disk.value.identity.maxTotal == Some(total)
    ensures var retry := Invocation(ArgsOf(w.disk.value.identity, Retry), answers, 1);
            TotalKept(invocations + [retry], total) <==> WorstCase(w) <= total
  {
    WorldKept(invocations);
    var retry := Invocation(ArgsOf(w.disk.value.identity, Retry), answers, 1);
    HistoryNext(invocations, retry);
    RetryKeepsWorstCase(w, retry);
    TotalKeptExactly(invocations + [retry], Invoke(w, retry), total);
  }

  lemma RetryKeepsWorstCase(w: World, retry: Invocation)
    requires w.disk.Some? && Shaped(w.disk.value) && w.disk.value.inflight.Some?
    requires retry == Invocation(ArgsOf(w.disk.value.identity, Retry), retry.answers, 1)
    ensures var after := Invoke(w, retry);
            && after.disk.Some? && after.disk.value.inflight.None?
            && after.disk.value.identity == w.disk.value.identity && WorstCase(after) == WorstCase(w)
  {
    RetryClears(w, retry.answers);
  }

  lemma RetryClears(w: World, answers: nat -> Answer)
    requires w.disk.Some? && Shaped(w.disk.value) && w.disk.value.inflight.Some?
    ensures var after := Invoke(w, Invocation(ArgsOf(w.disk.value.identity, Retry), answers, 1));
            after.disk == Some(Cleared(w.disk.value)) && after.sent == w.sent
  {
    var cp := w.disk.value;
    var args := ArgsOf(cp.identity, Retry);
    assert IdentityOf(args) == cp.identity && ValidArgs(args);
    var rest := Continue(Cleared(cp), args, answers).effects;
    var effects := BulkRunner.Run(args, w.disk, answers).effects;
    assert effects == [Write(Cleared(cp))] + rest;
    assert Replay(w, effects, 1) == Replay(Happen(w, effects[0]), effects[1..], 0);
  }
}
