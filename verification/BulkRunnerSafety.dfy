/** What holds of the checkpoint file and the requests after any sequence of runs,
    each of which may die between any two of its effects. */
module BulkRunnerSafety {
  import opened Wrappers
  import opened Sequences
  import opened Arithmetic
  import opened BulkRunner

  // ---- The shape of every checkpoint on disk ----

  function Names(cp: Checkpoint): seq<string> {
    cp.identity.namesDigest.names
  }

  /** Arguments that belong to an identity. */
  function ArgsOf(identity: Identity, resolution: Resolution): Args {
    Args(identity.action, identity.walletId, identity.account, identity.recipient, identity.namesDigest.names,
         identity.maxFee, identity.hardFee, identity.maxTotal, resolution, true, true)
  }

  /** 1 to 10,000 distinct names, a recipient exactly for a transfer, and fees that
      cannot exceed their limits. */
  ghost predicate Sane(identity: Identity) {
    var n := |identity.namesDigest.names|;
    && n == identity.nameCount && n != 0 && !(n > 10000) && Distinct(identity.namesDigest.names)
    && (match identity.recipient
        case None => identity.action == Finalize
        case Some(recipient) => if recipient == "" then identity.action == Finalize else identity.action == Transfer)
    && (identity.hardFee == None || identity.maxFee >= identity.hardFee.value)
    && (identity.maxTotal == None || identity.maxTotal.value >= identity.maxFee * n)
  }

  ghost predicate InOrder(completed: seq<Done>, names: seq<string>) {
    completed != [] ==>
      var last := |completed| - 1;
      && last < |names| && completed[last].index == last && completed[last].name == names[last]
      && InOrder(completed[..last], names)
  }

  predicate EndsInBroadcast(completed: seq<Done>) {
    completed != [] && !completed[|completed| - 1].resolved
  }

  ghost predicate Shaped(cp: Checkpoint) {
    var n := |Names(cp)|;
    && Sane(cp.identity)
    && InOrder(cp.completed, Names(cp)) && cp.nextIndex == |cp.completed| <= n
    && (cp.inflight.Some? ==> cp.nextIndex < n && cp.inflight.value == Inflight(cp.nextIndex, Names(cp)[cp.nextIndex]))
    && (cp.inflight.Some? ==> cp.status.InFlight? || cp.status.Ambiguous?)
    && (cp.status.Complete? <==> cp.nextIndex == n && EndsInBroadcast(cp.completed))
  }

  // ---- The effects a run can have next ----

  ghost predicate LegalWrite(previous: Checkpoint, attempt: Option<Sent>, cp: Checkpoint, rules: Rules) {
    if previous.inflight.None? then
      previous.nextIndex < |Names(previous)| && cp == Begun(previous, previous.nextIndex, Names(previous)[previous.nextIndex])
    else
      var Inflight(index, name) := previous.inflight.value;
      || cp == Failed(previous)
      || (cp == Cleared(previous) && !rules.noRetries)
      || (|cp.completed| > 0 && cp == Resolved(previous, cp.completed[|cp.completed| - 1].txid))
      || (attempt.Some? && attempt.value.answer.txid.Some?
          && cp == Committed(previous, index, name, attempt.value.answer.txid.value, |Names(previous)|))
  }

  /** What is taken for granted: that the server keeps to the maximum fee it is
      given, and that nobody uses --retry-inflight. */
  datatype Rules = Rules(capped: bool, noRetries: bool)

  ghost predicate Legal(w: World, effect: Effect, rules: Rules) {
    match effect
    case Write(cp) =>
      if w.disk.None? then Sane(cp.identity) && cp == Initial(cp.identity) else LegalWrite(w.disk.value, w.attempt, cp, rules)
    case Send(index, name, answer) =>
      && w.disk.Some? && w.disk.value.inflight == Some(Inflight(index, name)) && w.attempt.None?
      && (rules.capped ==> answer.fee <= w.disk.value.identity.maxFee)
  }

  ghost predicate AllLegal(w: World, effects: seq<Effect>, rules: Rules)
    decreases |effects|
  {
    effects != [] ==> Legal(w, effects[0], rules) && AllLegal(Happen(w, effects[0]), effects[1..], rules)
  }

  // ---- Every run only has legal effects ----

  lemma LegalStep(w: World, effect: Effect, rest: seq<Effect>, rules: Rules)
    requires Legal(w, effect, rules) && AllLegal(Happen(w, effect), rest, rules)
    ensures AllLegal(w, [effect] + rest, rules)
  {
    TailOfCons(effect, rest);
  }

  lemma LegalThree(w: World, a: Effect, b: Effect, c: Effect, rest: seq<Effect>, rules: Rules)
    requires Legal(w, a, rules) && Legal(Happen(w, a), b, rules) && Legal(Happen(Happen(w, a), b), c, rules)
    requires AllLegal(Happen(Happen(Happen(w, a), b), c), rest, rules)
    ensures AllLegal(w, [a, b, c] + rest, rules)
  {
    LegalStep(Happen(Happen(w, a), b), c, rest, rules);
    LegalStep(Happen(w, a), b, [c] + rest, rules);
    LegalStep(w, a, [b] + ([c] + rest), rules);
    ThreeHeads(a, b, c, rest);
  }

  lemma ShapedKept(previous: Checkpoint, attempt: Option<Sent>, cp: Checkpoint, rules: Rules)
    requires Shaped(previous) && LegalWrite(previous, attempt, cp, rules)
    ensures Shaped(cp) && cp.identity == previous.identity
  {
    if |cp.completed| > |previous.completed| {
      DropLast(previous.completed, cp.completed[|previous.completed|]);
    }
  }

  ghost predicate Obeys(rules: Rules, args: Args, answers: nat -> Answer) {
    && (rules.capped ==> forall i :: answers(i).fee <= args.maxFee)
    && (rules.noRetries ==> !args.resolution.Retry?)
  }

  /** The three effects of one pass. */
  lemma PassLegal(w: World, cp: Checkpoint, begun: Checkpoint, answer: Answer, next: Checkpoint, rules: Rules)
    requires w.disk == Some(cp) && Shaped(cp) && cp.inflight.None? && cp.nextIndex < |Names(cp)|
    requires rules.capped ==> answer.fee <= cp.identity.maxFee
    requires var index := cp.nextIndex;
             var name := Names(cp)[index];
             && begun == Begun(cp, index, name)
             && next == if answer.txid.None? then Failed(begun) else Committed(begun, index, name, answer.txid.value, |Names(cp)|)
    ensures var send := Send(cp.nextIndex, Names(cp)[cp.nextIndex], answer);
            var w1 := Happen(w, Write(begun));
            && Legal(w, Write(begun), rules) && Legal(w1, send, rules) && Legal(Happen(w1, send), Write(next), rules)
    ensures Shaped(next) && next.identity == cp.identity
  {
    var send := Send(cp.nextIndex, Names(cp)[cp.nextIndex], answer);
    var w2 := Happen(Happen(w, Write(begun)), send);
    ShapedKept(cp, None, begun, rules);
    ShapedKept(begun, w2.attempt, next, rules);
  }

  lemma PassThenRest(w: World, cp: Checkpoint, begun: Checkpoint, answer: Answer, next: Checkpoint, rest: seq<Effect>, rules: Rules)
    requires w.disk == Some(cp) && Shaped(cp) && cp.inflight.None? && cp.nextIndex < |Names(cp)|
    requires rules.capped ==> answer.fee <= cp.identity.maxFee
    requires begun == Begun(cp, cp.nextIndex, Names(cp)[cp.nextIndex])
    requires next == if answer.txid.None? then Failed(begun)
                     else Committed(begun, cp.nextIndex, Names(cp)[cp.nextIndex], answer.txid.value, |Names(cp)|)
    requires AllLegal(PassDone(w, begun, Send(cp.nextIndex, Names(cp)[cp.nextIndex], answer), next), rest, rules)
    ensures AllLegal(w, [Write(begun), Send(cp.nextIndex, Names(cp)[cp.nextIndex], answer), Write(next)] + rest, rules)
  {
    PassLegal(w, cp, begun, answer, next, rules);
    LegalThree(w, Write(begun), Send(cp.nextIndex, Names(cp)[cp.nextIndex], answer), Write(next), rest, rules);
  }

  function PassDone(w: World, begun: Checkpoint, send: Effect, next: Checkpoint): World {
    Happen(Happen(Happen(w, Write(begun)), send), Write(next))
  }

  lemma {:induction false} LoopLegal(w: World, cp: Checkpoint, args: Args, answers: nat -> Answer, rules: Rules)
    requires w.disk == Some(cp) && Shaped(cp) && cp.identity == IdentityOf(args) && cp.inflight.None?
    requires Obeys(rules, args, answers)
    ensures AllLegal(w, Loop(cp, args.names, cp.nextIndex, answers).effects, rules)
    decreases |args.names| - cp.nextIndex
  {
    var names, index := args.names, cp.nextIndex;
    if index < |names| {
      var name, answer := names[index], answers(index);
      var begun, send := Begun(cp, index, name), Send(index, name, answer);
      if answer.txid.None? {
        PassThenRest(w, cp, begun, answer, Failed(begun), [], rules);
        EmptyEnds([Write(begun), send, Write(Failed(begun))]);
      } else {
        var next := Committed(begun, index, name, answer.txid.value, |names|);
        PassLegal(w, cp, begun, answer, next, rules);
        LoopLegal(PassDone(w, begun, send, next), next, args, answers, rules);
        PassThenRest(w, cp, begun, answer, next, Loop(next, names, index + 1, answers).effects, rules);
      }
    }
  }

  lemma ContinueLegal(w: World, cp: Checkpoint, args: Args, answers: nat -> Answer, rules: Rules)
    requires w.disk == Some(cp) && Shaped(cp) && cp.identity == IdentityOf(args) && cp.inflight.None?
    requires Obeys(rules, args, answers)
    ensures AllLegal(w, Continue(cp, args, answers).effects, rules)
  {
    LoopLegal(w, cp, args, answers, rules);
  }

  lemma ReconciledLegal(w: World, cp: Checkpoint, args: Args, answers: nat -> Answer, rules: Rules)
    requires w.disk == Some(cp) && Shaped(cp)
    requires Obeys(rules, args, answers)
    ensures AllLegal(w, Reconciled(cp, args, answers).effects, rules)
  {
    var result := Reconcile(cp, IdentityOf(args), args.resolution);
    if result.Ok? {
      var (next, written) := result.value;
      if written {
        assert LegalWrite(cp, w.attempt, next, rules);
        ShapedKept(cp, w.attempt, next, rules);
        ContinueLegal(Happen(w, Write(next)), next, args, answers, rules);
        LegalStep(w, Write(next), Continue(next, args, answers).effects, rules);
      } else {
        ContinueLegal(w, next, args, answers, rules);
        EmptyEnds(Continue(next, args, answers).effects);
      }
    }
  }

  lemma RunLegal(w: World, args: Args, answers: nat -> Answer, rules: Rules)
    requires w.disk.Some? ==> Shaped(w.disk.value)
    requires Obeys(rules, args, answers)
    ensures AllLegal(w, BulkRunner.Run(args, w.disk, answers).effects, rules)
  {
    if ValidArgs(args) {
      if w.disk.None? {
        var first := Initial(IdentityOf(args));
        ReconciledLegal(Happen(w, Write(first)), first, args, answers, rules);
        LegalStep(w, Write(first), Reconciled(first, args, answers).effects, rules);
      } else {
        ReconciledLegal(w, w.disk.value, args, answers, rules);
      }
    }
  }

  // ---- What legal effects keep ----

  /** Requests sent for a name. */
  function Sends(sent: seq<Sent>, name: string): nat {
    if sent == [] then 0 else Sends(sent[..|sent| - 1], name) + if sent[|sent| - 1].name == name then 1 else 0
  }

  /** Times the in-flight record of name i was cleared for a retry. */
  function Clears(cleared: seq<Clearing>, i: nat): nat {
    if cleared == [] then 0 else Clears(cleared[..|cleared| - 1], i) + if cleared[|cleared| - 1].index == i then 1 else 0
  }

  function Spent(sent: seq<Sent>): nat {
    if sent == [] then 0 else Spent(sent[..|sent| - 1]) + sent[|sent| - 1].answer.fee
  }

  /** Fees of attempts that were cleared although they had been charged. */
  function Lost(cleared: seq<Clearing>): nat {
    if cleared == [] then 0 else Lost(cleared[..|cleared| - 1]) + cleared[|cleared| - 1].fee
  }

  function Pending(attempt: Option<Sent>): nat {
    if attempt.Some? then attempt.value.answer.fee else 0
  }

  ghost predicate Accounted(w: World, cp: Checkpoint, i: nat) {
    i < |Names(cp)| ==>
      var sends, clears := Sends(w.sent, Names(cp)[i]), Clears(w.cleared, i);
      if i < cp.nextIndex then sends <= 1 + clears
      else if i == cp.nextIndex then sends <= clears + if w.attempt.Some? then 1 else 0
      else sends == 0
  }

  ghost predicate WithinFees(w: World, cp: Checkpoint) {
    && Pending(w.attempt) <= cp.identity.maxFee
    && Spent(w.sent) <= cp.identity.maxFee * cp.nextIndex + Pending(w.attempt) + Lost(w.cleared)
  }

  /** The server confirmed this entry with its transaction hash. */
  ghost predicate Heard(sent: seq<Sent>, done: Done) {
    exists s <- sent :: s.index == done.index && s.name == done.name && s.answer.txid == Some(done.txid)
  }

  ghost predicate Confirmed(w: World, cp: Checkpoint, i: nat) {
    i < |cp.completed| && !cp.completed[i].resolved ==> Heard(w.sent, cp.completed[i])
  }

  ghost predicate Attempted(w: World, cp: Checkpoint) {
    w.attempt.Some? ==>
      && w.attempt.value in w.sent
      && cp.inflight == Some(Inflight(w.attempt.value.index, w.attempt.value.name))
  }

  ghost predicate Kept(w: World, i: nat, rules: Rules) {
    match w.disk
    case None => w.sent == [] && w.attempt.None? && w.cleared == []
    case Some(cp) =>
      && Shaped(cp) && Attempted(w, cp) && Accounted(w, cp, i) && Confirmed(w, cp, i)
      && (rules.capped ==> WithinFees(w, cp)) && (rules.noRetries ==> w.cleared == [])
  }

  lemma ProductNext(a: nat, n: nat)
    ensures a * (n + 1) == a * n + a
  {
  }

  lemma FeeSettles(fee: nat, n: nat, spent: nat, pending: nat, lost: nat)
    requires pending <= fee && spent <= fee * n + pending + lost
    ensures spent <= fee * (n + 1) + lost
  {
    ProductNext(fee, n);
  }

  lemma SendKept(w: World, effect: Effect, i: nat, rules: Rules)
    requires Kept(w, i, rules) && Legal(w, effect, rules) && effect.Send?
    ensures Kept(Happen(w, effect), i, rules)
  {
    var Send(index, name, answer) := effect;
    DropLast(w.sent, Sent(index, name, answer));
  }

  lemma ClearingKept(w: World, i: nat, rules: Rules)
    requires Kept(w, i, rules) && w.disk.Some? && w.disk.value.inflight.Some? && !rules.noRetries
    ensures Kept(Happen(w, Write(Cleared(w.disk.value))), i, rules)
  {
    var after := Happen(w, Write(Cleared(w.disk.value)));
    DropLast(w.cleared, after.cleared[|w.cleared|]);
  }

  lemma CompletionConfirmed(w: World, cp: Checkpoint, i: nat, rules: Rules)
    requires Kept(w, i, rules) && Legal(w, Write(cp), rules)
    requires w.disk.Some? && cp.nextIndex > w.disk.value.nextIndex
    ensures Confirmed(Happen(w, Write(cp)), cp, i)
  {
    var before := w.disk.value;
    assert cp.completed == before.completed + [cp.completed[before.nextIndex]];
  }

  lemma CompletionWithinFees(w: World, cp: Checkpoint, i: nat, rules: Rules)
    requires Kept(w, i, rules) && Legal(w, Write(cp), rules) && rules.capped
    requires w.disk.Some? && cp.nextIndex > w.disk.value.nextIndex
    ensures WithinFees(Happen(w, Write(cp)), cp)
  {
    FeeSettles(cp.identity.maxFee, w.disk.value.nextIndex, Spent(w.sent), Pending(w.attempt), Lost(w.cleared));
  }

  /** The in-flight name is completed, by the server's answer or by hand. */
  lemma CompletionKept(w: World, cp: Checkpoint, i: nat, rules: Rules)
    requires Kept(w, i, rules) && Legal(w, Write(cp), rules)
    requires w.disk.Some? && cp.nextIndex > w.disk.value.nextIndex
    ensures Kept(Happen(w, Write(cp)), i, rules)
  {
    ShapedKept(w.disk.value, w.attempt, cp, rules);
    CompletionConfirmed(w, cp, i, rules);
    if rules.capped {
      CompletionWithinFees(w, cp, i, rules);
    }
  }

  /** The first checkpoint, a new in-flight record, or a note of its failure. */
  lemma NoteKept(w: World, cp: Checkpoint, i: nat, rules: Rules)
    requires Kept(w, i, rules) && Legal(w, Write(cp), rules)
    requires w.disk.Some? ==> cp.inflight.Some? && cp.nextIndex == w.disk.value.nextIndex
    ensures Kept(Happen(w, Write(cp)), i, rules)
  {
    if w.disk.Some? {
      ShapedKept(w.disk.value, w.attempt, cp, rules);
    }
  }

  lemma WriteKept(w: World, cp: Checkpoint, i: nat, rules: Rules)
    requires Kept(w, i, rules) && Legal(w, Write(cp), rules)
    ensures Kept(Happen(w, Write(cp)), i, rules)
  {
    if w.disk.Some? && cp.nextIndex > w.disk.value.nextIndex {
      CompletionKept(w, cp, i, rules);
    } else if w.disk.Some? && cp.inflight.None? {
      ClearingKept(w, i, rules);
    } else {
      NoteKept(w, cp, i, rules);
    }
  }

  lemma {:induction false} ReplayKept(w: World, effects: seq<Effect>, count: nat, i: nat, rules: Rules)
    requires Kept(w, i, rules) && AllLegal(w, effects, rules)
    ensures Kept(Replay(w, effects, count), i, rules)
    decreases |effects|
  {
    if effects != [] && count > 0 {
      if effects[0].Send? {
        SendKept(w, effects[0], i, rules);
      } else {
        WriteKept(w, effects[0].checkpoint, i, rules);
      }
      ReplayKept(Happen(w, effects[0]), effects[1..], count - 1, i, rules);
    }
  }

  lemma {:induction false} HistoryKept(invocations: seq<Invocation>, i: nat, rules: Rules)
    requires forall v <- invocations :: Obeys(rules, v.args, v.answers)
    ensures Kept(History(invocations), i, rules)
    decreases |invocations|
  {
    if invocations != [] {
      var last := invocations[|invocations| - 1];
      var w := History(invocations[..|invocations| - 1]);
      assert last in invocations;
      HistoryKept(invocations[..|invocations| - 1], i, rules);
      RunLegal(w, last.args, last.answers, rules);
      ReplayKept(w, BulkRunner.Run(last.args, w.disk, last.answers).effects, last.survives, i, rules);
    }
  }

  // ---- Main results ----

  /** However often the tool is started, dies, fails or is resolved by hand, name i
      is requested at most once more than its record was cleared by --retry-inflight,
      and not at all once it is past the next index. */
  lemma SentAtMostOnce(invocations: seq<Invocation>, i: nat)
    ensures var w := History(invocations);
            && (w.disk.None? ==> w.sent == [])
            && (w.disk.Some? && i < |Names(w.disk.value)| ==>
                  && Sends(w.sent, Names(w.disk.value)[i]) <= 1 + Clears(w.cleared, i)
                  && (i > w.disk.value.nextIndex ==> Sends(w.sent, Names(w.disk.value)[i]) == 0))
  {
    HistoryKept(invocations, i, Rules(false, false));
  }

  lemma {:induction false} InOrderAt(completed: seq<Done>, names: seq<string>, i: nat)
    requires InOrder(completed, names) && i < |completed|
    ensures i < |names| && completed[i].index == i && completed[i].name == names[i]
    decreases |completed|
  {
    if i < |completed| - 1 {
      InOrderAt(completed[..|completed| - 1], names, i);
    }
  }

  /** Every checkpoint on disk: the completed entries are the names 0 .. nextIndex-1
      in order, each confirmed by the server or resolved by hand; the in-flight record
      is empty or about the next name, and the status says so; and the batch is one
      whose arguments were acceptable. */
  lemma CheckpointsAreSound(invocations: seq<Invocation>, i: nat)
    ensures var w := History(invocations);
            w.disk.Some? ==>
              var cp := w.disk.value;
              && Sane(cp.identity) && cp.nextIndex == |cp.completed| <= |Names(cp)|
              && (i < cp.nextIndex ==>
                    && cp.completed[i].index == i && cp.completed[i].name == Names(cp)[i]
                    && (cp.completed[i].resolved || Heard(w.sent, cp.completed[i])))
              && (cp.inflight.Some? ==> cp.inflight.value.index == cp.nextIndex < |Names(cp)|
                                        && (cp.status.InFlight? || cp.status.Ambiguous?))
  {
    HistoryKept(invocations, i, Rules(false, false));
    var w := History(invocations);
    if w.disk.Some? && i < w.disk.value.nextIndex {
      InOrderAt(w.disk.value.completed, Names(w.disk.value), i);
    }
  }

  /** The status says complete exactly when all names are done and the last one
      was not resolved by hand; a batch that ends in a resolution never says so. */
  lemma CompleteMeansBroadcast(invocations: seq<Invocation>)
    ensures var w := History(invocations);
            w.disk.Some? ==>
              var cp := w.disk.value;
              cp.status.Complete? <==> cp.nextIndex == |Names(cp)| && EndsInBroadcast(cp.completed)
  {
    HistoryKept(invocations, 0, Rules(false, false));
  }

  lemma FeesOfPart(fee: nat, done: nat, all: nat)
    requires done <= all
    ensures fee * done <= fee * all
  {
    ProductMonotone(done, all, fee);
  }

  /** Fees beyond the declared total are fees of attempts the operator cleared
      although they had been charged: with no retries, or only retries of requests
      that were never broadcast, the declared total is an upper bound. */
  lemma FeesWithinTotal(invocations: seq<Invocation>)
    requires forall v <- invocations :: Obeys(Rules(true, false), v.args, v.answers)
    ensures var w := History(invocations);
            w.disk.Some? && w.disk.value.identity.maxTotal.Some? ==>
              Spent(w.sent) <= w.disk.value.identity.maxTotal.value + Lost(w.cleared)
  {
    HistoryKept(invocations, 0, Rules(true, false));
    var w := History(invocations);
    if w.disk.Some? {
      var cp := w.disk.value;
      ProductNext(cp.identity.maxFee, cp.nextIndex);
      FeesOfPart(cp.identity.maxFee, if cp.inflight.Some? then cp.nextIndex + 1 else cp.nextIndex, |Names(cp)|);
    }
  }

  /** With no --retry-inflight and a server that keeps to the fee cap, each name is
      requested at most once and the declared total is never exceeded. */
  lemma WithoutRetries(invocations: seq<Invocation>, i: nat)
    requires forall v <- invocations :: Obeys(Rules(true, true), v.args, v.answers)
    ensures var w := History(invocations);
            w.disk.Some? ==>
              && (i < |Names(w.disk.value)| ==> Sends(w.sent, Names(w.disk.value)[i]) <= 1)
              && (w.disk.value.identity.maxTotal.Some? ==> Spent(w.sent) <= w.disk.value.identity.maxTotal.value)
  {
    HistoryKept(invocations, i, Rules(true, true));
    FeesWithinTotal(invocations);
    SentAtMostOnce(invocations, i);
  }

  // ---- A charged request that is retried all the same ----

  lemma ReplayFour(w: World, a: Effect, b: Effect, c: Effect, d: Effect)
    ensures Replay(w, [a, b, c, d], 4) == Happen(Happen(Happen(Happen(w, a), b), c), d)
  {
    ReplayThree(w, a, b, c, [d]);
    ReplayAppend(Happen(Happen(Happen(w, a), b), c), d, []);
    assert [a, b, c] + [d] == [a, b, c, d] && [d] + [] == [d];
  }

  function OneName(resolution: Resolution): Args {
    Args(Finalize, "", "", None, ["name"], 1, None, Some(1), resolution, true, true)
  }

  function Unanswered(): nat -> Answer {
    (i: nat) => Answer(None, 1)
  }

  function Answered(txid: string): nat -> Answer {
    (i: nat) => Answer(Some(txid), 1)
  }

  function Charged(): World {
    var sent := Sent(0, "name", Answer(None, 1));
    World(Some(Failed(Begun(Initial(IdentityOf(OneName(NoResolution))), 0, "name"))), [sent], Some(sent), [])
  }

  lemma FirstAttempt()
    ensures Invoke(INITIAL_WORLD, Invocation(OneName(NoResolution), Unanswered(), 4)) == Charged()
  {
    var cp := Initial(IdentityOf(OneName(NoResolution)));
    var begun, send := Begun(cp, 0, "name"), Send(0, "name", Answer(None, 1));
    assert Loop(cp, ["name"], 0, Unanswered()).effects == [Write(begun), send, Write(Failed(begun))];
    assert BulkRunner.Run(OneName(NoResolution), None, Unanswered()).effects
        == [Write(cp), Write(begun), send, Write(Failed(begun))];
    ReplayFour(INITIAL_WORLD, Write(cp), Write(begun), send, Write(Failed(begun)));
  }

  lemma SecondAttempt(txid: string)
    ensures var end := Invoke(Charged(), Invocation(OneName(Retry), Answered(txid), 4));
            && end.disk.Some? && end.disk.value.identity == IdentityOf(OneName(Retry))
            && end.sent == Charged().sent + [Sent(0, "name", Answer(Some(txid), 1))]
            && end.cleared == [Clearing(0, 1)]
  {
    var cp := Cleared(Charged().disk.value);
    var begun, send := Begun(cp, 0, "name"), Send(0, "name", Answer(Some(txid), 1));
    var done := Committed(begun, 0, "name", txid, 1);
    assert Loop(done, ["name"], 1, Answered(txid)).effects == [];
    assert Loop(cp, ["name"], 0, Answered(txid)).effects == [Write(begun), send, Write(done)];
    assert BulkRunner.Run(OneName(Retry), Charged().disk, Answered(txid)).effects
        == [Write(cp), Write(begun), send, Write(done)];
    ReplayFour(Charged(), Write(cp), Write(begun), send, Write(done));
  }

  /** The declared total does not bound the fees of a batch whose failed request
      was charged: with one name, fee cap 1 and total 1, a retry spends 2. */
  lemma ChargedRetryOverspends(txid: string) returns (invocations: seq<Invocation>)
    ensures forall v <- invocations :: Obeys(Rules(true, false), v.args, v.answers)
    ensures var w := History(invocations);
            w.disk.Some? && w.disk.value.identity.maxTotal == Some(1) && Spent(w.sent) == 2 && Lost(w.cleared) == 1
  {
    var first, second := Invocation(OneName(NoResolution), Unanswered(), 4), Invocation(OneName(Retry), Answered(txid), 4);
    invocations := [first, second];
    assert invocations[..1] == [first] && [first][..0] == [];
    assert History([first]) == Invoke(INITIAL_WORLD, first);
    FirstAttempt();
    SecondAttempt(txid);
    SpentAndLost(Charged().sent[0], Sent(0, "name", Answer(Some(txid), 1)), Clearing(0, 1));
  }

  lemma SpentAndLost(a: Sent, b: Sent, c: Clearing)
    ensures Spent([a] + [b]) == a.answer.fee + b.answer.fee && Lost([c]) == c.fee
  {
    DropLast([a], b);
    assert [a][..0] == [] && [c][..0] == [];
    assert Spent([a]) == a.answer.fee && ([a] + [b])[|[a] + [b]| - 1] == b;
  }

  // ---- A run that reports success is done ----

  lemma ReplayAppend(w: World, a: Effect, rest: seq<Effect>)
    ensures Replay(w, [a] + rest, |rest| + 1) == Replay(Happen(w, a), rest, |rest|)
  {
    TailOfCons(a, rest);
  }

  lemma ReplayThree(w: World, a: Effect, b: Effect, c: Effect, rest: seq<Effect>)
    ensures Replay(w, [a, b, c] + rest, |rest| + 3) == Replay(Happen(Happen(Happen(w, a), b), c), rest, |rest|)
  {
    ThreeHeads(a, b, c, rest);
    ReplayAppend(w, a, [b] + ([c] + rest));
    ReplayAppend(Happen(w, a), b, [c] + rest);
    ReplayAppend(Happen(Happen(w, a), b), c, rest);
  }

  lemma {:induction false} LoopFinishes(w: World, cp: Checkpoint, names: seq<string>, index: nat, answers: nat -> Answer)
    requires w.disk == Some(cp) && cp.nextIndex == index <= |names|
    ensures var ran := Loop(cp, names, index, answers);
            ran.outcome.Finished? ==>
              var end := Replay(w, ran.effects, |ran.effects|).disk;
              end.Some? && end.value.nextIndex == |names| && end.value.identity == cp.identity
    decreases |names| - index
  {
    if index < |names| && answers(index).txid.Some? {
      var name, answer := names[index], answers(index);
      var begun := Begun(cp, index, name);
      var done := Committed(begun, index, name, answer.txid.value, |names|);
      var rest := Loop(done, names, index + 1, answers).effects;
      var w1 := Happen(w, Write(begun));
      var w2 := Happen(w1, Send(index, name, answer));
      LoopFinishes(Happen(w2, Write(done)), done, names, index + 1, answers);
      ReplayThree(w, Write(begun), Send(index, name, answer), Write(done), rest);
    }
  }

  lemma ReconciledFinishes(w: World, cp: Checkpoint, args: Args, answers: nat -> Answer)
    requires w.disk == Some(cp) && Shaped(cp)
    ensures var ran := Reconciled(cp, args, answers);
            ran.outcome.Finished? ==>
              var end := Replay(w, ran.effects, |ran.effects|).disk;
              end.Some? && end.value.nextIndex == |args.names| && end.value.identity == IdentityOf(args)
  {
    var result := Reconcile(cp, IdentityOf(args), args.resolution);
    if result.Ok? {
      var (next, written) := result.value;
      if next.nextIndex <= |args.names| {
        var rest := Continue(next, args, answers).effects;
        if written {
          LoopFinishes(Happen(w, Write(next)), next, args.names, next.nextIndex, answers);
          ReplayAppend(w, Write(next), rest);
        } else {
          LoopFinishes(w, next, args.names, next.nextIndex, answers);
          EmptyEnds(rest);
        }
      }
    }
  }

  /** An invocation that survives and returns success leaves every one of its names
      completed, whatever went before. */
  lemma SuccessMeansDone(earlier: seq<Invocation>, last: Invocation)
    ensures var ran := BulkRunner.Run(last.args, History(earlier).disk, last.answers);
            ran.outcome.Finished? && last.survives == |ran.effects| ==>
              var disk := Invoke(History(earlier), last).disk;
              disk.Some? && disk.value.identity == IdentityOf(last.args) && disk.value.nextIndex == |last.args.names|
  {
    HistoryKept(earlier, 0, Rules(false, false));
    var w := History(earlier);
    if ValidArgs(last.args) {
      if w.disk.None? {
        var first := Initial(IdentityOf(last.args));
        ReconciledFinishes(Happen(w, Write(first)), first, last.args, last.answers);
        ReplayAppend(w, Write(first), Reconciled(first, last.args, last.answers).effects);
      } else {
        ReconciledFinishes(w, w.disk.value, last.args, last.answers);
      }
    }
  }
}
