/** What one invocation comes to: which requests it sends, what it answers and the
    checkpoint it leaves, for every file it can find and every server. */
module BulkRunnerOutcomes {
  import opened Wrappers
  import opened Sequences
  import opened BulkRunner
  import opened BulkRunnerSafety

  // ---- What the operator says about the request in flight ----

  predicate IsHash(s: string) {
    |s| == 64 && forall i :: 0 <= i < |s| ==> s[i] in "0123456789abcdef"
  }

  function FoldHex(c: char): char {
    match c
    case 'A' => 'a'
    case 'B' => 'b'
    case 'C' => 'c'
    case 'D' => 'd'
    case 'E' => 'e'
    case 'F' => 'f'
    case _ => c
  }

  function Folded(s: string): string {
    seq(|s|, i requires 0 <= i < |s| => FoldHex(s[i]))
  }

  datatype Statement = Nothing | ItWas(hash: string) | Again | Garbage

  function Says(resolution: Resolution): Statement {
    match resolution
    case NoResolution => Nothing
    case Retry => Again
    case Resolve(txid) => if txid == "" then Nothing else if IsHash(Folded(txid)) then ItWas(Folded(txid)) else Garbage
  }

  predicate HexDigit(c: char) {
    '0' <= c <= '9' || 'a' <= c <= 'f'
  }

  lemma FoldOne(c: char)
    ensures FoldHex(c) in "0123456789abcdef" <==> HexDigit(LowerChar(c))
    ensures HexDigit(LowerChar(c)) ==> FoldHex(c) == LowerChar(c)
  {
  }

  lemma ValidAt(s: string)
    ensures ValidTxid(s) <==> |s| == 64 && forall i :: 0 <= i < |s| ==> HexDigit(s[i])
  {
    assert forall i :: 0 <= i < |s| ==> s[i] in s;
  }

  lemma FoldIsLower(s: string)
    ensures IsHash(Folded(s)) <==> ValidTxid(Lower(s))
    ensures IsHash(Folded(s)) ==> Folded(s) == Lower(s)
  {
    ValidAt(Lower(s));
    forall i | 0 <= i < |s|
      ensures Folded(s)[i] in "0123456789abcdef" <==> HexDigit(Lower(s)[i])
      ensures HexDigit(Lower(s)[i]) ==> Folded(s)[i] == Lower(s)[i]
    {
      FoldOne(s[i]);
    }
  }

  // ---- Where an invocation goes on ----

  /** The checkpoint an invocation goes on from, unless it is refused: its arguments
      are acceptable, the file is of the same batch, and the operator says something
      about the request in flight exactly when there is one. */
  ghost function Resumes(args: Args, disk: Option<Checkpoint>): Result<Checkpoint, Error> {
    if !Sane(IdentityOf(args)) then Err(BadArguments)
    else
      var cp := if disk == None then Checkpoint(IdentityOf(args), 0, [], None, Ready) else disk.value;
      if cp.identity != IdentityOf(args) then Err(IdentityMismatch)
      else if cp.inflight == None then
        if Says(args.resolution) == Nothing then Ok(cp) else Err(NothingToResolve)
      else
        match Says(args.resolution)
        case Nothing => Err(AmbiguousRequest)
        case Garbage => Err(MalformedTxid)
        case Again => Ok(Checkpoint(cp.identity, cp.nextIndex, cp.completed, None, cp.status))
        case ItWas(hash) =>
          var entry := Done(cp.inflight.value.index, cp.inflight.value.name, hash, true);
          Ok(Checkpoint(cp.identity, entry.index + 1, cp.completed + [entry], None, cp.status))
  }

  /** The first name from `from` on whose request fails, or the number of names. */
  function Stop(count: nat, from: nat, answers: nat -> Answer): (i: nat)
    requires from <= count
    ensures from <= i <= count
    ensures forall k :: from <= k < i ==> answers(k).txid != None
    ensures i < count ==> answers(i).txid == None
    decreases count - from
  {
    if from == count || answers(from).txid == None then from else Stop(count, from + 1, answers)
  }

  /** One request for each name from `from` on, in order, up to the first failure. */
  function Requests(names: seq<string>, from: nat, answers: nat -> Answer): seq<Sent>
    requires from <= |names|
    decreases |names| - from
  {
    if from == |names| then []
    else
      [Sent(from, names[from], answers(from))]
      + if answers(from).txid == None then [] else Requests(names, from + 1, answers)
  }

  /** The entries of the names confirmed on the way. */
  function Confirmations(names: seq<string>, from: nat, answers: nat -> Answer): seq<Done>
    requires from <= |names|
    decreases |names| - from
  {
    if from == |names| || answers(from).txid == None then []
    else [Done(from, names[from], answers(from).txid.value, false)] + Confirmations(names, from + 1, answers)
  }

  /** The checkpoint then left: what was confirmed is completed, and the name whose
      request failed is in flight. */
  function Left(cp: Checkpoint, names: seq<string>, answers: nat -> Answer): Checkpoint
    requires cp.nextIndex <= |names|
  {
    var from, stop := cp.nextIndex, Stop(|names|, cp.nextIndex, answers);
    Checkpoint(cp.identity, stop, cp.completed + Confirmations(names, from, answers),
               if stop < |names| then Some(Inflight(stop, names[stop])) else None,
               if stop < |names| then Ambiguous else if from < |names| then Complete else cp.status)
  }

  /** The k-th request is for the k-th name from there on, and none follows one that
      failed. */
  lemma {:induction false} RequestsInOrder(names: seq<string>, from: nat, answers: nat -> Answer, k: nat)
    requires from <= |names|
    ensures var requests, stop := Requests(names, from, answers), Stop(|names|, from, answers);
            && |requests| == stop - from + (if stop < |names| then 1 else 0)
            && (k < |requests| ==> requests[k] == Sent(from + k, names[from + k], answers(from + k)))
            && (k + 1 < |requests| ==> requests[k].answer.txid.Some?)
    decreases |names| - from
  {
    if from < |names| && answers(from).txid != None {
      RequestsInOrder(names, from + 1, answers, if k == 0 then 0 else k - 1);
    }
  }

  // ---- The loop ----

  lemma LeftUnfolds(cp: Checkpoint, names: seq<string>, answers: nat -> Answer, next: Checkpoint)
    requires cp.nextIndex < |names| && answers(cp.nextIndex).txid != None
    requires var i := cp.nextIndex;
             next == Committed(Begun(cp, i, names[i]), i, names[i], answers(i).txid.value, |names|)
    ensures Left(cp, names, answers) == Left(next, names, answers)
  {
    var i := cp.nextIndex;
    Associative(cp.completed, [Done(i, names[i], answers(i).txid.value, false)], Confirmations(names, i + 1, answers));
  }

  /** Where the loop's effects lead. */
  ghost predicate LeadsTo(w: World, ran: Ran, sent: seq<Sent>, left: Checkpoint, outcome: Outcome) {
    var end := Replay(w, ran.effects, |ran.effects|);
    end.sent == w.sent + sent && end.disk == Some(left) && ran.outcome == outcome
  }

  function LoopOutcome(names: seq<string>, from: nat, answers: nat -> Answer): Outcome
    requires from <= |names|
  {
    var stop := Stop(|names|, from, answers);
    if stop < |names| then Stopped(RequestFailed(names[stop])) else Finished
  }

  lemma PassLeads(w: World, begun: Checkpoint, sent: Sent, next: Checkpoint, rest: Ran, more: seq<Sent>, left: Checkpoint, outcome: Outcome)
    requires LeadsTo(PassDone(w, begun, Send(sent.index, sent.name, sent.answer), next), rest, more, left, outcome)
    ensures LeadsTo(w, Ran([Write(begun), Send(sent.index, sent.name, sent.answer), Write(next)] + rest.effects, rest.outcome),
                    [sent] + more, left, outcome)
  {
    ReplayThree(w, Write(begun), Send(sent.index, sent.name, sent.answer), Write(next), rest.effects);
    Associative(w.sent, [sent], more);
  }

  lemma FailedPass(w: World, cp: Checkpoint, names: seq<string>, answers: nat -> Answer)
    requires w.disk == Some(cp) && cp.nextIndex < |names| && answers(cp.nextIndex).txid == None
    ensures var i := cp.nextIndex;
            LeadsTo(w, Loop(cp, names, i, answers), [Sent(i, names[i], answers(i))], Left(cp, names, answers),
                    Stopped(RequestFailed(names[i])))
  {
    var i := cp.nextIndex;
    var begun := Begun(cp, i, names[i]);
    var sent := Sent(i, names[i], answers(i));
    var rest := Ran([], Stopped(RequestFailed(names[i])));
    var ended := PassDone(w, begun, Send(i, names[i], answers(i)), Failed(begun));
    EmptyEnds(ended.sent);
    EmptyEnds([sent]);
    EmptyEnds(cp.completed);
    PassLeads(w, begun, sent, Failed(begun), rest, [], Failed(begun), rest.outcome);
    EmptyEnds([Write(begun), Send(i, names[i], answers(i)), Write(Failed(begun))]);
  }

  ghost predicate LoopLeadsFrom(w: World, cp: Checkpoint, names: seq<string>, answers: nat -> Answer) {
    && cp.nextIndex <= |names|
    && LeadsTo(w, Loop(cp, names, cp.nextIndex, answers), Requests(names, cp.nextIndex, answers),
               Left(cp, names, answers), LoopOutcome(names, cp.nextIndex, answers))
  }

  lemma NothingLeads(w: World, cp: Checkpoint, names: seq<string>, answers: nat -> Answer)
    requires w.disk == Some(cp) && cp.inflight == None && cp.nextIndex == |names|
    ensures LoopLeadsFrom(w, cp, names, answers)
  {
    EmptyEnds(w.sent);
    EmptyEnds(cp.completed);
  }

  lemma ConfirmedLeads(w: World, cp: Checkpoint, names: seq<string>, answers: nat -> Answer, begun: Checkpoint, next: Checkpoint)
    requires cp.nextIndex < |names| && answers(cp.nextIndex).txid != None
    requires begun == Begun(cp, cp.nextIndex, names[cp.nextIndex])
    requires next == Committed(begun, cp.nextIndex, names[cp.nextIndex], answers(cp.nextIndex).txid.value, |names|)
    requires LoopLeadsFrom(PassDone(w, begun, Send(cp.nextIndex, names[cp.nextIndex], answers(cp.nextIndex)), next), next, names, answers)
    ensures LoopLeadsFrom(w, cp, names, answers)
  {
    var i := cp.nextIndex;
    LeftUnfolds(cp, names, answers, next);
    PassLeads(w, begun, Sent(i, names[i], answers(i)), next, Loop(next, names, i + 1, answers),
              Requests(names, i + 1, answers), Left(next, names, answers), LoopOutcome(names, i + 1, answers));
  }

  lemma {:induction false} LoopLeads(w: World, cp: Checkpoint, names: seq<string>, answers: nat -> Answer)
    requires w.disk == Some(cp) && cp.inflight == None && cp.nextIndex <= |names|
    ensures LoopLeadsFrom(w, cp, names, answers)
    decreases |names| - cp.nextIndex
  {
    var i := cp.nextIndex;
    if i == |names| {
      NothingLeads(w, cp, names, answers);
    } else if answers(i).txid == None {
      FailedPass(w, cp, names, answers);
      EmptyEnds([Sent(i, names[i], answers(i))]);
    } else {
      var begun := Begun(cp, i, names[i]);
      var next := Committed(begun, i, names[i], answers(i).txid.value, |names|);
      LoopLeads(PassDone(w, begun, Send(i, names[i], answers(i)), next), next, names, answers);
      ConfirmedLeads(w, cp, names, answers, begun, next);
    }
  }

  // ---- The whole invocation ----

  /** The requests of an invocation that goes on from cp. */
  function Asked(cp: Checkpoint, args: Args, answers: nat -> Answer): seq<Sent>
    requires cp.nextIndex <= |args.names|
  {
    if args.execute && args.hasKey then Requests(args.names, cp.nextIndex, answers) else []
  }

  function Ends(cp: Checkpoint, args: Args, answers: nat -> Answer): Checkpoint
    requires cp.nextIndex <= |args.names|
  {
    if args.execute && args.hasKey then Left(cp, args.names, answers) else cp
  }

  function Answers(cp: Checkpoint, args: Args, answers: nat -> Answer): Outcome
    requires cp.nextIndex <= |args.names|
  {
    if !args.execute then Planned
    else if !args.hasKey then Stopped(MissingKey)
    else LoopOutcome(args.names, cp.nextIndex, answers)
  }

  lemma ContinueLeads(w: World, cp: Checkpoint, args: Args, answers: nat -> Answer)
    requires w.disk == Some(cp) && cp.inflight == None && cp.nextIndex <= |args.names|
    ensures LeadsTo(w, Continue(cp, args, answers), Asked(cp, args, answers), Ends(cp, args, answers), Answers(cp, args, answers))
  {
    LoopLeads(w, cp, args.names, answers);
    EmptyEnds(w.sent);
  }

  lemma ResumesFromSaved(args: Args, cp: Checkpoint)
    requires Sane(IdentityOf(args))
    ensures var reconciled := Reconcile(cp, IdentityOf(args), args.resolution);
            var resumed := Resumes(args, Some(cp));
            if reconciled.Err? then resumed == Err(reconciled.error)
            else resumed == Ok(reconciled.value.0) && (!reconciled.value.1 ==> reconciled.value.0 == cp)
  {
    if args.resolution.Resolve? {
      FoldIsLower(args.resolution.txid);
    }
  }

  lemma ResumedShape(args: Args, cp: Checkpoint)
    requires Shaped(cp) && Resumes(args, Some(cp)).Ok?
    ensures var resumed := Resumes(args, Some(cp)).value;
            resumed.inflight == None && resumed.nextIndex <= |args.names| && resumed.identity == IdentityOf(args)
  {
  }

  lemma SaneIsValid(args: Args)
    ensures Sane(IdentityOf(args)) <==> ValidArgs(args)
  {
  }

  lemma ReconciledLeads(w: World, cp: Checkpoint, args: Args, answers: nat -> Answer)
    requires w.disk == Some(cp) && Shaped(cp) && Sane(IdentityOf(args)) && Resumes(args, Some(cp)).Ok?
    ensures var resumed := Resumes(args, Some(cp)).value;
            resumed.nextIndex <= |args.names|
            && LeadsTo(w, Reconciled(cp, args, answers), Asked(resumed, args, answers), Ends(resumed, args, answers),
                       Answers(resumed, args, answers))
  {
    var resumed := Resumes(args, Some(cp)).value;
    ResumesFromSaved(args, cp);
    ResumedShape(args, cp);
    var rest := Continue(resumed, args, answers);
    if Reconcile(cp, IdentityOf(args), args.resolution).value.1 {
      ContinueLeads(Happen(w, Write(resumed)), resumed, args, answers);
      ReplayAppend(w, Write(resumed), rest.effects);
    } else {
      ContinueLeads(w, resumed, args, answers);
      EmptyEnds(rest.effects);
    }
  }

  lemma RefusedLeads(w: World, args: Args, answers: nat -> Answer)
    requires Resumes(args, w.disk).Err?
    ensures var ran := BulkRunner.Run(args, w.disk, answers);
            && ran.outcome == Stopped(Resumes(args, w.disk).error)
            && ran.effects == if Sane(IdentityOf(args)) && w.disk == None then [Write(Initial(IdentityOf(args)))] else []
  {
    SaneIsValid(args);
    if Sane(IdentityOf(args)) {
      var cp := if w.disk == None then Initial(IdentityOf(args)) else w.disk.value;
      ResumesFromSaved(args, cp);
      EmptyEnds([Write(cp)]);
    }
  }

  // ---- Main results ----

  lemma FileKept(invocations: seq<Invocation>)
    ensures History(invocations).disk.Some? ==> Shaped(History(invocations).disk.value)
  {
    HistoryKept(invocations, 0, Rules(false, false));
  }

  /** What an invocation comes to after any history, for every server: refused, it
      sends nothing and leaves an existing file alone; otherwise it sends one request
      for each name from the next one on, in order, up to the first failure, if it
      was given --execute and a key, and nothing if not; and the outcome and the file
      are those of exactly these requests. */
  lemma InvocationOutcome(earlier: seq<Invocation>, args: Args, answers: nat -> Answer)
    ensures var w := History(earlier);
            var ran := BulkRunner.Run(args, w.disk, answers);
            var end := Invoke(w, Invocation(args, answers, |ran.effects|));
            var resumed := Resumes(args, w.disk);
            if resumed.Err? then
              ran.outcome == Stopped(resumed.error) && end.sent == w.sent && (w.disk.Some? ==> end == w)
            else
              var cp := resumed.value;
              && cp.nextIndex <= |args.names| && ran.outcome == Answers(cp, args, answers)
              && end.sent == w.sent + Asked(cp, args, answers) && end.disk == Some(Ends(cp, args, answers))
  {
    var w := History(earlier);
    var ran := BulkRunner.Run(args, w.disk, answers);
    FileKept(earlier);
    SaneIsValid(args);
    if Resumes(args, w.disk).Err? {
      RefusedLeads(w, args, answers);
      if ran.effects != [] {
        ReplayAppend(w, ran.effects[0], []);
        EmptyEnds(ran.effects);
      }
    } else if w.disk.None? {
      var first := Initial(IdentityOf(args));
      ReconciledLeads(Happen(w, Write(first)), first, args, answers);
      ReplayAppend(w, Write(first), Reconciled(first, args, answers).effects);
    } else {
      ReconciledLeads(w, w.disk.value, args, answers);
    }
  }

  lemma {:induction false} ReplaySendsPart(w: World, effects: seq<Effect>, count: nat)
    ensures w.sent <= Replay(w, effects, count).sent <= Replay(w, effects, |effects|).sent
    decreases |effects|
  {
    if effects != [] {
      ReplaySendsPart(Happen(w, effects[0]), effects[1..], if count == 0 then 0 else count - 1);
    }
  }

  /** Without --execute nothing is ever sent, however far the invocation gets; and
      one that is not refused is a plan whose file holds the checkpoint it checked. */
  lemma PlanSendsNothing(earlier: seq<Invocation>, invocation: Invocation)
    requires !invocation.args.execute
    ensures var w := History(earlier);
            var ran := BulkRunner.Run(invocation.args, w.disk, invocation.answers);
            && History(earlier + [invocation]).sent == w.sent
            && ran.outcome != Finished
            && (ran.outcome == Planned <==> Resumes(invocation.args, w.disk).Ok?)
            && (ran.outcome == Planned && invocation.survives >= |ran.effects| ==>
                  History(earlier + [invocation]).disk == Some(Resumes(invocation.args, w.disk).value))
  {
    var w := History(earlier);
    var ran := BulkRunner.Run(invocation.args, w.disk, invocation.answers);
    InvocationOutcome(earlier, invocation.args, invocation.answers);
    DropLast(earlier, invocation);
    EmptyEnds(w.sent);
    ReplaySendsPart(w, ran.effects, invocation.survives);
    ReplayEnough(w, ran.effects, invocation.survives);
  }

  lemma {:induction false} ReplayEnough(w: World, effects: seq<Effect>, count: nat)
    ensures count >= |effects| ==> Replay(w, effects, count) == Replay(w, effects, |effects|)
    decreases |effects|
  {
    if effects != [] && count > 0 {
      ReplayEnough(Happen(w, effects[0]), effects[1..], count - 1);
    }
  }

  /** An invocation that dies has sent the first of those requests. */
  lemma CrashSendsFirst(earlier: seq<Invocation>, invocation: Invocation)
    ensures var w := History(earlier);
            var after := History(earlier + [invocation]);
            var resumed := Resumes(invocation.args, w.disk);
            if resumed.Err? then after.sent == w.sent
            else
              var cp := resumed.value;
              cp.nextIndex <= |invocation.args.names|
              && w.sent <= after.sent <= w.sent + Asked(cp, invocation.args, invocation.answers)
  {
    InvocationOutcome(earlier, invocation.args, invocation.answers);
    DropLast(earlier, invocation);
    var w := History(earlier);
    ReplaySendsPart(w, BulkRunner.Run(invocation.args, w.disk, invocation.answers).effects, invocation.survives);
  }

  /** A file whose next index lies beyond the list is refused and left alone. */
  lemma BeyondTheListStops(args: Args, cp: Checkpoint, answers: nat -> Answer)
    requires Sane(IdentityOf(args)) && Resumes(args, Some(cp)) == Ok(cp) && cp.nextIndex > |args.names|
    ensures BulkRunner.Run(args, Some(cp), answers) == Ran([], Stopped(MalformedIndex))
  {
    SaneIsValid(args);
    ResumesFromSaved(args, cp);
  }
}
