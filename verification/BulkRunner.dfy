/** tools/hns_bulk_name_actions.py as the effects of one run on the outside: the
    checkpoint file, replaced atomically, and the requests sent to the wallet
    server. A crash is a run of which only a prefix of the effects happened. */
module BulkRunner {
  import opened Wrappers

  // ---- Arguments and checkpoint ----

  const MAX_NAMES: nat := 10_000

  datatype Action = Transfer | Finalize

  /** --resolve-txid and --retry-inflight exclude each other. */
  datatype Resolution = NoResolution | Resolve(txid: string) | Retry

  datatype Args = Args(
    action: Action, walletId: string, account: string, recipient: Option<string>, names: seq<string>,
    maxFee: nat, hardFee: Option<nat>, maxTotal: Option<nat>,
    resolution: Resolution, execute: bool, hasKey: bool)

  /** The SHA-256 of the names, taken as injective. */
  datatype Digest = Digest(names: seq<string>)

  datatype Identity = Identity(
    action: Action, walletId: string, account: string, recipient: Option<string>,
    namesDigest: Digest, nameCount: nat, maxFee: nat, hardFee: Option<nat>, maxTotal: Option<nat>)

  datatype Status = Ready | InFlight | Ambiguous | Running | Complete

  datatype Inflight = Inflight(index: nat, name: string)

  /** `resolved` tells an operator's resolution from a broadcast of this tool. */
  datatype Done = Done(index: nat, name: string, txid: string, resolved: bool)

  datatype Checkpoint = Checkpoint(
    identity: Identity, nextIndex: nat, completed: seq<Done>, inflight: Option<Inflight>, status: Status)

  predicate Distinct(names: seq<string>) {
    forall i, j :: 0 <= i < j < |names| ==> names[i] != names[j]
  }

  predicate ValidArgs(args: Args) {
    && (args.action.Transfer? <==> args.recipient.Some? && args.recipient.value != "")
    && 1 <= |args.names| <= MAX_NAMES && Distinct(args.names)
    && (args.hardFee.Some? ==> args.hardFee.value <= args.maxFee)
    && (args.maxTotal.Some? ==> args.maxFee * |args.names| <= args.maxTotal.value)
  }

  function IdentityOf(args: Args): Identity {
    Identity(args.action, args.walletId, args.account, args.recipient, Digest(args.names), |args.names|,
             args.maxFee, args.hardFee, args.maxTotal)
  }

  function Initial(identity: Identity): Checkpoint {
    Checkpoint(identity, 0, [], None, Ready)
  }

  // ---- Effects ----

  /** The server's answer to a request: a transaction hash unless the request
      failed, and the fee of what it broadcast, which it may have done anyway. */
  datatype Answer = Answer(txid: Option<string>, fee: nat)

  datatype Effect =
    | Write(checkpoint: Checkpoint)
    | Send(index: nat, name: string, answer: Answer)

  datatype Error =
    | BadArguments | IdentityMismatch | NothingToResolve | MalformedTxid | AmbiguousRequest
    | MalformedIndex | MissingKey | RequestFailed(name: string)

  datatype Outcome = Finished | Planned | Stopped(error: Error)

  datatype Ran = Ran(effects: seq<Effect>, outcome: Outcome)

  // ---- Resolving an ambiguous request ----

  function LowerChar(c: char): char {
    if 'A' <= c <= 'Z' then c - 'A' + 'a' else c
  }

  function Lower(s: string): string {
    seq(|s|, i requires 0 <= i < |s| => LowerChar(s[i]))
  }

  predicate ValidTxid(s: string) {
    |s| == 64 && forall c <- s :: '0' <= c <= '9' || 'a' <= c <= 'f'
  }

  /** An empty --resolve-txid counts as absent. */
  predicate Resolves(resolution: Resolution) {
    resolution.Resolve? && resolution.txid != ""
  }

  function Resolved(cp: Checkpoint, txid: string): Checkpoint
    requires cp.inflight.Some?
  {
    var Inflight(index, name) := cp.inflight.value;
    cp.(completed := cp.completed + [Done(index, name, txid, true)], nextIndex := index + 1, inflight := None)
  }

  function Cleared(cp: Checkpoint): Checkpoint {
    cp.(inflight := None)
  }

  /** The checkpoint to go on with, and whether it was written. */
  function Reconcile(cp: Checkpoint, identity: Identity, resolution: Resolution): Result<(Checkpoint, bool), Error> {
    if cp.identity != identity then Err(IdentityMismatch)
    else if cp.inflight.None? then
      if Resolves(resolution) || resolution.Retry? then Err(NothingToResolve) else Ok((cp, false))
    else if Resolves(resolution) then
      if ValidTxid(Lower(resolution.txid)) then Ok((Resolved(cp, Lower(resolution.txid)), true)) else Err(MalformedTxid)
    else if resolution.Retry? then Ok((Cleared(cp), true))
    else Err(AmbiguousRequest)
  }

  // ---- One run ----

  function Begun(cp: Checkpoint, index: nat, name: string): Checkpoint {
    cp.(inflight := Some(Inflight(index, name)), status := InFlight)
  }

  function Failed(cp: Checkpoint): Checkpoint {
    cp.(status := Ambiguous)
  }

  function Committed(cp: Checkpoint, index: nat, name: string, txid: string, count: nat): Checkpoint {
    cp.(completed := cp.completed + [Done(index, name, txid, false)], nextIndex := index + 1, inflight := None,
        status := if index + 1 < count then Running else Complete)
  }

  /** The loop over the names from `index`; `answers` is what the server would
      answer for each of them. */
  function Loop(cp: Checkpoint, names: seq<string>, index: nat, answers: nat -> Answer): Ran
    decreases |names| - index
  {
    if index >= |names| then Ran([], Finished)
    else
      var name, answer := names[index], answers(index);
      var begun := Begun(cp, index, name);
      if answer.txid.None? then
        Ran([Write(begun), Send(index, name, answer), Write(Failed(begun))], Stopped(RequestFailed(name)))
      else
        var done := Committed(begun, index, name, answer.txid.value, |names|);
        var rest := Loop(done, names, index + 1, answers);
        Ran([Write(begun), Send(index, name, answer), Write(done)] + rest.effects, rest.outcome)
  }

  function After(effects: seq<Effect>, rest: Ran): Ran {
    Ran(effects + rest.effects, rest.outcome)
  }

  /** What follows once the checkpoint is reconciled. */
  function Continue(cp: Checkpoint, args: Args, answers: nat -> Answer): Ran {
    if cp.nextIndex > |args.names| then Ran([], Stopped(MalformedIndex))
    else if !args.execute then Ran([], Planned)
    else if !args.hasKey then Ran([], Stopped(MissingKey))
    else Loop(cp, args.names, cp.nextIndex, answers)
  }

  function Reconciled(cp: Checkpoint, args: Args, answers: nat -> Answer): Ran {
    match Reconcile(cp, IdentityOf(args), args.resolution)
    case Err(error) => Ran([], Stopped(error))
    case Ok((next, written)) => After(if written then [Write(next)] else [], Continue(next, args, answers))
  }

  function Run(args: Args, disk: Option<Checkpoint>, answers: nat -> Answer): Ran {
    if !ValidArgs(args) then Ran([], Stopped(BadArguments))
    else
      match disk
      case None => After([Write(Initial(IdentityOf(args)))], Reconciled(Initial(IdentityOf(args)), args, answers))
      case Some(cp) => Reconciled(cp, args, answers)
  }

  // ---- The outside ----

  datatype Sent = Sent(index: nat, name: string, answer: Answer)

  /** A clearing by --retry-inflight, with the fee the cleared attempt had cost. */
  datatype Clearing = Clearing(index: nat, fee: nat)

  /** `attempt` is the request sent since the in-flight record was written. */
  datatype World = World(disk: Option<Checkpoint>, sent: seq<Sent>, attempt: Option<Sent>, cleared: seq<Clearing>)

  const INITIAL_WORLD: World := World(None, [], None, [])

  /** Replacing `previous` by `next` gives up the in-flight request without completing it. */
  predicate GivesUp(previous: Checkpoint, next: Checkpoint) {
    previous.inflight.Some? && next.inflight.None? && next.nextIndex == previous.nextIndex
  }

  function Happen(w: World, effect: Effect): World {
    match effect
    case Write(cp) =>
      var settled := w.(disk := Some(cp), attempt := if cp.inflight.Some? && w.disk.Some? && w.disk.value.inflight.Some? then w.attempt else None);
      if w.disk.Some? && GivesUp(w.disk.value, cp) then
        settled.(cleared := w.cleared + [Clearing(w.disk.value.inflight.value.index,
                                                  if w.attempt.Some? then w.attempt.value.answer.fee else 0)])
      else settled
    case Send(index, name, answer) =>
      w.(sent := w.sent + [Sent(index, name, answer)], attempt := Some(Sent(index, name, answer)))
  }

  /** The outside after the first `count` effects, or all if there are fewer. */
  function Replay(w: World, effects: seq<Effect>, count: nat): World
    decreases |effects|
  {
    if effects == [] || count == 0 then w else Replay(Happen(w, effects[0]), effects[1..], count - 1)
  }

  /** One invocation of the tool: it dies after `survives` effects, if it has more. */
  datatype Invocation = Invocation(args: Args, answers: nat -> Answer, survives: nat)

  function Invoke(w: World, invocation: Invocation): World {
    Replay(w, Run(invocation.args, w.disk, invocation.answers).effects, invocation.survives)
  }

  function History(invocations: seq<Invocation>): World {
    if invocations == [] then INITIAL_WORLD
    else Invoke(History(invocations[..|invocations| - 1]), invocations[|invocations| - 1])
  }
}
