/** The tool's own procedures: the checkpoint is a dictionary changed in place and
    rewritten to disk, and the run is a loop over the names. */
module BulkRunnerProgram {
  import opened Wrappers
  import opened Sequences
  import opened BulkRunner

  /** The checkpoint dictionary. */
  class Record {
    const identity: Identity
    var nextIndex: nat
    var completed: seq<Done>
    var inflight: Option<Inflight>
    var status: Status

    function Value(): Checkpoint
      reads this
    {
      Checkpoint(identity, nextIndex, completed, inflight, status)
    }

    constructor (cp: Checkpoint)
      ensures Value() == cp
    {
      identity, nextIndex, completed, inflight, status := cp.identity, cp.nextIndex, cp.completed, cp.inflight, cp.status;
    }
  }

  /** The checkpoint that effects leave on disk. */
  function DiskAfter(disk: Option<Checkpoint>, effects: seq<Effect>): Option<Checkpoint> {
    if effects == [] then disk
    else if effects[|effects| - 1].Write? then Some(effects[|effects| - 1].checkpoint)
    else DiskAfter(disk, effects[..|effects| - 1])
  }

  lemma {:induction false} DiskAfterBoth(disk: Option<Checkpoint>, a: seq<Effect>, b: seq<Effect>)
    ensures DiskAfter(disk, a + b) == DiskAfter(DiskAfter(disk, a), b)
    decreases |b|
  {
    if b == [] {
      EmptyEnds(a);
    } else {
      assert (a + b)[..|a + b| - 1] == a + b[..|b| - 1];
      DiskAfterBoth(disk, a, b[..|b| - 1]);
    }
  }

  /** It is the checkpoint of the world in which the effects have happened. */
  lemma {:induction false} ReplayedDisk(w: World, effects: seq<Effect>)
    ensures Replay(w, effects, |effects|).disk == DiskAfter(w.disk, effects)
    decreases |effects|
  {
    if effects != [] {
      ReplayedDisk(Happen(w, effects[0]), effects[1..]);
      assert effects == [effects[0]] + effects[1..];
      DiskAfterBoth(w.disk, [effects[0]], effects[1..]);
      assert [effects[0]][..0] == [];
    }
  }

  /** The checkpoint file and the server, with a log of what happened to them. */
  class Outside {
    var disk: Option<Checkpoint>
    var log: seq<Effect>

    constructor (file: Option<Checkpoint>)
      ensures disk == file && log == []
    {
      disk, log := file, [];
    }

    /** atomic_checkpoint. */
    method AtomicCheckpoint(record: Record)
      modifies this
      ensures disk == Some(record.Value()) && log == old(log) + [Write(record.Value())]
    {
      disk := Some(record.Value());
      log := log + [Write(record.Value())];
    }

    /** request_action, as far as the runner sees it. */
    method RequestAction(index: nat, name: string, answer: Answer) returns (txid: Option<string>)
      modifies this
      ensures disk == old(disk) && log == old(log) + [Send(index, name, answer)]
      ensures txid == answer.txid
    {
      log := log + [Send(index, name, answer)];
      txid := answer.txid;
    }
  }

  function Written(cp: Checkpoint, written: bool): seq<Effect> {
    if written then [Write(cp)] else []
  }

  method ReconcileCheckpoint(record: Record, identity: Identity, outside: Outside, resolution: Resolution)
    returns (error: Option<Error>)
    modifies record, outside
    ensures var expected := Reconcile(old(record.Value()), identity, resolution);
            if expected.Err? then
              && error == Some(expected.error) && record.Value() == old(record.Value())
              && outside.log == old(outside.log) && outside.disk == old(outside.disk)
            else
              && error.None? && record.Value() == expected.value.0
              && outside.log == old(outside.log) + Written(expected.value.0, expected.value.1)
              && outside.disk == DiskAfter(old(outside.disk), Written(expected.value.0, expected.value.1))
  {
    if record.identity != identity {
      return Some(IdentityMismatch);
    }
    if record.inflight.None? {
      if Resolves(resolution) || resolution.Retry? {
        return Some(NothingToResolve);
      }
      return None;
    }
    if Resolves(resolution) {
      var txid := Lower(resolution.txid);
      if !ValidTxid(txid) {
        return Some(MalformedTxid);
      }
      var Inflight(index, name) := record.inflight.value;
      record.completed := record.completed + [Done(index, name, txid, true)];
      record.nextIndex := index + 1;
      record.inflight := None;
      outside.AtomicCheckpoint(record);
      return None;
    }
    if resolution.Retry? {
      record.inflight := None;
      outside.AtomicCheckpoint(record);
      return None;
    }
    error := Some(AmbiguousRequest);
  }

  /** The effects of one pass, and the checkpoint it leaves. */
  function Passed(cp: Checkpoint, names: seq<string>, index: nat, answer: Answer): Checkpoint
    requires index < |names|
  {
    var begun := Begun(cp, index, names[index]);
    if answer.txid.None? then Failed(begun) else Committed(begun, index, names[index], answer.txid.value, |names|)
  }

  function Pass(cp: Checkpoint, names: seq<string>, index: nat, answer: Answer): seq<Effect>
    requires index < |names|
  {
    [Write(Begun(cp, index, names[index])), Send(index, names[index], answer), Write(Passed(cp, names, index, answer))]
  }

  /** One pass of the loop: `error` is set when the request failed. */
  method RequestOne(record: Record, names: seq<string>, index: nat, outside: Outside, answer: Answer)
    returns (error: Option<Error>)
    requires index < |names|
    modifies record, outside
    ensures record.Value() == Passed(old(record.Value()), names, index, answer)
    ensures outside.log == old(outside.log) + Pass(old(record.Value()), names, index, answer)
    ensures outside.disk == Some(record.Value())
    ensures error == if answer.txid.None? then Some(RequestFailed(names[index])) else None
  {
    var name := names[index];
    record.inflight := Some(Inflight(index, name));
    record.status := InFlight;
    outside.AtomicCheckpoint(record);
    var txid := outside.RequestAction(index, name, answer);
    if txid.None? {
      record.status := Ambiguous;
      outside.AtomicCheckpoint(record);
      return Some(RequestFailed(name));
    }
    record.completed := record.completed + [Done(index, name, txid.value, false)];
    record.nextIndex := index + 1;
    record.inflight := None;
    record.status := if index + 1 < |names| then Running else Complete;
    outside.AtomicCheckpoint(record);
    error := None;
  }

  /** Going on from `log` and `disk` as `left` says comes to the same as going on
      from the older log and disk as `ran` says. */
  predicate ComesTo(log: seq<Effect>, disk: Option<Checkpoint>, left: Ran,
                    older: seq<Effect>, olderDisk: Option<Checkpoint>, ran: Ran) {
    && log + left.effects == older + ran.effects && left.outcome == ran.outcome
    && DiskAfter(disk, left.effects) == DiskAfter(olderDisk, ran.effects)
  }

  lemma PassOnDisk(disk: Option<Checkpoint>, cp: Checkpoint, names: seq<string>, index: nat, answer: Answer)
    requires index < |names|
    ensures DiskAfter(disk, Pass(cp, names, index, answer)) == Some(Passed(cp, names, index, answer))
  {
  }

  lemma LoopIsPassAndRest(cp: Checkpoint, names: seq<string>, index: nat, answers: nat -> Answer)
    requires index < |names|
    ensures var ran, pass := Loop(cp, names, index, answers), Pass(cp, names, index, answers(index));
            var next := Passed(cp, names, index, answers(index));
            if answers(index).txid.None? then ran == Ran(pass, Stopped(RequestFailed(names[index])))
            else ran == After(pass, Loop(next, names, index + 1, answers))
  {
  }

  /** A confirmed pass leaves the rest of the loop. */
  lemma PassOfLoop(log: seq<Effect>, disk: Option<Checkpoint>, cp: Checkpoint, names: seq<string>, index: nat, answers: nat -> Answer)
    requires index < |names| && answers(index).txid.Some?
    ensures var pass, next := Pass(cp, names, index, answers(index)), Passed(cp, names, index, answers(index));
            ComesTo(log + pass, Some(next), Loop(next, names, index + 1, answers), log, disk, Loop(cp, names, index, answers))
  {
    var pass, next := Pass(cp, names, index, answers(index)), Passed(cp, names, index, answers(index));
    var rest := Loop(next, names, index + 1, answers).effects;
    LoopIsPassAndRest(cp, names, index, answers);
    Associative(log, pass, rest);
    DiskAfterBoth(disk, pass, rest);
    PassOnDisk(disk, cp, names, index, answers(index));
  }

  method RequestAll(record: Record, names: seq<string>, outside: Outside, answers: nat -> Answer) returns (outcome: Outcome)
    requires record.nextIndex <= |names|
    modifies record, outside
    ensures var ran := Loop(old(record.Value()), names, old(record.nextIndex), answers);
            && outside.log == old(outside.log) + ran.effects && outcome == ran.outcome
            && outside.disk == DiskAfter(old(outside.disk), ran.effects)
  {
    ghost var ran := Loop(record.Value(), names, record.nextIndex, answers);
    var index := record.nextIndex;
    while index < |names|
      invariant index <= |names|
      invariant ComesTo(outside.log, outside.disk, Loop(record.Value(), names, index, answers),
                        old(outside.log), old(outside.disk), ran)
    {
      LoopIsPassAndRest(record.Value(), names, index, answers);
      PassOnDisk(outside.disk, record.Value(), names, index, answers(index));
      if answers(index).txid.Some? {
        PassOfLoop(outside.log, outside.disk, record.Value(), names, index, answers);
      }
      var error := RequestOne(record, names, index, outside, answers(index));
      if error.Some? {
        return Stopped(error.value);
      }
      index := index + 1;
    }
    EmptyEnds(outside.log);
    outcome := Finished;
  }

  /** `run`: every effect, the outcome and the file left on disk are those of the
      specification, so that what holds of every prefix of its effects holds of this
      loop; and that file is the one of any world in which the effects have happened. */
  method Run(args: Args, outside: Outside, answers: nat -> Answer) returns (outcome: Outcome)
    modifies outside
    ensures var ran := BulkRunner.Run(args, old(outside.disk), answers);
            && outside.log == old(outside.log) + ran.effects && outcome == ran.outcome
            && forall w: World :: w.disk == old(outside.disk) ==>
                 Invoke(w, Invocation(args, answers, |ran.effects|)).disk == outside.disk
  {
    outcome := Load(args, outside, answers);
    ghost var ran := BulkRunner.Run(args, old(outside.disk), answers);
    forall w: World | w.disk == old(outside.disk)
      ensures Invoke(w, Invocation(args, answers, |ran.effects|)).disk == outside.disk
    {
      ReplayedDisk(w, ran.effects);
    }
  }

  /** `run` from the arguments to the checkpoint, and on. */
  method Load(args: Args, outside: Outside, answers: nat -> Answer) returns (outcome: Outcome)
    modifies outside
    ensures var ran := BulkRunner.Run(args, old(outside.disk), answers);
            && outside.log == old(outside.log) + ran.effects && outcome == ran.outcome
            && outside.disk == DiskAfter(old(outside.disk), ran.effects)
  {
    EmptyEnds(outside.log);
    if !ValidArgs(args) {
      return Stopped(BadArguments);
    }
    var identity := IdentityOf(args);
    var record: Record;
    if outside.disk.None? {
      record := new Record(Initial(identity));
      ghost var rest := Reconciled(Initial(identity), args, answers).effects;
      Associative(outside.log, [Write(Initial(identity))], rest);
      DiskAfterBoth(outside.disk, [Write(Initial(identity))], rest);
      outside.AtomicCheckpoint(record);
    } else {
      record := new Record(outside.disk.value);
    }
    outcome := Resume(record, args, outside, answers);
  }

  /** The rest of `run`, with a loaded or new checkpoint. */
  method Resume(record: Record, args: Args, outside: Outside, answers: nat -> Answer) returns (outcome: Outcome)
    modifies record, outside
    ensures var ran := Reconciled(old(record.Value()), args, answers);
            && outside.log == old(outside.log) + ran.effects && outcome == ran.outcome
            && outside.disk == DiskAfter(old(outside.disk), ran.effects)
  {
    EmptyEnds(outside.log);
    ghost var expected := Reconcile(record.Value(), IdentityOf(args), args.resolution);
    var error := ReconcileCheckpoint(record, IdentityOf(args), outside, args.resolution);
    if error.Some? {
      return Stopped(error.value);
    }
    ghost var written := Written(expected.value.0, expected.value.1);
    ghost var rest := Continue(expected.value.0, args, answers).effects;
    Associative(old(outside.log), written, rest);
    DiskAfterBoth(old(outside.disk), written, rest);
    EmptyEnds(outside.log);
    outcome := Proceed(record, args, outside, answers);
  }

  /** What follows once the checkpoint is reconciled. */
  method Proceed(record: Record, args: Args, outside: Outside, answers: nat -> Answer) returns (outcome: Outcome)
    modifies record, outside
    ensures var ran := Continue(old(record.Value()), args, answers);
            && outside.log == old(outside.log) + ran.effects && outcome == ran.outcome
            && outside.disk == DiskAfter(old(outside.disk), ran.effects)
  {
    EmptyEnds(outside.log);
    if record.nextIndex > |args.names| {
      return Stopped(MalformedIndex);
    }
    if !args.execute {
      return Planned;
    }
    if !args.hasKey {
      return Stopped(MissingKey);
    }
    outcome := RequestAll(record, args.names, outside, answers);
  }
}
