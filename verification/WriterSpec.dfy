/** The catalog writer: one thread that owns the connection, batches import records by size and
    deadline, serves collection sessions and checkpoints now and then. */
module WriterSpec {
  import opened Domain
  import opened Catalog
  import opened GcPlan

  datatype PendingImport = PendingImport(sequence: nat, request: Request)

  datatype Answer =
    | Committed(outcome: Outcome)
    | RolledBack(failedSequence: nat)
    | Dropped                          // the response channel closed without an answer

  datatype Reply = Reply(sequence: nat, answer: Answer)

  datatype Counters = Counters(batches: nat, records: nat, gcSessions: nat, checkpoints: nat)

  /** A statement of a collection session. */
  datatype GcOp = MarkOp(blob: CatalogBlob, now: int) | ResurrectOp(blob: CatalogBlob) | SweepOp(blob: CatalogBlob)

  datatype Message =
    | Import(sequence: nat, request: Request)
    | GcBegin
    | GcStage(op: GcOp)
    | GcFinish(commit: bool)

  datatype Received = Got(message: Message) | TimedOut | Disconnected

  /** How the database answers during one flush or session request. */
  datatype Faults = Faults(begin: bool, commit: bool, checkpoint: bool)

  /** One turn of the loop: clock readings against the batch deadline, what arrived, and faults. */
  datatype Turn = Turn(headExpired: bool, received: Received, receiptExpired: bool, first: Faults, second: Faults)

  datatype Config = Config(maxBatch: nat, checkpointEvery: nat)

  datatype Status = Running | Stopped | Failed

  /** `session` is the open collection transaction: its tables and its statements so far.
      `accepted`, `cuts` and `done` are history: every import record admitted to a batch, the
      lengths of `accepted` at which a batch was opened, and everything committed, in order. */
  datatype Writer = Writer(
    tables: Tables, session: Option<(Tables, seq<GcOp>)>, pending: seq<PendingImport>, deadline: bool,
    counters: Counters, replies: seq<Reply>, rejected: seq<nat>, status: Status,
    accepted: seq<PendingImport>, cuts: seq<nat>, done: seq<Entry>)

  datatype Entry = Wrote(request: Request) | Collected(ops: seq<GcOp>)

  function Start(t: Tables): Writer {
    Writer(t, None, [], false, Counters(0, 0, 0, 0), [], [], Running, [], [], [])
  }

  function Stage(t: Tables, op: GcOp): Tables {
    match op
    case MarkOp(b, now) => GcMark(t, b.hash, b.size, now).0
    case ResurrectOp(b) => GcResurrect(t, b.hash, b.size).0
    case SweepOp(b) => GcSweep(t, b.hash, b.size).0
  }

  /** What a statement of a session does to the tables it finds, row by row: a mark sets the mark
      of an unmarked, unreferenced row, a resurrection clears that of a marked, referenced row, a
      sweep deletes a marked, unreferenced row, each only at the size it names; in every other
      case nothing changes. */
  lemma StageMeaning(t: Tables, op: GcOp)
    ensures var t', b := Stage(t, op), op.blob;
      var found := b.hash in t.blobs && t.blobs[b.hash].size == b.size;
      && t'.sources == t.sources
      && (forall h :: h in t.blobs && h != b.hash ==> h in t'.blobs && t'.blobs[h] == t.blobs[h])
      && (forall h :: h in t'.blobs ==> h in t.blobs)
      && (match op
          case MarkOp(_, now) =>
            if found && t.blobs[b.hash].marked.None? && !Referenced(t, b.hash)
            then b.hash in t'.blobs && t'.blobs[b.hash] == BlobRow(b.size, Some(now)) else t' == t
          case ResurrectOp(_) =>
            if found && t.blobs[b.hash].marked.Some? && Referenced(t, b.hash)
            then b.hash in t'.blobs && t'.blobs[b.hash] == BlobRow(b.size, None) else t' == t
          case SweepOp(_) =>
            if found && t.blobs[b.hash].marked.Some? && !Referenced(t, b.hash)
            then b.hash !in t'.blobs else t' == t)
  {
  }

  function StageAll(t: Tables, ops: seq<GcOp>): Tables {
    if ops == [] then t else Stage(StageAll(t, ops[..|ops| - 1]), ops[|ops| - 1])
  }

  function Requests(ps: seq<PendingImport>): (r: seq<Request>)
    ensures |r| == |ps| && forall i :: 0 <= i < |ps| ==> r[i] == ps[i].request
  {
    seq(|ps|, i requires 0 <= i < |ps| => ps[i].request)
  }

  // ---------------------------------------------------------------------------
  // Sequential meaning
  // ---------------------------------------------------------------------------

  /** Everything applied one entry at a time. */
  function Replay(t: Tables, log: seq<Entry>): Result<(Tables, seq<Outcome>)> {
    if log == [] then Ok((t, []))
    else
      var before := Replay(t, log[..|log| - 1]);
      if before.Err? then Err
      else match log[|log| - 1]
      case Collected(ops) => Ok((StageAll(before.value.0, ops), before.value.1))
      case Wrote(r) =>
        var last := ApplyRequest(before.value.0, r);
        if last.Err? then Err else Ok((last.value.0, before.value.1 + [last.value.1]))
  }

  function Writes(rs: seq<Request>): (log: seq<Entry>)
    ensures |log| == |rs| && forall i :: 0 <= i < |rs| ==> log[i] == Wrote(rs[i])
  {
    seq(|rs|, i requires 0 <= i < |rs| => Wrote(rs[i]))
  }

  function WrittenIn(log: seq<Entry>): seq<Request> {
    if log == [] then []
    else match log[|log| - 1]
         case Wrote(r) => WrittenIn(log[..|log| - 1]) + [r]
         case Collected(_) => WrittenIn(log[..|log| - 1])
  }

  lemma ReplayOneMore(t: Tables, log: seq<Entry>, r: Request)
    ensures Replay(t, log + [Wrote(r)]) ==
      if Replay(t, log).Err? then Err
      else
        var (mid, outcomes) := Replay(t, log).value;
        var last := ApplyRequest(mid, r);
        if last.Err? then Err else Ok((last.value.0, outcomes + [last.value.1]))
  {
    assert (log + [Wrote(r)])[..|log|] == log;
  }

  /** A batch applied in its transaction is its records replayed one by one. */
  lemma {:induction false} ReplayBatch(t: Tables, log: seq<Entry>, rs: seq<Request>)
    requires Replay(t, log).Ok?
    ensures var (mid, outcomes) := Replay(t, log).value;
      && (Replay(t, log + Writes(rs)).Ok? <==> ApplyAll(mid, rs).Ok?)
      && (ApplyAll(mid, rs).Ok? ==>
            Replay(t, log + Writes(rs)).value == (ApplyAll(mid, rs).value.0, outcomes + ApplyAll(mid, rs).value.1))
  {
    var (mid, outcomes) := Replay(t, log).value;
    if rs == [] {
      assert log + Writes(rs) == log;
      assert outcomes + [] == outcomes;
    } else {
      var rs', r := rs[..|rs| - 1], rs[|rs| - 1];
      assert log + Writes(rs) == (log + Writes(rs')) + [Wrote(r)];
      ReplayOneMore(t, log + Writes(rs'), r);
      ReplayBatch(t, log, rs');
      if ApplyAll(mid, rs).Ok? {
        var o := ApplyRequest(ApplyAll(mid, rs').value.0, r).value.1;
        assert outcomes + (ApplyAll(mid, rs').value.1 + [o]) == (outcomes + ApplyAll(mid, rs').value.1) + [o];
      }
    }
  }

  lemma {:induction false} WrittenAppend(log: seq<Entry>, rs: seq<Request>)
    ensures WrittenIn(log + Writes(rs)) == WrittenIn(log) + rs
  {
    if rs == [] {
      assert log + Writes(rs) == log;
    } else {
      var longer := log + Writes(rs);
      assert longer[..|longer| - 1] == log + Writes(rs[..|rs| - 1]);
      WrittenAppend(log, rs[..|rs| - 1]);
      assert rs[..|rs| - 1] + [rs[|rs| - 1]] == rs;
    }
  }

  lemma {:induction false} OutcomePerWrite(t: Tables, log: seq<Entry>)
    requires Replay(t, log).Ok?
    ensures |Replay(t, log).value.1| == |WrittenIn(log)|
  {
    if log != [] {
      OutcomePerWrite(t, log[..|log| - 1]);
    }
  }

  // ---------------------------------------------------------------------------
  // The loop
  // ---------------------------------------------------------------------------

  /** The index of the first record that does not apply. */
  function FirstFailure(t: Tables, rs: seq<Request>): (i: nat)
    requires ApplyAll(t, rs).Err?
    ensures i < |rs| && ApplyAll(t, rs[..i]).Ok? && ApplyAll(t, rs[..i + 1]).Err?
  {
    if ApplyAll(t, rs[..|rs| - 1]).Err? then
      var i := FirstFailure(t, rs[..|rs| - 1]);
      assert rs[..|rs| - 1][..i] == rs[..i] && rs[..|rs| - 1][..i + 1] == rs[..i + 1];
      i
    else
      assert rs[..|rs|] == rs;
      |rs| - 1
  }

  function ReplyAll(ps: seq<PendingImport>, answer: Answer): (r: seq<Reply>)
    ensures |r| == |ps| && forall i :: 0 <= i < |ps| ==> r[i] == Reply(ps[i].sequence, answer)
  {
    seq(|ps|, i requires 0 <= i < |ps| => Reply(ps[i].sequence, answer))
  }

  function ReplyCommitted(ps: seq<PendingImport>, outcomes: seq<Outcome>): (r: seq<Reply>)
    requires |ps| == |outcomes|
    ensures |r| == |ps| && forall i :: 0 <= i < |ps| ==> r[i] == Reply(ps[i].sequence, Committed(outcomes[i]))
  {
    seq(|ps|, i requires 0 <= i < |ps| => Reply(ps[i].sequence, Committed(outcomes[i])))
  }

  /** Terminal failure of the writer with the open batch answered. */
  function FailBatch(w: Writer, answer: Answer): Writer {
    w.(replies := w.replies + ReplyAll(w.pending, answer), pending := [], deadline := false, status := Failed)
  }

  function Checkpoint(w: Writer, fails: bool): Writer {
    if fails then w.(status := Failed)
    else w.(counters := w.counters.(checkpoints := w.counters.checkpoints + 1))
  }

  predicate Due(n: nat, every: nat) {
    every > 0 && n % every == 0
  }

  function CommitBatch(c: Config, w: Writer, t: Tables, outcomes: seq<Outcome>, checkpointFails: bool): Writer
    requires |outcomes| == |w.pending|
  {
    var w1 := w.(tables := t, pending := [], deadline := false,
                 replies := w.replies + ReplyCommitted(w.pending, outcomes),
                 counters := w.counters.(batches := w.counters.batches + 1,
                                         records := w.counters.records + |w.pending|),
                 done := w.done + Writes(Requests(w.pending)));
    if Due(w1.counters.batches, c.checkpointEvery) then Checkpoint(w1, checkpointFails) else w1
  }

  function Flush(c: Config, w: Writer, f: Faults): Writer {
    if w.pending == [] then w
    else if f.begin then FailBatch(w, Dropped)
    else
      var applied := ApplyAll(w.tables, Requests(w.pending));
      if applied.Err? then
        FailBatch(w, RolledBack(w.pending[FirstFailure(w.tables, Requests(w.pending))].sequence))
      else if f.commit then FailBatch(w, RolledBack(w.pending[0].sequence))
      else CommitBatch(c, w, applied.value.0, applied.value.1, f.checkpoint)
  }

  function FlushAndDisarm(c: Config, w: Writer, f: Faults): Writer {
    Flush(c, w, f).(deadline := false)
  }

  function Admit(c: Config, w: Writer, p: PendingImport, f: Faults): Writer {
    var w1 := Push(w, p);
    if |w1.pending| >= c.maxBatch then FlushAndDisarm(c, w1, f) else w1
  }

  /** Into the open batch, or into a new one. */
  function Push(w: Writer, p: PendingImport): Writer {
    w.(pending := w.pending + [p], deadline := true, accepted := w.accepted + [p],
       cuts := if w.pending == [] then w.cuts + [|w.accepted|] else w.cuts)
  }

  function OnImport(c: Config, w: Writer, turn: Turn, p: PendingImport): Writer {
    var w1 := if w.deadline && turn.receiptExpired then FlushAndDisarm(c, w, turn.first) else w;
    if !w1.status.Running? then w1
    else if w1.session.Some? then w1.(rejected := w1.rejected + [p.sequence])
    else Admit(c, w1, p, turn.second)
  }

  function OnFinish(c: Config, w: Writer, commit: bool, f: Faults): Writer {
    if w.session.None? || f.commit then w
    else if !commit then w.(session := None)
    else
      var w1 := w.(tables := w.session.value.0, session := None,
                   counters := w.counters.(gcSessions := w.counters.gcSessions + 1),
                   done := w.done + [Collected(w.session.value.1)]);
      if Due(w1.counters.gcSessions, c.checkpointEvery) then Checkpoint(w1, f.checkpoint) else w1
  }

  function OnSession(c: Config, w: Writer, turn: Turn, m: Message): Writer
    requires !m.Import?
  {
    var w1 := if w.pending != [] then FlushAndDisarm(c, w, turn.first) else w;
    if !w1.status.Running? then w1
    else match m
    case GcBegin => if w1.session.Some? || turn.second.begin then w1 else w1.(session := Some((w1.tables, [])))
    case GcStage(op) =>
      if w1.session.None? || turn.second.commit then w1
      else w1.(session := Some((Stage(w1.session.value.0, op), w1.session.value.1 + [op])))
    case GcFinish(commit) => OnFinish(c, w1, commit, turn.second)
  }

  function OnDisconnect(c: Config, w: Writer, turn: Turn): Writer {
    if w.session.Some? then w.(session := None, status := Failed)
    else
      var w1 := if w.pending != [] then FlushAndDisarm(c, w, turn.first) else w;
      if !w1.status.Running? then w1
      else
        var w2 := Checkpoint(w1, turn.second.checkpoint);
        if w2.status.Running? then w2.(status := Stopped) else w2
  }

  function Take(c: Config, w: Writer, turn: Turn): Writer {
    if !w.status.Running? then w
    else if w.deadline && turn.headExpired then FlushAndDisarm(c, w, turn.first)
    else match turn.received
    case Got(m) => if m.Import? then OnImport(c, w, turn, PendingImport(m.sequence, m.request)) else OnSession(c, w, turn, m)
    case TimedOut => FlushAndDisarm(c, w, turn.first)
    case Disconnected => OnDisconnect(c, w, turn)
  }

  function Serve(c: Config, w: Writer, turns: seq<Turn>): Writer
    decreases |turns|
  {
    if turns == [] then w else Serve(c, Take(c, w, turns[0]), turns[1..])
  }
}
