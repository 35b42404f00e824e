/** Batching refines one-at-a-time application, and what the writer loop keeps. */
module WriterProofs {
  import opened Domain
  import opened Catalog
  import opened WriterSpec

  /** What is committed is what replaying the committed entries one by one gives. */
  ghost predicate Replayed(t0: Tables, w: Writer) {
    Replay(t0, w.done) .Ok? && Replay(t0, w.done).value.0 == w.tables
  }

  /** Replies answer the accepted records in order. The first ones, as many as there are
      committed records, carry the outcomes of the sequential replay; any others are failures. */
  ghost predicate AnswersFit(accepted: seq<PendingImport>, replies: seq<Reply>, pending: seq<PendingImport>,
                             outcomes: seq<Outcome>, written: seq<Request>) {
    && |outcomes| <= |replies|
    && |replies| + |pending| == |accepted|
    && pending == accepted[|replies|..]
    && written == Requests(accepted)[..|outcomes|]
    && (forall i :: 0 <= i < |replies| ==> replies[i].sequence == accepted[i].sequence)
    && (forall i :: 0 <= i < |outcomes| ==> replies[i].answer == Committed(outcomes[i]))
    && (forall i :: |outcomes| <= i < |replies| ==> !replies[i].answer.Committed?)
  }

  ghost predicate Answered(t0: Tables, w: Writer)
    requires Replayed(t0, w)
  {
    var outcomes := Replay(t0, w.done).value.1;
    && AnswersFit(w.accepted, w.replies, w.pending, outcomes, WrittenIn(w.done))
    && w.counters.records == |outcomes|
    && (!w.status.Failed? ==> |outcomes| == |w.replies|)
  }

  /** The shape of the loop's own variables at the loop head. */
  predicate LoopShape(c: Config, w: Writer) {
    && (w.session.Some? ==> w.pending == [])
    && (w.deadline <==> w.pending != [])
    && (w.pending != [] ==> |w.pending| < c.maxBatch)
    && (!w.status.Running? ==> w.pending == [] && w.session.None?)
  }

  predicate SessionShape(w: Writer) {
    w.session.Some? ==> w.session.value.0 == StageAll(w.tables, w.session.value.1)
  }

  /** Checkpoints follow every N-th batch and every N-th session, and shutdown. A writer that
      failed may have failed at one. */
  predicate CheckpointShape(c: Config, w: Writer)
    requires c.checkpointEvery > 0
  {
    var scheduled := w.counters.batches / c.checkpointEvery + w.counters.gcSessions / c.checkpointEvery;
    match w.status
    case Running => w.counters.checkpoints == scheduled
    case Stopped => w.counters.checkpoints == scheduled + 1
    case Failed => scheduled <= w.counters.checkpoints + 1 && w.counters.checkpoints <= scheduled
  }

  ghost predicate WriterInv(c: Config, t0: Tables, w: Writer)
    requires c.checkpointEvery > 0
  {
    Replayed(t0, w) && Answered(t0, w) && LoopShape(c, w) && SessionShape(w) && CheckpointShape(c, w)
  }

  lemma NextMultiple(n: nat, every: nat)
    requires every > 0
    ensures (n + 1) / every == n / every + if (n + 1) % every == 0 then 1 else 0
  {
    var q, r := n / every, n % every;
    assert n == every * q + r;
    if r + 1 == every {
      assert n + 1 == every * (q + 1);
      Quotient(n + 1, every, q + 1, 0);
    } else {
      Quotient(n + 1, every, q, r + 1);
    }
  }

  lemma Monotone(d: nat, a: nat, b: nat)
    requires a <= b
    ensures d * a <= d * b
  {
  }

  lemma Quotient(n: nat, d: nat, q: nat, r: nat)
    requires d > 0 && n == d * q + r && r < d
    ensures n / d == q && n % d == r
  {
    var p := n / d;
    assert n == d * p + n % d;
    if p > q {
      Monotone(d, q + 1, p);
    }
    if p < q {
      Monotone(d, p + 1, q);
    }
    assert p == q;
  }

  /** A flush in the middle of a turn: the batch may be at its full size. */
  ghost predicate Flushable(c: Config, t0: Tables, w: Writer)
    requires c.checkpointEvery > 0
  {
    && Replayed(t0, w) && Answered(t0, w) && SessionShape(w) && CheckpointShape(c, w)
    && w.status.Running? && (w.session.Some? ==> w.pending == []) && (w.deadline <==> w.pending != [])
  }

  lemma FailedBatchInv(c: Config, t0: Tables, w: Writer, answer: Answer)
    requires c.checkpointEvery > 0 && Flushable(c, t0, w) && w.pending != [] && !answer.Committed?
    ensures WriterInv(c, t0, FailBatch(w, answer))
  {
    var w' := FailBatch(w, answer);
    assert w'.accepted[|w'.replies|..] == [];
  }

  lemma CommittedBatchReplays(t0: Tables, w: Writer, t: Tables, outcomes: seq<Outcome>)
    requires Replayed(t0, w) && ApplyAll(w.tables, Requests(w.pending)) == Ok((t, outcomes))
    ensures Replay(t0, w.done + Writes(Requests(w.pending))) == Ok((t, Replay(t0, w.done).value.1 + outcomes))
    ensures WrittenIn(w.done + Writes(Requests(w.pending))) == WrittenIn(w.done) + Requests(w.pending)
  {
    ReplayBatch(t0, w.done, Requests(w.pending));
    WrittenAppend(w.done, Requests(w.pending));
  }

  lemma RequestsSplit(ps: seq<PendingImport>, n: nat)
    requires n <= |ps|
    ensures Requests(ps)[..n] + Requests(ps[n..]) == Requests(ps)
  {
  }

  lemma RepliesExtend(accepted: seq<PendingImport>, replies: seq<Reply>, outcomes: seq<Outcome>, more: seq<Outcome>)
    requires |outcomes| == |replies| && |replies| + |more| == |accepted|
    requires forall i :: 0 <= i < |replies| ==> replies[i] == Reply(accepted[i].sequence, Committed(outcomes[i]))
    ensures var r := replies + ReplyCommitted(accepted[|replies|..], more);
      forall i :: 0 <= i < |r| ==> r[i] == Reply(accepted[i].sequence, Committed((outcomes + more)[i]))
  {
    var r := replies + ReplyCommitted(accepted[|replies|..], more);
    forall i | 0 <= i < |r| ensures r[i] == Reply(accepted[i].sequence, Committed((outcomes + more)[i])) {
      if i >= |replies| {
        assert r[i] == ReplyCommitted(accepted[|replies|..], more)[i - |replies|];
        assert accepted[|replies|..][i - |replies|] == accepted[i];
        assert (outcomes + more)[i] == more[i - |replies|];
      }
    }
  }

  lemma AnswersExtend(accepted: seq<PendingImport>, replies: seq<Reply>, pending: seq<PendingImport>,
                      outcomes: seq<Outcome>, written: seq<Request>, more: seq<Outcome>)
    requires AnswersFit(accepted, replies, pending, outcomes, written)
    requires |outcomes| == |replies| && |more| == |pending|
    ensures AnswersFit(accepted, replies + ReplyCommitted(pending, more), [], outcomes + more, written + Requests(pending))
  {
    RequestsSplit(accepted, |replies|);
    forall i | 0 <= i < |replies| ensures replies[i] == Reply(accepted[i].sequence, Committed(outcomes[i])) {
    }
    RepliesExtend(accepted, replies, outcomes, more);
    var r := replies + ReplyCommitted(pending, more);
    assert |r| == |outcomes + more| == |accepted|;
    assert Requests(accepted)[..|accepted|] == Requests(accepted);
    assert accepted[|r|..] == [];
  }

  lemma CommittedBatchAnswers(c: Config, t0: Tables, w: Writer, t: Tables, outcomes: seq<Outcome>, fails: bool)
    requires Replayed(t0, w) && Answered(t0, w) && w.status.Running? && |outcomes| == |w.pending|
    requires ApplyAll(w.tables, Requests(w.pending)) == Ok((t, outcomes))
    ensures var w' := CommitBatch(c, w, t, outcomes, fails); Replayed(t0, w') && Answered(t0, w')
  {
    CommittedBatchReplays(t0, w, t, outcomes);
    AnswersExtend(w.accepted, w.replies, w.pending, Replay(t0, w.done).value.1, WrittenIn(w.done), outcomes);
  }

  lemma CommittedBatchCounts(c: Config, w: Writer, t: Tables, outcomes: seq<Outcome>, fails: bool)
    requires c.checkpointEvery > 0 && CheckpointShape(c, w) && w.status.Running? && |outcomes| == |w.pending|
    ensures CheckpointShape(c, CommitBatch(c, w, t, outcomes, fails))
  {
    NextMultiple(w.counters.batches, c.checkpointEvery);
  }

  lemma FlushInv(c: Config, t0: Tables, w: Writer, f: Faults)
    requires c.checkpointEvery > 0 && Flushable(c, t0, w)
    ensures WriterInv(c, t0, Flush(c, w, f)) && WriterInv(c, t0, FlushAndDisarm(c, w, f))
    ensures Flush(c, w, f).pending == []
  {
    if w.pending != [] {
      var rs := Requests(w.pending);
      var applied := ApplyAll(w.tables, rs);
      if f.begin {
        FailedBatchInv(c, t0, w, Dropped);
      } else if applied.Err? {
        FailedBatchInv(c, t0, w, RolledBack(w.pending[FirstFailure(w.tables, rs)].sequence));
      } else if f.commit {
        FailedBatchInv(c, t0, w, RolledBack(w.pending[0].sequence));
      } else {
        CommittedBatchAnswers(c, t0, w, applied.value.0, applied.value.1, f.checkpoint);
        CommittedBatchCounts(c, w, applied.value.0, applied.value.1, f.checkpoint);
      }
    }
  }

  lemma AdmitInv(c: Config, t0: Tables, w: Writer, p: PendingImport, f: Faults)
    requires c.checkpointEvery > 0 && WriterInv(c, t0, w) && w.status.Running? && w.session.None?
    ensures WriterInv(c, t0, Admit(c, w, p, f))
  {
    var w1 := Push(w, p);
    assert w1.accepted[|w1.replies|..] == w.accepted[|w.replies|..] + [p];
    var n := |Replay(t0, w.done).value.1|;
    assert Requests(w1.accepted)[..n] == Requests(w.accepted)[..n];
    assert Answered(t0, w1);
    assert Flushable(c, t0, w1);
    FlushInv(c, t0, w1, f);
  }

  lemma ImportInv(c: Config, t0: Tables, w: Writer, turn: Turn, p: PendingImport)
    requires c.checkpointEvery > 0 && WriterInv(c, t0, w) && w.status.Running?
    ensures WriterInv(c, t0, OnImport(c, w, turn, p))
  {
    FlushInv(c, t0, w, turn.first);
    var w1 := if w.deadline && turn.receiptExpired then FlushAndDisarm(c, w, turn.first) else w;
    if w1.status.Running? && w1.session.None? {
      AdmitInv(c, t0, w1, p, turn.second);
    }
  }

  lemma CollectedReplays(t0: Tables, log: seq<Entry>, ops: seq<GcOp>)
    requires Replay(t0, log).Ok?
    ensures var (t, outcomes) := Replay(t0, log).value;
      Replay(t0, log + [Collected(ops)]) == Ok((StageAll(t, ops), outcomes))
    ensures WrittenIn(log + [Collected(ops)]) == WrittenIn(log)
  {
    assert (log + [Collected(ops)])[..|log|] == log;
  }

  lemma FinishAnswers(c: Config, t0: Tables, w: Writer, f: Faults)
    requires Replayed(t0, w) && Answered(t0, w) && SessionShape(w) && w.status.Running? && w.session.Some?
    ensures var w' := OnFinish(c, w, true, f); Replayed(t0, w') && Answered(t0, w')
  {
    CollectedReplays(t0, w.done, w.session.value.1);
  }

  lemma FinishCounts(c: Config, w: Writer, f: Faults)
    requires c.checkpointEvery > 0 && CheckpointShape(c, w) && LoopShape(c, w) && w.status.Running? && w.session.Some?
    ensures var w' := OnFinish(c, w, true, f); CheckpointShape(c, w') && LoopShape(c, w') && (!f.commit ==> w'.session.None?)
  {
    NextMultiple(w.counters.gcSessions, c.checkpointEvery);
  }

  lemma FinishInv(c: Config, t0: Tables, w: Writer, commit: bool, f: Faults)
    requires c.checkpointEvery > 0 && WriterInv(c, t0, w) && w.status.Running?
    ensures WriterInv(c, t0, OnFinish(c, w, commit, f))
  {
    if w.session.Some? && commit && !f.commit {
      FinishAnswers(c, t0, w, f);
      FinishCounts(c, w, f);
    }
  }

  lemma StageInv(c: Config, t0: Tables, w: Writer, op: GcOp)
    requires c.checkpointEvery > 0 && WriterInv(c, t0, w) && w.status.Running? && w.session.Some?
    ensures WriterInv(c, t0, w.(session := Some((Stage(w.session.value.0, op), w.session.value.1 + [op]))))
  {
    var ops := w.session.value.1 + [op];
    assert ops[..|ops| - 1] == w.session.value.1;
  }

  lemma SessionInv(c: Config, t0: Tables, w: Writer, turn: Turn, m: Message)
    requires c.checkpointEvery > 0 && WriterInv(c, t0, w) && w.status.Running? && !m.Import?
    ensures WriterInv(c, t0, OnSession(c, w, turn, m))
  {
    FlushInv(c, t0, w, turn.first);
    var w1 := if w.pending != [] then FlushAndDisarm(c, w, turn.first) else w;
    if w1.status.Running? {
      match m {
        case GcBegin =>
        case GcStage(op) =>
          if w1.session.Some? { StageInv(c, t0, w1, op); }
        case GcFinish(commit) => FinishInv(c, t0, w1, commit, turn.second);
      }
    }
  }

  lemma DisconnectInv(c: Config, t0: Tables, w: Writer, turn: Turn)
    requires c.checkpointEvery > 0 && WriterInv(c, t0, w) && w.status.Running?
    ensures WriterInv(c, t0, OnDisconnect(c, w, turn))
  {
    FlushInv(c, t0, w, turn.first);
  }

  lemma TakeInv(c: Config, t0: Tables, w: Writer, turn: Turn)
    requires c.checkpointEvery > 0 && WriterInv(c, t0, w)
    ensures WriterInv(c, t0, Take(c, w, turn))
  {
    if w.status.Running? {
      FlushInv(c, t0, w, turn.first);
      if !(w.deadline && turn.headExpired) {
        match turn.received {
          case Got(m) =>
            if m.Import? {
              ImportInv(c, t0, w, turn, PendingImport(m.sequence, m.request));
            } else {
              SessionInv(c, t0, w, turn, m);
            }
          case TimedOut =>
          case Disconnected => DisconnectInv(c, t0, w, turn);
        }
      }
    }
  }

  lemma {:induction false} ServeInv(c: Config, t0: Tables, w: Writer, turns: seq<Turn>)
    requires c.checkpointEvery > 0 && WriterInv(c, t0, w)
    ensures WriterInv(c, t0, Serve(c, w, turns))
    decreases |turns|
  {
    if turns != [] {
      TakeInv(c, t0, w, turns[0]);
      ServeInv(c, t0, Take(c, w, turns[0]), turns[1..]);
    }
  }

  /** Every run of the writer, whatever arrives, whenever deadlines pass, whatever fails. */
  lemma EveryRun(c: Config, t0: Tables, turns: seq<Turn>)
    requires c.checkpointEvery > 0
    ensures WriterInv(c, t0, Serve(c, Start(t0), turns))
  {
    NextMultipleOfZero(c.checkpointEvery);
    ServeInv(c, t0, Start(t0), turns);
  }

  lemma NextMultipleOfZero(every: nat)
    requires every > 0
    ensures 0 / every == 0
  {
    Quotient(0, every, 0, 0);
  }

  // ---------------------------------------------------------------------------
  // Batches are atomic
  // ---------------------------------------------------------------------------

  /** Committed records always end where a batch ends: their number is a cut, or no batch is open.
      No batch was opened after the one that follows them. */
  ghost predicate CutsFit(w: Writer) {
    && (w.counters.records in w.cuts || w.counters.records == |w.accepted|)
    && (forall n :: n in w.cuts ==> n <= w.counters.records)
  }

  ghost predicate AllTold(replies: seq<Reply>, from: nat, answer: Answer) {
    forall i :: from <= i < |replies| ==> replies[i].answer == answer
  }

  /** How the tickets of a batch that failed on these tables were answered. Without a database
      fault it failed because a record of it does not apply, and every ticket of it names the
      first such record. */
  ghost predicate ToldOfFailure(t: Tables, batch: seq<PendingImport>, replies: seq<Reply>, from: nat, faulty: bool)
    requires batch != []
  {
    var rs := Requests(batch);
    || (faulty && AllTold(replies, from, Dropped))
    || (if ApplyAll(t, rs).Err? then AllTold(replies, from, RolledBack(batch[FirstFailure(t, rs)].sequence))
        else faulty && AllTold(replies, from, RolledBack(batch[0].sequence)))
  }

  /** An answered record that is not committed belongs to the last batch, which failed whole. */
  ghost predicate FailureFits(w: Writer, faulty: bool) {
    w.counters.records < |w.replies| ==>
      && |w.replies| == |w.accepted|
      && ToldOfFailure(w.tables, w.accepted[w.counters.records..], w.replies, w.counters.records, faulty)
  }

  /** Exactly the committed records are answered, and the open batch follows them. */
  predicate UpToDate(w: Writer) {
    |w.replies| == w.counters.records <= |w.accepted| && w.accepted[|w.replies|..] == w.pending
  }

  predicate Faultless(f: Faults) {
    !f.begin && !f.commit
  }

  /** The database answers every transaction of these turns. */
  predicate FaultlessTurns(turns: seq<Turn>) {
    forall i :: 0 <= i < |turns| ==> Faultless(turns[i].first) && Faultless(turns[i].second)
  }

  lemma InvUpToDate(c: Config, t0: Tables, w: Writer)
    requires c.checkpointEvery > 0 && WriterInv(c, t0, w) && !w.status.Failed?
    ensures UpToDate(w)
  {
  }

  lemma ToldTheSame(replies: seq<Reply>, batch: seq<PendingImport>, answer: Answer)
    ensures AllTold(replies + ReplyAll(batch, answer), |replies|, answer)
  {
    var told := ReplyAll(batch, answer);
    forall i | |replies| <= i < |replies + told| ensures (replies + told)[i].answer == answer {
      assert (replies + told)[i] == told[i - |replies|];
    }
  }

  lemma FailedBatchIsTold(w: Writer, answer: Answer, faulty: bool)
    requires UpToDate(w) && CutsFit(w) && w.pending != []
    requires
      || (faulty && answer == Dropped)
      || (if ApplyAll(w.tables, Requests(w.pending)).Err?
          then answer == RolledBack(w.pending[FirstFailure(w.tables, Requests(w.pending))].sequence)
          else faulty && answer == RolledBack(w.pending[0].sequence))
    ensures CutsFit(FailBatch(w, answer)) && FailureFits(FailBatch(w, answer), faulty)
  {
    ToldTheSame(w.replies, w.pending, answer);
    assert FailBatch(w, answer).accepted[w.counters.records..] == w.pending;
  }

  lemma FlushIsAtomic(c: Config, w: Writer, f: Faults, faulty: bool)
    requires UpToDate(w) && CutsFit(w) && (faulty || Faultless(f))
    ensures CutsFit(Flush(c, w, f)) && FailureFits(Flush(c, w, f), faulty)
    ensures CutsFit(FlushAndDisarm(c, w, f)) && FailureFits(FlushAndDisarm(c, w, f), faulty)
  {
    if w.pending != [] {
      var rs := Requests(w.pending);
      var applied := ApplyAll(w.tables, rs);
      if f.begin {
        FailedBatchIsTold(w, Dropped, faulty);
      } else if applied.Err? {
        FailedBatchIsTold(w, RolledBack(w.pending[FirstFailure(w.tables, rs)].sequence), faulty);
      } else if f.commit {
        FailedBatchIsTold(w, RolledBack(w.pending[0].sequence), faulty);
      }
    }
  }

  lemma PushOpensBatch(w: Writer, p: PendingImport)
    requires UpToDate(w) && CutsFit(w)
    ensures UpToDate(Push(w, p)) && CutsFit(Push(w, p))
  {
    var w' := Push(w, p);
    assert w'.accepted[|w.replies|..] == w.pending + [p];
    if w.pending == [] {
      assert w'.cuts[|w.cuts|] == w.counters.records;
    }
  }

  ghost predicate Atomic(c: Config, t0: Tables, w: Writer, faulty: bool)
    requires c.checkpointEvery > 0
  {
    WriterInv(c, t0, w) && CutsFit(w) && FailureFits(w, faulty)
  }

  lemma ImportIsAtomic(c: Config, t0: Tables, w: Writer, turn: Turn, p: PendingImport, faulty: bool)
    requires c.checkpointEvery > 0 && WriterInv(c, t0, w) && CutsFit(w) && w.status.Running?
    requires faulty || (Faultless(turn.first) && Faultless(turn.second))
    ensures CutsFit(OnImport(c, w, turn, p)) && FailureFits(OnImport(c, w, turn, p), faulty)
  {
    InvUpToDate(c, t0, w);
    FlushInv(c, t0, w, turn.first);
    FlushIsAtomic(c, w, turn.first, faulty);
    var w1 := if w.deadline && turn.receiptExpired then FlushAndDisarm(c, w, turn.first) else w;
    if w1.status.Running? {
      InvUpToDate(c, t0, w1);
      PushOpensBatch(w1, p);
      FlushIsAtomic(c, Push(w1, p), turn.second, faulty);
    }
  }

  /** What a session request does after its flush touches no batch. */
  lemma SameBatches(w: Writer, w': Writer, faulty: bool)
    requires UpToDate(w) && CutsFit(w) && w'.replies == w.replies && w'.cuts == w.cuts && w'.accepted == w.accepted
    requires w'.counters.records == w.counters.records
    ensures CutsFit(w') && FailureFits(w', faulty)
  {
  }

  lemma SessionTouchesNoBatch(c: Config, w: Writer, turn: Turn, m: Message)
    requires !m.Import?
    ensures var w1, w' := if w.pending != [] then FlushAndDisarm(c, w, turn.first) else w, OnSession(c, w, turn, m);
      && w'.replies == w1.replies && w'.cuts == w1.cuts && w'.accepted == w1.accepted
      && w'.counters.records == w1.counters.records
  {
  }

  lemma SessionIsAtomic(c: Config, t0: Tables, w: Writer, turn: Turn, m: Message, faulty: bool)
    requires c.checkpointEvery > 0 && WriterInv(c, t0, w) && CutsFit(w) && w.status.Running? && !m.Import?
    requires faulty || Faultless(turn.first)
    ensures CutsFit(OnSession(c, w, turn, m)) && FailureFits(OnSession(c, w, turn, m), faulty)
  {
    InvUpToDate(c, t0, w);
    FlushInv(c, t0, w, turn.first);
    FlushIsAtomic(c, w, turn.first, faulty);
    var w1 := if w.pending != [] then FlushAndDisarm(c, w, turn.first) else w;
    if w1.status.Running? {
      InvUpToDate(c, t0, w1);
      SessionTouchesNoBatch(c, w, turn, m);
      SameBatches(w1, OnSession(c, w, turn, m), faulty);
    }
  }

  lemma DisconnectIsAtomic(c: Config, t0: Tables, w: Writer, turn: Turn, faulty: bool)
    requires c.checkpointEvery > 0 && WriterInv(c, t0, w) && CutsFit(w) && w.status.Running?
    requires faulty || Faultless(turn.first)
    ensures CutsFit(OnDisconnect(c, w, turn)) && FailureFits(OnDisconnect(c, w, turn), faulty)
  {
    InvUpToDate(c, t0, w);
    FlushInv(c, t0, w, turn.first);
    FlushIsAtomic(c, w, turn.first, faulty);
    var w1 := if w.pending != [] then FlushAndDisarm(c, w, turn.first) else w;
    if w1.status.Running? {
      InvUpToDate(c, t0, w1);
      SameBatches(w1, OnDisconnect(c, w, turn), faulty);
    }
  }

  lemma TakeIsAtomic(c: Config, t0: Tables, w: Writer, turn: Turn, faulty: bool)
    requires c.checkpointEvery > 0 && Atomic(c, t0, w, faulty)
    requires faulty || (Faultless(turn.first) && Faultless(turn.second))
    ensures CutsFit(Take(c, w, turn)) && FailureFits(Take(c, w, turn), faulty)
  {
    if w.status.Running? {
      InvUpToDate(c, t0, w);
      FlushIsAtomic(c, w, turn.first, faulty);
      if !(w.deadline && turn.headExpired) {
        match turn.received {
          case Got(m) =>
            if m.Import? {
              ImportIsAtomic(c, t0, w, turn, PendingImport(m.sequence, m.request), faulty);
            } else {
              SessionIsAtomic(c, t0, w, turn, m, faulty);
            }
          case TimedOut =>
          case Disconnected => DisconnectIsAtomic(c, t0, w, turn, faulty);
        }
      }
    }
  }

  lemma {:induction false} ServeIsAtomic(c: Config, t0: Tables, w: Writer, turns: seq<Turn>, faulty: bool)
    requires c.checkpointEvery > 0 && Atomic(c, t0, w, faulty) && (faulty || FaultlessTurns(turns))
    ensures Atomic(c, t0, Serve(c, w, turns), faulty)
    decreases |turns|
  {
    if turns != [] {
      TakeInv(c, t0, w, turns[0]);
      TakeIsAtomic(c, t0, w, turns[0], faulty);
      ServeIsAtomic(c, t0, Take(c, w, turns[0]), turns[1..], faulty);
    }
  }

  /** Every run keeps batches whole. */
  lemma BatchesAreAtomic(c: Config, t0: Tables, turns: seq<Turn>)
    requires c.checkpointEvery > 0
    ensures CutsFit(Serve(c, Start(t0), turns))
    ensures FailureFits(Serve(c, Start(t0), turns), !FaultlessTurns(turns))
  {
    NextMultipleOfZero(c.checkpointEvery);
    assert WriterInv(c, t0, Start(t0));
    ServeIsAtomic(c, t0, Start(t0), turns, !FaultlessTurns(turns));
  }

  /** Batching refines sequential application. However records and sessions arrive and batches
      are cut, the durable tables are the committed entries applied one at a time in order, and
      each ticket's answer is the outcome its record has in that sequence. What is committed ends
      at a cut: a batch is in it whole or not at all. When a batch fails, what is durable is
      exactly the whole batches before it, and every ticket of it is told; without a database
      fault it is told the first record of the batch that does not apply to those tables. */
  lemma BatchingRefinesSequential(c: Config, t0: Tables, turns: seq<Turn>)
    requires c.checkpointEvery > 0
    ensures var w := Serve(c, Start(t0), turns);
      && Replay(t0, w.done).Ok?
      && var (t, outcomes) := Replay(t0, w.done).value;
      && w.tables == t
      && |outcomes| <= |w.replies| <= |w.accepted|
      && WrittenIn(w.done) == Requests(w.accepted)[..|outcomes|]
      && (forall i :: 0 <= i < |outcomes| ==>
            w.replies[i] == Reply(w.accepted[i].sequence, Committed(outcomes[i])))
      && (forall i :: |outcomes| <= i < |w.replies| ==>
            w.replies[i].sequence == w.accepted[i].sequence && !w.replies[i].answer.Committed?)
      && (|outcomes| in w.cuts || |outcomes| == |w.accepted|)
      && (forall n :: n in w.cuts ==> n <= |outcomes|)
      && (|outcomes| < |w.replies| ==>
            && w.status.Failed? && |w.replies| == |w.accepted|
            && ToldOfFailure(t, w.accepted[|outcomes|..], w.replies, |outcomes|, !FaultlessTurns(turns)))
      && (w.status.Stopped? ==> WrittenIn(w.done) == Requests(w.accepted) && |w.replies| == |w.accepted|)
      && (w.status.Failed? ==> |w.replies| == |w.accepted|)
  {
    EveryRun(c, t0, turns);
    BatchesAreAtomic(c, t0, turns);
    var w := Serve(c, Start(t0), turns);
    assert WriterInv(c, t0, w);
    if w.status.Stopped? {
      assert Requests(w.accepted)[..|w.accepted|] == Requests(w.accepted);
    }
  }

  /** The deadline of a batch is absolute. In every run: when it has passed at the head of a turn,
      or the wait for the next request times out, that turn answers every accepted ticket and
      leaves no batch open; and a record that arrives after the deadline never joins the batch
      before it. */
  lemma DeadlinesAreKept(c: Config, t0: Tables, turns: seq<Turn>, turn: Turn)
    requires c.checkpointEvery > 0
    ensures var w := Serve(c, Start(t0), turns);
      var w' := Take(c, w, turn);
      w.status.Running? && w.pending != [] ==>
        && ((turn.headExpired || turn.received.TimedOut?) ==>
              w'.accepted == w.accepted && w'.pending == [] && |w'.replies| == |w.accepted|)
        && (turn.receiptExpired && turn.received.Got? && turn.received.message.Import? && |w'.accepted| > |w.accepted| ==>
              |w.accepted| in w'.cuts && |w'.pending| <= 1)
  {
    var w := Serve(c, Start(t0), turns);
    EveryRun(c, t0, turns);
    if w.status.Running? && w.pending != [] {
      FlushInv(c, t0, w, turn.first);
      FlushAnswers(c, t0, w, turn.first);
    }
  }

  lemma FlushAnswers(c: Config, t0: Tables, w: Writer, f: Faults)
    requires c.checkpointEvery > 0 && WriterInv(c, t0, w) && w.status.Running?
    ensures var w' := FlushAndDisarm(c, w, f);
      w'.accepted == w.accepted && w'.pending == [] && !w'.deadline && |w'.replies| == |w.accepted|
  {
    FlushInv(c, t0, w, f);
    InvUpToDate(c, t0, w);
    assert |w.accepted| == |w.replies| + |w.pending|;
  }

  /** The import records that a turn receives: none when the writer has stopped, or when it spends
      the turn on an expired batch. */
  function Received(w: Writer, turn: Turn): seq<PendingImport> {
    if w.status.Running? && !(w.deadline && turn.headExpired) && turn.received.Got? && turn.received.message.Import?
    then [PendingImport(turn.received.message.sequence, turn.received.message.request)] else []
  }

  /** Nothing was accepted or refused. */
  predicate TookNothing(w: Writer, w': Writer) {
    w'.accepted == w.accepted && w'.rejected == w.rejected
  }

  lemma FlushTakesNothing(c: Config, w: Writer, f: Faults)
    ensures TookNothing(w, FlushAndDisarm(c, w, f)) && FlushAndDisarm(c, w, f).session == w.session
    ensures w.status.Running? ==> FlushAndDisarm(c, w, f).status.Running? || FlushAndDisarm(c, w, f).status.Failed?
  {
  }

  lemma SessionTakesNothing(c: Config, w: Writer, turn: Turn, m: Message)
    requires !m.Import?
    ensures TookNothing(w, OnSession(c, w, turn, m))
  {
    FlushTakesNothing(c, w, turn.first);
    var w1 := if w.pending != [] then FlushAndDisarm(c, w, turn.first) else w;
    if w1.status.Running? && m.GcFinish? {
      assert TookNothing(w1, OnFinish(c, w1, m.commit, turn.second));
    }
  }

  lemma DisconnectTakesNothing(c: Config, w: Writer, turn: Turn)
    ensures TookNothing(w, OnDisconnect(c, w, turn))
  {
    FlushTakesNothing(c, w, turn.first);
  }

  lemma ImportIsTaken(c: Config, w: Writer, turn: Turn, p: PendingImport)
    requires w.status.Running?
    ensures var w' := OnImport(c, w, turn, p);
      || (w'.status.Failed? && TookNothing(w, w'))
      || (if w.session.None? then w'.accepted == w.accepted + [p] && w'.rejected == w.rejected
          else w'.accepted == w.accepted && w'.rejected == w.rejected + [p.sequence])
  {
    FlushTakesNothing(c, w, turn.first);
    var w1 := if w.deadline && turn.receiptExpired then FlushAndDisarm(c, w, turn.first) else w;
    FlushTakesNothing(c, Push(w1, p), turn.second);
  }

  /** A received record joins a batch, or is refused while a collection session is open; it is
      lost only with the writer. Nothing else is accepted or refused. */
  lemma ReceivedIsAcceptedOrRefused(c: Config, w: Writer, turn: Turn)
    ensures var w', r := Take(c, w, turn), Received(w, turn);
      || (r == [] && TookNothing(w, w'))
      || (r != [] && w'.status.Failed? && TookNothing(w, w'))
      || (r != [] && w.session.None? && w'.accepted == w.accepted + r && w'.rejected == w.rejected)
      || (r != [] && w.session.Some? && w'.accepted == w.accepted && w'.rejected == w.rejected + [r[0].sequence])
  {
    if w.status.Running? {
      FlushTakesNothing(c, w, turn.first);
      match turn.received {
        case Got(m) =>
          if m.Import? {
            ImportIsTaken(c, w, turn, PendingImport(m.sequence, m.request));
          } else {
            SessionTakesNothing(c, w, turn, m);
          }
        case TimedOut =>
        case Disconnected => DisconnectTakesNothing(c, w, turn);
      }
    }
  }

  function AllReceived(c: Config, w: Writer, turns: seq<Turn>): seq<PendingImport>
    decreases |turns|
  {
    if turns == [] then [] else Received(w, turns[0]) + AllReceived(c, Take(c, w, turns[0]), turns[1..])
  }

  lemma {:induction false} NothingAfterFailure(c: Config, w: Writer, turns: seq<Turn>)
    requires !w.status.Running?
    ensures AllReceived(c, w, turns) == [] && Serve(c, w, turns) == w
    decreases |turns|
  {
    if turns != [] {
      NothingAfterFailure(c, w, turns[1..]);
    }
  }

  /** Conservation of records: in every run each received record was accepted or refused, but for
      at most one that the writer took down with it. */
  lemma {:induction false} RecordsAreConserved(c: Config, w: Writer, turns: seq<Turn>)
    ensures var w', received := Serve(c, w, turns), |AllReceived(c, w, turns)|;
      var taken := |w'.accepted| + |w'.rejected|;
      && taken <= |w.accepted| + |w.rejected| + received <= taken + 1
      && (!w'.status.Failed? ==> taken == |w.accepted| + |w.rejected| + received)
    decreases |turns|
  {
    if turns != [] {
      var w1 := Take(c, w, turns[0]);
      ReceivedIsAcceptedOrRefused(c, w, turns[0]);
      RecordsAreConserved(c, w1, turns[1..]);
      if w1.status.Failed? {
        NothingAfterFailure(c, w1, turns[1..]);
      }
    }
  }

  /** When every handle is gone the writer ends. An open session is discarded and nothing of it
      is durable; otherwise the open batch is flushed and every accepted ticket is answered. */
  lemma DisconnectEnds(c: Config, t0: Tables, turns: seq<Turn>, turn: Turn)
    requires c.checkpointEvery > 0 && turn.received.Disconnected?
    ensures var w := Serve(c, Start(t0), turns);
      var w' := Take(c, w, turn);
      w.status.Running? && !(w.deadline && turn.headExpired) ==>
        && !w'.status.Running? && w'.session.None? && |w'.replies| == |w'.accepted| && w'.accepted == w.accepted
        && (w.session.Some? ==> w'.status.Failed? && w'.tables == w.tables && w'.done == w.done)
  {
    var w := Serve(c, Start(t0), turns);
    EveryRun(c, t0, turns);
    if w.status.Running? {
      FlushAnswers(c, t0, w, turn.first);
      InvUpToDate(c, t0, w);
    }
  }

  /** Two runs that accepted the same records, without collections, agree on everything durable
      and on every answer, however differently their batches were cut. */
  lemma CutsDoNotMatter(c: Config, d: Config, t0: Tables, turns: seq<Turn>, other: seq<Turn>)
    requires c.checkpointEvery > 0 && d.checkpointEvery > 0
    requires var w, v := Serve(c, Start(t0), turns), Serve(d, Start(t0), other);
      && w.status.Stopped? && v.status.Stopped? && w.accepted == v.accepted
      && w.counters.gcSessions == 0 == v.counters.gcSessions
    ensures var w, v := Serve(c, Start(t0), turns), Serve(d, Start(t0), other);
      w.tables == v.tables && w.replies == v.replies
  {
    BatchingRefinesSequential(c, t0, turns);
    BatchingRefinesSequential(d, t0, other);
    var w, v := Serve(c, Start(t0), turns), Serve(d, Start(t0), other);
    SessionsAreCounted(c, Start(t0), turns);
    SessionsAreCounted(d, Start(t0), other);
    OnlyWrites(w.done);
    OnlyWrites(v.done);
    OutcomePerWrite(t0, w.done);
    assert w.replies == v.replies;
  }

  function SessionsIn(log: seq<Entry>): nat {
    if log == [] then 0 else SessionsIn(log[..|log| - 1]) + if log[|log| - 1].Collected? then 1 else 0
  }

  lemma {:induction false} OnlyWrites(log: seq<Entry>)
    requires SessionsIn(log) == 0
    ensures log == Writes(WrittenIn(log))
  {
    if log != [] {
      OnlyWrites(log[..|log| - 1]);
      assert log == log[..|log| - 1] + [log[|log| - 1]];
    }
  }

  lemma {:induction false} SessionsAppend(log: seq<Entry>, rs: seq<Request>)
    ensures SessionsIn(log + Writes(rs)) == SessionsIn(log)
  {
    if rs == [] {
      assert log + Writes(rs) == log;
    } else {
      var longer := log + Writes(rs);
      assert longer[..|longer| - 1] == log + Writes(rs[..|rs| - 1]);
      SessionsAppend(log, rs[..|rs| - 1]);
    }
  }

  lemma FlushCountsSessions(c: Config, w: Writer, f: Faults)
    ensures Flush(c, w, f).counters.gcSessions == w.counters.gcSessions
    ensures SessionsIn(Flush(c, w, f).done) == SessionsIn(w.done)
  {
    SessionsAppend(w.done, Requests(w.pending));
  }

  predicate Counted(w: Writer) {
    SessionsIn(w.done) == w.counters.gcSessions
  }

  lemma ImportCountsSessions(c: Config, w: Writer, turn: Turn, p: PendingImport)
    requires Counted(w)
    ensures Counted(OnImport(c, w, turn, p))
  {
    FlushCountsSessions(c, w, turn.first);
    var w1 := if w.deadline && turn.receiptExpired then FlushAndDisarm(c, w, turn.first) else w;
    FlushCountsSessions(c, Push(w1, p), turn.second);
  }

  lemma CollectedCounts(log: seq<Entry>, ops: seq<GcOp>)
    ensures SessionsIn(log + [Collected(ops)]) == SessionsIn(log) + 1
  {
    assert (log + [Collected(ops)])[..|log|] == log;
  }

  lemma FinishCountsSessions(c: Config, w: Writer, commit: bool, f: Faults)
    requires Counted(w)
    ensures Counted(OnFinish(c, w, commit, f))
  {
    if w.session.Some? {
      CollectedCounts(w.done, w.session.value.1);
    }
  }

  lemma SessionCountsSessions(c: Config, w: Writer, turn: Turn, m: Message)
    requires Counted(w) && !m.Import?
    ensures Counted(OnSession(c, w, turn, m))
  {
    FlushCountsSessions(c, w, turn.first);
    var w1 := if w.pending != [] then FlushAndDisarm(c, w, turn.first) else w;
    if m.GcFinish? {
      FinishCountsSessions(c, w1, m.commit, turn.second);
    }
  }

  lemma DisconnectCountsSessions(c: Config, w: Writer, turn: Turn)
    requires Counted(w)
    ensures Counted(OnDisconnect(c, w, turn))
  {
    FlushCountsSessions(c, w, turn.first);
  }

  lemma TakeCountsSessions(c: Config, w: Writer, turn: Turn)
    requires Counted(w)
    ensures Counted(Take(c, w, turn))
  {
    FlushCountsSessions(c, w, turn.first);
    if w.status.Running? && !(w.deadline && turn.headExpired) {
      match turn.received {
        case Got(m) =>
          if m.Import? {
            ImportCountsSessions(c, w, turn, PendingImport(m.sequence, m.request));
          } else {
            SessionCountsSessions(c, w, turn, m);
          }
        case TimedOut =>
        case Disconnected => DisconnectCountsSessions(c, w, turn);
      }
    }
  }

  lemma {:induction false} SessionsAreCounted(c: Config, w: Writer, turns: seq<Turn>)
    requires Counted(w)
    ensures Counted(Serve(c, w, turns))
    decreases |turns|
  {
    if turns != [] {
      TakeCountsSessions(c, w, turns[0]);
      SessionsAreCounted(c, Take(c, w, turns[0]), turns[1..]);
    }
  }

  /** A clean shutdown: every accepted ticket was answered, the record counter is the number of
      Ok answers, and checkpoints are one per N batches, one per N sessions and a last one. */
  lemma CleanShutdown(c: Config, t0: Tables, turns: seq<Turn>)
    requires c.checkpointEvery > 0 && Serve(c, Start(t0), turns).status.Stopped?
    ensures var w := Serve(c, Start(t0), turns);
      && |w.replies| == |w.accepted| == w.counters.records
      && (forall i :: 0 <= i < |w.replies| ==> w.replies[i].answer.Committed?)
      && w.counters.checkpoints ==
           w.counters.batches / c.checkpointEvery + w.counters.gcSessions / c.checkpointEvery + 1
  {
    EveryRun(c, t0, turns);
  }

  /** At the head of the loop: a session excludes a batch, a batch has a deadline and is not full. */
  lemma LoopHead(c: Config, t0: Tables, turns: seq<Turn>)
    requires c.checkpointEvery > 0
    ensures var w := Serve(c, Start(t0), turns);
      && (w.session.Some? ==> w.pending == [])
      && (w.deadline <==> w.pending != [])
      && (w.pending != [] ==> |w.pending| < c.maxBatch)
      && (w.session.Some? ==> w.session.value.0 == StageAll(w.tables, w.session.value.1))
  {
    EveryRun(c, t0, turns);
  }
}
