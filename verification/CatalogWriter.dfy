/** The writer thread as it runs: its variables, updated turn by turn, always equal to the state
    that `WriterSpec` describes. */
module CatalogWriter {
  import opened Domain
  import opened Catalog
  import opened WriterSpec

  class Loop {
    const config: Config
    var tables: Tables
    var session: Option<(Tables, seq<GcOp>)>
    var pending: seq<PendingImport>
    var deadline: bool
    var counters: Counters
    var replies: seq<Reply>
    var rejected: seq<nat>
    var status: Status
    ghost var accepted: seq<PendingImport>
    ghost var cuts: seq<nat>
    ghost var done: seq<Entry>

    ghost function View(): Writer
      reads this
    {
      Writer(tables, session, pending, deadline, counters, replies, rejected, status, accepted, cuts, done)
    }

    constructor (c: Config, t: Tables)
      ensures config == c && View() == Start(t)
    {
      config := c;
      tables, session, pending, deadline := t, None, [], false;
      counters, replies, rejected, status := Counters(0, 0, 0, 0), [], [], Running;
      accepted, cuts, done := [], [], [];
    }

    /** Answer every ticket of the open batch alike and stop. */
    method FailOpenBatch(answer: Answer)
      modifies this
      ensures View() == FailBatch(old(View()), answer)
    {
      ghost var before := replies;
      var batch := pending;
      for i := 0 to |batch|
        invariant replies == before + ReplyAll(batch[..i], answer)
        invariant View() == old(View()).(replies := replies)
      {
        replies := replies + [Reply(batch[i].sequence, answer)];
        assert ReplyAll(batch[..i + 1], answer) == ReplyAll(batch[..i], answer) + [Reply(batch[i].sequence, answer)];
      }
      assert batch[..|batch|] == batch;
      pending, deadline, status := [], false, Failed;
    }

    method RunCheckpoint(fails: bool)
      modifies this
      ensures View() == Checkpoint(old(View()), fails)
    {
      if fails {
        status := Failed;
      } else {
        counters := counters.(checkpoints := counters.checkpoints + 1);
      }
    }

    /** One transaction for the whole open batch: stop at the first record that does not apply,
        otherwise commit and answer each ticket with its outcome. */
    method FlushImports(f: Faults)
      modifies this
      ensures View() == Flush(config, old(View()), f)
    {
      if pending == [] { return; }
      if f.begin {
        FailOpenBatch(Dropped);
        return;
      }
      ghost var rs := Requests(pending);
      var staged, outcomes := tables, [];
      for i := 0 to |pending|
        invariant View() == old(View())
        invariant ApplyAll(tables, rs[..i]) == Ok((staged, outcomes))
      {
        var item := pending[i];
        assert rs[..i + 1][..i] == rs[..i] && rs[..i + 1][i] == item.request;
        var applied := ApplyRequest(staged, item.request);
        if applied.Err? {
          FirstFailureIs(tables, rs, i);
          FailOpenBatch(RolledBack(item.sequence));
          return;
        }
        staged, outcomes := applied.value.0, outcomes + [applied.value.1];
      }
      assert rs[..|pending|] == rs;
      if f.commit {
        FailOpenBatch(RolledBack(pending[0].sequence));
        return;
      }
      CommitOpenBatch(staged, outcomes, f.checkpoint);
    }

    method CommitOpenBatch(staged: Tables, outcomes: seq<Outcome>, checkpointFails: bool)
      requires |outcomes| == |pending|
      modifies this
      ensures View() == CommitBatch(config, old(View()), staged, outcomes, checkpointFails)
    {
      ghost var before := replies;
      var batch := pending;
      tables := staged;
      counters := counters.(batches := counters.batches + 1, records := counters.records + |outcomes|);
      done := done + Writes(Requests(batch));
      for i := 0 to |batch|
        invariant replies == before + ReplyCommitted(batch[..i], outcomes[..i])
        invariant View() == old(View()).(tables := staged, counters := counters, done := done, replies := replies)
        invariant counters == old(counters).(batches := old(counters).batches + 1, records := old(counters).records + |outcomes|)
        invariant done == old(done) + Writes(Requests(batch))
      {
        replies := replies + [Reply(batch[i].sequence, Committed(outcomes[i]))];
        assert ReplyCommitted(batch[..i + 1], outcomes[..i + 1])
            == ReplyCommitted(batch[..i], outcomes[..i]) + [Reply(batch[i].sequence, Committed(outcomes[i]))];
      }
      assert batch[..|batch|] == batch && outcomes[..|outcomes|] == outcomes;
      pending, deadline := [], false;
      if config.checkpointEvery > 0 && counters.batches % config.checkpointEvery == 0 {
        RunCheckpoint(checkpointFails);
      }
    }

    /** One iteration of the loop. */
    method Iterate(turn: Turn)
      modifies this
      ensures View() == Take(config, old(View()), turn)
    {
      if !status.Running? { return; }
      if deadline && turn.headExpired {
        FlushImports(turn.first);
        deadline := false;
        return;
      }
      match turn.received {
        case Got(m) =>
          if m.Import? {
            ReceiveImport(turn, PendingImport(m.sequence, m.request));
          } else {
            ReceiveSession(turn, m);
          }
        case TimedOut =>
          FlushImports(turn.first);
          deadline := false;
        case Disconnected => Disconnect(turn);
      }
    }

    method ReceiveImport(turn: Turn, p: PendingImport)
      requires status.Running?
      modifies this
      ensures View() == OnImport(config, old(View()), turn, p)
    {
      if deadline && turn.receiptExpired {
        FlushImports(turn.first);
        deadline := false;
        if !status.Running? { return; }
      }
      if session.Some? {
        rejected := rejected + [p.sequence];
        return;
      }
      cuts := if pending == [] then cuts + [|accepted|] else cuts;
      pending := pending + [p];
      accepted := accepted + [p];
      deadline := true;
      if |pending| >= config.maxBatch {
        FlushImports(turn.second);
        deadline := false;
      }
    }

    method ReceiveSession(turn: Turn, m: Message)
      requires status.Running? && !m.Import?
      modifies this
      ensures View() == OnSession(config, old(View()), turn, m)
    {
      if pending != [] {
        FlushImports(turn.first);
        deadline := false;
        if !status.Running? { return; }
      }
      match m {
        case GcBegin =>
          if session.None? && !turn.second.begin {
            session := Some((tables, []));
          }
        case GcStage(op) =>
          if session.Some? && !turn.second.commit {
            session := Some((Stage(session.value.0, op), session.value.1 + [op]));
          }
        case GcFinish(commit) =>
          if session.Some? && !turn.second.commit {
            if commit {
              tables := session.value.0;
              done := done + [Collected(session.value.1)];
              session := None;
              counters := counters.(gcSessions := counters.gcSessions + 1);
              if config.checkpointEvery > 0 && counters.gcSessions % config.checkpointEvery == 0 {
                RunCheckpoint(turn.second.checkpoint);
              }
            } else {
              session := None;
            }
          }
      }
    }

    method Disconnect(turn: Turn)
      requires status.Running?
      modifies this
      ensures View() == OnDisconnect(config, old(View()), turn)
    {
      if session.Some? {
        session, status := None, Failed;
        return;
      }
      if pending != [] {
        FlushImports(turn.first);
        deadline := false;
        if !status.Running? { return; }
      }
      RunCheckpoint(turn.second.checkpoint);
      if status.Running? {
        status := Stopped;
      }
    }
  }

  /** A record that fails after a prefix that applied is the first failure. */
  lemma FirstFailureIs(t: Tables, rs: seq<Request>, i: nat)
    requires i < |rs| && ApplyAll(t, rs[..i]).Ok? && ApplyAll(t, rs[..i + 1]).Err?
    ensures ApplyAll(t, rs).Err? && FirstFailure(t, rs) == i
  {
    FailuresLast(t, rs, i + 1, |rs|);
    assert rs[..|rs|] == rs;
    var k := FirstFailure(t, rs);
    if k < i {
      FailuresLast(t, rs, k + 1, i);
    } else if i < k {
      FailuresLast(t, rs, i + 1, k);
    }
  }

  lemma {:induction false} FailuresLast(t: Tables, rs: seq<Request>, a: nat, b: nat)
    requires a <= b <= |rs| && ApplyAll(t, rs[..a]).Err?
    ensures ApplyAll(t, rs[..b]).Err?
  {
    if a < b {
      FailuresLast(t, rs, a, b - 1);
      assert rs[..b][..b - 1] == rs[..b - 1];
    }
  }
}
