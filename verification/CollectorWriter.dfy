/** A collection as the catalog writer serves it: every run of the collector, with its faults, is
    one session of the writer, and both agree on the durable catalog. */
module CollectorWriter {
  import opened Domain
  import opened Catalog
  import opened GcPlan
  import opened GcApply
  import opened GcOutcome
  import W = WriterSpec

  const FINE: W.Faults := W.Faults(false, false, false)

  /** One request of the collector, and how the database answers it. */
  function Ask(m: W.Message, fails: bool, checkpointFails: bool): W.Turn {
    W.Turn(false, W.Got(m), false, FINE, W.Faults(fails, fails, checkpointFails))
  }

  /** The request, if any, that an operation of the collector is. */
  function Asks(j: Job, stage: Stage, e: Event): seq<W.Turn>
    requires InRange(j, stage)
  {
    if e.Crash? then []
    else match stage
    case MarkAt(i) => [Ask(W.GcStage(W.MarkOp(j.marks[i], j.now)), e.Fault?, false)]
    case ResurrectAt(i) => [Ask(W.GcStage(W.ResurrectOp(j.resurrections[i])), e.Fault?, false)]
    case DeleteRowAt(i) => [Ask(W.GcStage(W.SweepOp(j.candidates[i].blob)), e.Fault?, false)]
    case CommitAt => [Ask(W.GcFinish(true), e.Fault?, e.CheckpointFault?)]
    case PartialCommitAt => [Ask(W.GcFinish(true), e.Fault?, e.CheckpointFault?)]
    case RollbackAt => [Ask(W.GcFinish(false), e.Fault?, false)]
    case _ => []
  }

  function AllAsks(j: Job, s: State, events: seq<Event>): seq<W.Turn>
    requires InRange(j, s.stage)
    decreases |events|
  {
    if events == [] then []
    else Asks(j, s.stage, events[0]) + AllAsks(j, Step(j, s, events[0]), events[1..])
  }

  /** Collector and writer hold the same durable tables and, while the collection runs, the same
      staged ones. The writer survives unless the checkpoint right after the commit fails. */
  ghost predicate InStep(j: Job, s: State, w: W.Writer) {
    && w.tables == s.tables && w.pending == []
    && (w.status.Running? || (j.cadence == 1 && s.stage == Ended(Incomplete)))
    && (!s.stage.Ended? ==> w.counters.gcSessions == 0 && w.session.Some? && w.session.value.0 == s.staged)
  }

  /** The first session of a writer is followed by a checkpoint only at cadence one. */
  lemma FirstSessionIsDue(every: nat)
    ensures W.Due(1, every) <==> every == 1
  {
    if every > 1 {
      assert 1 % every == 1;
    }
  }

  lemma ServeOne(c: W.Config, w: W.Writer, turn: W.Turn)
    ensures W.Serve(c, w, [turn]) == W.Take(c, w, turn)
  {
    assert [turn][1..] == [];
    assert W.Serve(c, W.Take(c, w, turn), []) == W.Take(c, w, turn);
  }

  lemma {:induction false} ServeSplits(c: W.Config, w: W.Writer, a: seq<W.Turn>, b: seq<W.Turn>)
    ensures W.Serve(c, w, a + b) == W.Serve(c, W.Serve(c, w, a), b)
    decreases |a|
  {
    if a == [] {
      assert a + b == b;
    } else {
      assert (a + b)[1..] == a[1..] + b;
      ServeSplits(c, W.Take(c, w, a[0]), a[1..], b);
    }
  }

  /** A statement served, or refused by a fault, in an open session. */
  lemma StageIsServed(c: W.Config, w: W.Writer, op: W.GcOp, fails: bool)
    requires w.status.Running? && w.pending == [] && w.session.Some?
    ensures var w' := W.Take(c, w, Ask(W.GcStage(op), fails, false));
      && w'.tables == w.tables && w'.pending == [] && w'.status == w.status && w'.counters == w.counters
      && w'.session.Some? && w'.session.value.0 == if fails then w.session.value.0 else W.Stage(w.session.value.0, op)
  {
  }

  lemma FinishIsServed(c: W.Config, w: W.Writer, commit: bool, fails: bool, checkpointFails: bool)
    requires w.status.Running? && w.pending == [] && w.session.Some? && w.counters.gcSessions == 0
    ensures var w' := W.Take(c, w, Ask(W.GcFinish(commit), fails, checkpointFails));
      && w'.pending == [] && w'.tables == (if commit && !fails then w.session.value.0 else w.tables)
      && (w'.status.Running? || (commit && !fails && checkpointFails && c.checkpointEvery == 1))
  {
    FirstSessionIsDue(c.checkpointEvery);
  }

  lemma StepStaysInStep(c: W.Config, j: Job, s: State, w: W.Writer, e: Event)
    requires c.checkpointEvery == j.cadence && InRange(j, s.stage) && InStep(j, s, w)
    ensures InStep(j, Step(j, s, e), W.Serve(c, w, Asks(j, s.stage, e)))
  {
    var asks := Asks(j, s.stage, e);
    if asks != [] {
      ServeOne(c, w, asks[0]);
      match s.stage {
        case MarkAt(i) => StageIsServed(c, w, W.MarkOp(j.marks[i], j.now), e.Fault?);
        case ResurrectAt(i) => StageIsServed(c, w, W.ResurrectOp(j.resurrections[i]), e.Fault?);
        case DeleteRowAt(i) => StageIsServed(c, w, W.SweepOp(j.candidates[i].blob), e.Fault?);
        case CommitAt => FinishIsServed(c, w, true, e.Fault?, e.CheckpointFault?);
        case PartialCommitAt => FinishIsServed(c, w, true, e.Fault?, e.CheckpointFault?);
        case RollbackAt => FinishIsServed(c, w, false, e.Fault?, false);
        case _ =>
      }
    }
  }

  lemma {:induction false} RunStaysInStep(c: W.Config, j: Job, s: State, w: W.Writer, events: seq<Event>)
    requires c.checkpointEvery == j.cadence && InRange(j, s.stage) && InStep(j, s, w)
    ensures InStep(j, Run(j, s, events), W.Serve(c, w, AllAsks(j, s, events)))
    decreases |events|
  {
    if events != [] {
      var asks := Asks(j, s.stage, events[0]);
      StepStaysInStep(c, j, s, w, events[0]);
      RunStaysInStep(c, j, Step(j, s, events[0]), W.Serve(c, w, asks), events[1..]);
      ServeSplits(c, w, asks, AllAsks(j, Step(j, s, events[0]), events[1..]));
    }
  }

  /** A writer that has served no collection yet and has nothing to do, on the job's catalog. */
  predicate Idle(j: Job, w: W.Writer) {
    w.status.Running? && w.session.None? && w.pending == [] && w.counters.gcSessions == 0 && w.tables == j.begin
  }

  /** The session of a whole run. */
  function SessionOf(j: Job, events: seq<Event>): seq<W.Turn> {
    [Ask(W.GcBegin, false, false)] + AllAsks(j, Start(j), events)
  }

  /** Whatever fails and wherever the collector dies, the writer that serves its requests holds
      the durable catalog that the collector's own account says. */
  lemma WriterServesCollector(c: W.Config, j: Job, w: W.Writer, events: seq<Event>)
    requires c.checkpointEvery == j.cadence && Idle(j, w)
    ensures InStep(j, After(j, events), W.Serve(c, w, SessionOf(j, events)))
  {
    var begin := [Ask(W.GcBegin, false, false)];
    ServeOne(c, w, begin[0]);
    ServeSplits(c, w, begin, AllAsks(j, Start(j), events));
    RunStaysInStep(c, j, Start(j), W.Serve(c, w, begin), events);
  }

  /** A commit that the writer serves, of a whole plan or of what an abort found staged, makes
      durable in the writer's catalog exactly the planned marks, the planned resurrections and
      the row deletions the script carried out. */
  lemma WriterCommitsPlan(c: W.Config, j: Job, w: W.Writer, events: seq<Event>, n: nat) returns (k: nat)
    requires c.checkpointEvery == j.cadence && Idle(j, w) && WellPlanned(j) && n < |events| && Goes(events[n])
    requires StageAt(j, events, n).CommitAt? || StageAt(j, events, n).PartialCommitAt?
    ensures k <= |j.candidates| && forall i: nat :: RowDeleted(j, events, i) <==> i < k
    ensures StageAt(j, events, n).CommitAt? ==> k == |j.candidates|
    ensures CollectedUpTo(j, k, W.Serve(c, w, SessionOf(j, events)).tables)
  {
    k := CommitMeaning(j, events, n);
    WriterServesCollector(c, j, w, events);
  }

  // ---------------------------------------------------------------------------
  // The plan as a list of requests
  // ---------------------------------------------------------------------------

  /** The statements of a plan in the order in which they are sent. */
  function PlanOps(j: Job): (ops: seq<W.GcOp>)
    ensures |ops| == |j.marks| + |j.resurrections| + |j.candidates|
  {
    seq(|j.marks|, i requires 0 <= i < |j.marks| => W.MarkOp(j.marks[i], j.now))
    + seq(|j.resurrections|, i requires 0 <= i < |j.resurrections| => W.ResurrectOp(j.resurrections[i]))
    + seq(|j.candidates|, i requires 0 <= i < |j.candidates| => W.SweepOp(j.candidates[i].blob))
  }

  function Stages(ops: seq<W.GcOp>): (turns: seq<W.Turn>)
    ensures |turns| == |ops|
  {
    seq(|ops|, i requires 0 <= i < |ops| => Ask(W.GcStage(ops[i]), false, false))
  }

  lemma {:induction false} StagesAreServed(c: W.Config, w: W.Writer, ops: seq<W.GcOp>)
    requires w.status.Running? && w.pending == [] && w.session.Some?
    ensures var w' := W.Serve(c, w, Stages(ops));
      && w'.tables == w.tables && w'.pending == [] && w'.status == w.status && w'.counters == w.counters
      && w'.session.Some? && w'.session.value.0 == W.StageAll(w.session.value.0, ops)
    decreases |ops|
  {
    if ops != [] {
      var n := |ops| - 1;
      StagesAreServed(c, w, ops[..n]);
      assert Stages(ops) == Stages(ops[..n]) + [Ask(W.GcStage(ops[n]), false, false)];
      ServeSplits(c, w, Stages(ops[..n]), [Ask(W.GcStage(ops[n]), false, false)]);
      var w1 := W.Serve(c, w, Stages(ops[..n]));
      ServeOne(c, w1, Ask(W.GcStage(ops[n]), false, false));
      StageIsServed(c, w1, ops[n], false);
    }
  }

  lemma StageOneMore(t: Tables, ops: seq<W.GcOp>, i: nat)
    requires i < |ops|
    ensures W.StageAll(t, ops[..i + 1]) == W.Stage(W.StageAll(t, ops[..i]), ops[i])
  {
    assert ops[..i + 1][..i] == ops[..i];
  }

  lemma {:induction false} MarksAreStaged(j: Job, i: nat)
    requires WellPlanned(j) && i <= |j.marks|
    ensures W.StageAll(j.begin, PlanOps(j)[..i]) == TablesAfter(j, i, 0, 0)
  {
    if i > 0 {
      MarksAreStaged(j, i - 1);
      StageOneMore(j.begin, PlanOps(j), i - 1);
      MarkAffectsOne(j, i - 1);
    }
  }

  lemma {:induction false} ResurrectionsAreStaged(j: Job, i: nat)
    requires WellPlanned(j) && i <= |j.resurrections|
    ensures W.StageAll(j.begin, PlanOps(j)[..|j.marks| + i]) == TablesAfter(j, |j.marks|, i, 0)
  {
    if i == 0 {
      MarksAreStaged(j, |j.marks|);
    } else {
      ResurrectionsAreStaged(j, i - 1);
      StageOneMore(j.begin, PlanOps(j), |j.marks| + i - 1);
      ResurrectAffectsOne(j, i - 1);
    }
  }

  lemma SweepIsStaged(j: Job, i: nat, n: nat)
    requires WellPlanned(j) && i < |j.candidates| && n == |j.marks| + |j.resurrections| + i
    requires W.StageAll(j.begin, PlanOps(j)[..n]) == TablesAfter(j, |j.marks|, |j.resurrections|, i)
    ensures W.StageAll(j.begin, PlanOps(j)[..n + 1]) == TablesAfter(j, |j.marks|, |j.resurrections|, i + 1)
  {
    StageOneMore(j.begin, PlanOps(j), n);
    assert PlanOps(j)[n] == W.SweepOp(j.candidates[i].blob);
    SweepAffectsOne(j, i);
  }

  lemma {:induction false} SweepsAreStaged(j: Job, i: nat, n: nat)
    requires WellPlanned(j) && i <= |j.candidates| && n == |j.marks| + |j.resurrections| + i
    ensures W.StageAll(j.begin, PlanOps(j)[..n]) == TablesAfter(j, |j.marks|, |j.resurrections|, i)
  {
    if i == 0 {
      ResurrectionsAreStaged(j, |j.resurrections|);
    } else {
      SweepsAreStaged(j, i - 1, n - 1);
      SweepIsStaged(j, i - 1, n - 1);
    }
  }

  /** Begin, any statements, commit: the writer's catalog is those statements applied in order. */
  lemma WriterServesOps(c: W.Config, w: W.Writer, ops: seq<W.GcOp>)
    requires w.status.Running? && w.session.None? && w.pending == [] && w.counters.gcSessions == 0
    ensures W.Serve(c, w, WholeSession(ops)).tables == W.StageAll(w.tables, ops)
  {
    var begin, finish := [Ask(W.GcBegin, false, false)], [Ask(W.GcFinish(true), false, false)];
    ServeSplits(c, w, begin + Stages(ops), finish);
    ServeSplits(c, w, begin, Stages(ops));
    ServeOne(c, w, begin[0]);
    var w1 := W.Serve(c, w, begin);
    StagesAreServed(c, w1, ops);
    var w2 := W.Serve(c, w1, Stages(ops));
    ServeOne(c, w2, finish[0]);
    FinishIsServed(c, w2, true, false, false);
  }

  function WholeSession(ops: seq<W.GcOp>): seq<W.Turn> {
    [Ask(W.GcBegin, false, false)] + Stages(ops) + [Ask(W.GcFinish(true), false, false)]
  }

  /** Begin, the statements of the whole plan, commit: the writer ends with the rows that a
      complete collection leaves. */
  lemma WriterServesPlan(c: W.Config, j: Job, w: W.Writer)
    requires Idle(j, w) && WellPlanned(j)
    ensures CollectedUpTo(j, |j.candidates|, W.Serve(c, w, WholeSession(PlanOps(j))).tables)
  {
    WriterServesOps(c, w, PlanOps(j));
    assert PlanOps(j)[..|PlanOps(j)|] == PlanOps(j);
    SweepsAreStaged(j, |j.candidates|, |PlanOps(j)|);
    AllStagedTables(j, |j.candidates|);
  }
}
