/** What a collection leaves behind, told by the script of its operations alone: which of them
    were attempted and which succeeded. */
module GcOutcome {
  import opened Domain
  import opened Catalog
  import opened GcPlan
  import opened GcApply
  import opened GcApplyPlan
  import opened GcSafety

  /** The operation is carried out. */
  predicate Goes(e: Event) {
    !e.Fault? && !e.Crash?
  }

  /** The operation that event `n` of the script is about. */
  function StageAt(j: Job, events: seq<Event>, n: nat): Stage
    requires n <= |events|
  {
    After(j, events[..n]).stage
  }

  /** The row of candidate `i` was deleted in the transaction. */
  ghost predicate RowDeleted(j: Job, events: seq<Event>, i: nat) {
    exists n :: 0 <= n < |events| && StageAt(j, events, n) == DeleteRowAt(i) && Goes(events[n])
  }

  /** The file of candidate `i` was removed. */
  ghost predicate Unlinked(j: Job, events: seq<Event>, i: nat) {
    exists n :: 0 <= n < |events| && StageAt(j, events, n) == UnlinkAt(i) && Goes(events[n])
  }

  /** Some sweep mutation succeeded: a file was removed or a row deleted. */
  ghost predicate Mutated(j: Job, events: seq<Event>) {
    exists i: nat :: Unlinked(j, events, i) || RowDeleted(j, events, i)
  }

  // ---------------------------------------------------------------------------
  // One event more
  // ---------------------------------------------------------------------------

  lemma OneEventMore(j: Job, events: seq<Event>, e: Event)
    ensures After(j, events + [e]) == Step(j, After(j, events), e)
    ensures StageAt(j, events + [e], |events|) == After(j, events).stage
    ensures forall n :: 0 <= n < |events| ==> StageAt(j, events + [e], n) == StageAt(j, events, n)
  {
    RunAppend(j, Start(j), events, e);
    assert (events + [e])[..|events|] == events;
    forall n | 0 <= n < |events| ensures StageAt(j, events + [e], n) == StageAt(j, events, n) {
      assert (events + [e])[..n] == events[..n];
    }
  }

  lemma OneMoreTold(j: Job, events: seq<Event>, e: Event, i: nat)
    ensures RowDeleted(j, events + [e], i) <==>
      RowDeleted(j, events, i) || (After(j, events).stage == DeleteRowAt(i) && Goes(e))
    ensures Unlinked(j, events + [e], i) <==>
      Unlinked(j, events, i) || (After(j, events).stage == UnlinkAt(i) && Goes(e))
  {
    OneEventMore(j, events, e);
    var more := events + [e];
    if RowDeleted(j, events, i) {
      var n :| 0 <= n < |events| && StageAt(j, events, n) == DeleteRowAt(i) && Goes(events[n]);
      assert StageAt(j, more, n) == DeleteRowAt(i) && Goes(more[n]);
    }
    if Unlinked(j, events, i) {
      var n :| 0 <= n < |events| && StageAt(j, events, n) == UnlinkAt(i) && Goes(events[n]);
      assert StageAt(j, more, n) == UnlinkAt(i) && Goes(more[n]);
    }
    assert StageAt(j, more, |events|) == After(j, events).stage && more[|events|] == e;
  }

  /** What one step adds to the account: row deletions come in order, and the first sweep
      mutation comes after all marks and resurrections. */
  ghost predicate StepAdds(j: Job, s: State, e: Event, s': State) {
    && (s.stage.DeleteRowAt? ==> s.stage.i == s.progress.sweeps)
    && s'.progress.sweeps == s.progress.sweeps + (if s.stage.DeleteRowAt? && Goes(e) then 1 else 0)
    && s'.started == (s.started || ((s.stage.UnlinkAt? || s.stage.DeleteRowAt?) && Goes(e)))
    && (s'.started ==> AllStaged(j, s'.progress))
  }

  lemma DeletionAdds(j: Job, s: State, e: Event)
    requires WellPlanned(j) && Inv(j, s) && s.stage.DeleteRowAt?
    ensures StepAdds(j, s, e, Step(j, s, e))
  {
    SweepAffectsOne(j, s.stage.i);
  }

  lemma OtherStepAdds(j: Job, s: State, e: Event)
    requires InRange(j, s.stage) && StageFits(j, s) && !s.stage.DeleteRowAt?
    requires s.started ==> AllStaged(j, s.progress)
    ensures StepAdds(j, s, e, Step(j, s, e))
  {
  }

  lemma EveryStepAdds(j: Job, s: State, e: Event)
    requires WellPlanned(j) && Inv(j, s) && (s.started ==> AllStaged(j, s.progress))
    ensures StepAdds(j, s, e, Step(j, s, e))
  {
    if s.stage.DeleteRowAt? {
      DeletionAdds(j, s, e);
    } else {
      OtherStepAdds(j, s, e);
    }
  }

  /** The state keeps account of the script. */
  ghost predicate Accounted(j: Job, events: seq<Event>) {
    var s := After(j, events);
    && (forall i: nat :: RowDeleted(j, events, i) <==> i < s.progress.sweeps)
    && (Mutated(j, events) <==> s.started)
    && (s.started ==> AllStaged(j, s.progress))
  }

  lemma MutatedOneMore(j: Job, events: seq<Event>, e: Event)
    ensures var stage := After(j, events).stage;
      Mutated(j, events + [e]) <==> Mutated(j, events) || ((stage.UnlinkAt? || stage.DeleteRowAt?) && Goes(e))
  {
    var stage := After(j, events).stage;
    if Mutated(j, events) {
      var i: nat :| Unlinked(j, events, i) || RowDeleted(j, events, i);
      OneMoreTold(j, events, e, i);
    } else if (stage.UnlinkAt? || stage.DeleteRowAt?) && Goes(e) {
      OneMoreTold(j, events, e, stage.i);
    }
    if Mutated(j, events + [e]) {
      var i: nat :| Unlinked(j, events + [e], i) || RowDeleted(j, events + [e], i);
      OneMoreTold(j, events, e, i);
    }
  }

  lemma AccountedOneMore(j: Job, events: seq<Event>, e: Event)
    requires WellPlanned(j) && Accounted(j, events)
    ensures Accounted(j, events + [e])
  {
    var s := After(j, events);
    AfterFits(j, events);
    EveryStepAdds(j, s, e);
    OneEventMore(j, events, e);
    MutatedOneMore(j, events, e);
    forall i: nat
      ensures RowDeleted(j, events + [e], i) <==> RowDeleted(j, events, i) || (s.stage == DeleteRowAt(i) && Goes(e))
    {
      OneMoreTold(j, events, e, i);
    }
  }

  lemma {:induction false} EveryRunIsAccounted(j: Job, events: seq<Event>)
    requires WellPlanned(j)
    ensures Accounted(j, events)
    decreases |events|
  {
    if events != [] {
      var n := |events| - 1;
      EveryRunIsAccounted(j, events[..n]);
      AccountedOneMore(j, events[..n], events[n]);
      assert events == events[..n] + [events[n]];
    }
  }

  // ---------------------------------------------------------------------------
  // Files
  // ---------------------------------------------------------------------------

  lemma StepRemoves(j: Job, s: State, e: Event)
    requires InRange(j, s.stage)
    ensures Step(j, s, e).files ==
      if s.stage.UnlinkAt? && Goes(e) then s.files - {j.candidates[s.stage.i].blob.hash} else s.files
  {
  }

  /** Whatever fails, the files gone are exactly those whose removal succeeded. */
  lemma {:induction false} FilesGoneWereUnlinked(j: Job, events: seq<Event>, h: Hash)
    ensures h in After(j, events).files <==>
      h in j.files && !exists i :: 0 <= i < |j.candidates| && j.candidates[i].blob.hash == h && Unlinked(j, events, i)
    ensures h in After(j, events).files ==> After(j, events).files[h] == j.files[h]
    decreases |events|
  {
    if events != [] {
      var n := |events| - 1;
      var before, e := events[..n], events[n];
      assert events == before + [e];
      FilesGoneWereUnlinked(j, before, h);
      OneEventMore(j, before, e);
      StepRemoves(j, After(j, before), e);
      forall i | 0 <= i < |j.candidates|
        ensures Unlinked(j, events, i) <==> Unlinked(j, before, i) || (After(j, before).stage == UnlinkAt(i) && Goes(e))
      {
        OneMoreTold(j, before, e, i);
      }
    }
  }

  // ---------------------------------------------------------------------------
  // Ends
  // ---------------------------------------------------------------------------

  lemma {:induction false} EndedStays(j: Job, s: State, events: seq<Event>)
    requires s.stage.Ended?
    ensures Run(j, s, events) == s
    decreases |events|
  {
    if events != [] {
      EndedStays(j, s, events[1..]);
    }
  }

  lemma {:induction false} RunSplits(j: Job, s: State, events: seq<Event>, n: nat)
    requires InRange(j, s.stage) && n <= |events|
    ensures Run(j, s, events) == Run(j, Run(j, s, events[..n]), events[n..])
    decreases n
  {
    if n > 0 {
      RunSplits(j, Step(j, s, events[0]), events[1..], n - 1);
      assert events[..n][1..] == events[1..][..n - 1] && events[1..][n - 1..] == events[n..];
    } else {
      assert events[0..] == events;
    }
  }

  /** A run that ends with event `n` is over. */
  lemma EndsAt(j: Job, events: seq<Event>, n: nat)
    requires n < |events| && Step(j, After(j, events[..n]), events[n]).stage.Ended?
    ensures After(j, events) == Step(j, After(j, events[..n]), events[n])
  {
    assert events[..n + 1] == events[..n] + [events[n]];
    OneEventMore(j, events[..n], events[n]);
    RunSplits(j, Start(j), events, n + 1);
    EndedStays(j, After(j, events[..n + 1]), events[n + 1..]);
  }

  /** The catalog with every planned mark and resurrection and the first `k` row deletions, and
      nothing else, row by row. */
  ghost predicate CollectedUpTo(j: Job, k: nat, t: Tables)
    requires k <= |j.candidates|
  {
    && t.sources == j.begin.sources
    && (forall b :: b in j.marks ==> b.hash in t.blobs && t.blobs[b.hash] == BlobRow(b.size, Some(j.now)))
    && (forall b :: b in j.resurrections ==> b.hash in t.blobs && t.blobs[b.hash] == BlobRow(b.size, None))
    && (forall i :: 0 <= i < |j.candidates| ==> (j.candidates[i].blob.hash in t.blobs <==> k <= i))
    && (forall h :: h in t.blobs ==> h in j.begin.blobs)
    && (forall h :: h in j.begin.blobs && h !in Hashes(j.marks) + Hashes(j.resurrections) + SweptHashes(j.candidates[..k]) ==>
          h in t.blobs && t.blobs[h] == j.begin.blobs[h])
  }

  lemma PlannedRow(j: Job, b: CatalogBlob)
    requires WellPlanned(j)
    requires b in j.marks || b in j.resurrections
    ensures b.hash in j.begin.blobs && j.begin.blobs[b.hash].size == b.size && !Collectable(j.begin, b.hash)
    ensures b in j.marks ==> b.hash !in Hashes(j.resurrections)
  {
  }

  lemma SweptAre(j: Job, k: nat, h: Hash)
    requires WellPlanned(j) && k <= |j.candidates| && h in SweptHashes(j.candidates[..k])
    ensures Collectable(j.begin, h)
  {
    CandidatesAreCollectable(j, k, h);
  }

  lemma SweptInOrder(j: Job, k: nat, i: nat)
    requires WellPlanned(j) && k <= |j.candidates| && i < |j.candidates|
    ensures j.candidates[i].blob.hash in SweptHashes(j.candidates[..k]) <==> i < k
  {
    if i < k {
      assert j.candidates[..k][i] == j.candidates[i];
    }
  }

  lemma AllStagedTables(j: Job, k: nat)
    requires WellPlanned(j) && k <= |j.candidates|
    ensures CollectedUpTo(j, k, TablesAfter(j, |j.marks|, |j.resurrections|, k))
  {
    var t := TablesAfter(j, |j.marks|, |j.resurrections|, k);
    TablesAfterMeaning(j, |j.marks|, |j.resurrections|, k);
    assert j.marks[..|j.marks|] == j.marks && j.resurrections[..|j.resurrections|] == j.resurrections;
    forall h | h in SweptHashes(j.candidates[..k]) ensures Collectable(j.begin, h) {
      SweptAre(j, k, h);
    }
    forall b | b in j.marks ensures b.hash in t.blobs && t.blobs[b.hash] == BlobRow(b.size, Some(j.now)) {
      PlannedRow(j, b);
      assert b.hash in Hashes(j.marks);
    }
    forall b | b in j.resurrections ensures b.hash in t.blobs && t.blobs[b.hash] == BlobRow(b.size, None) {
      PlannedRow(j, b);
      assert b.hash in Hashes(j.resurrections);
    }
    forall i | 0 <= i < |j.candidates| ensures j.candidates[i].blob.hash in t.blobs <==> k <= i {
      SweptInOrder(j, k, i);
      CandidateFacts(j, i);
    }
  }

  /** What a report says when the answer to the commit arrives. */
  predicate Tells(j: Job, k: nat, report: Report)
    requires k <= |j.candidates|
  {
    && report.completed == Progress(|j.marks|, |j.resurrections|, k, BytesGone(j, k))
    && report.actions == ActionsAfter(j, |j.marks|, |j.resurrections|, k)
  }

  lemma CommitOf(j: Job, s: State, e: Event)
    requires WellPlanned(j) && Inv(j, s) && AllStaged(j, s.progress) && Goes(e)
    requires s.stage.CommitAt? || s.stage.PartialCommitAt?
    ensures var s', lost := Step(j, s, e), e.CheckpointFault? && j.cadence == 1;
      && s'.stage == Ended(if s.stage.CommitAt? && !lost then Complete else Incomplete)
      && s'.progress.sweeps == s.progress.sweeps
      && s'.tables == TablesAfter(j, |j.marks|, |j.resurrections|, s.progress.sweeps)
      && (!lost ==> Tells(j, s.progress.sweeps, s'.report))
      && (lost ==> s'.report.completed == Progress(0, 0, 0, 0) && s'.report.actions == [])
  {
  }

  /** A commit that succeeds, of a complete plan or of what an abort found staged, makes durable
      every planned mark, every planned resurrection and exactly those row deletions that the
      script carried out, and the report lists and counts exactly these, unless the checkpoint
      right after the commit loses the answer. `k` is the number of deletions. */
  lemma CommitMeaning(j: Job, events: seq<Event>, n: nat) returns (k: nat)
    requires WellPlanned(j) && n < |events| && Goes(events[n])
    requires StageAt(j, events, n).CommitAt? || StageAt(j, events, n).PartialCommitAt?
    ensures k <= |j.candidates| && forall i: nat :: RowDeleted(j, events, i) <==> i < k
    ensures StageAt(j, events, n).CommitAt? ==> k == |j.candidates|
    ensures var end, lost := After(j, events), events[n].CheckpointFault? && j.cadence == 1;
      && end.stage == Ended(if StageAt(j, events, n).CommitAt? && !lost then Complete else Incomplete)
      && CollectedUpTo(j, k, end.tables)
      && (!lost ==> Tells(j, k, end.report))
      && (lost ==> end.report.completed == Progress(0, 0, 0, 0) && end.report.actions == [])
  {
    var s := After(j, events[..n]);
    AfterFits(j, events[..n]);
    EveryRunIsAccounted(j, events[..n]);
    CommitOf(j, s, events[n]);
    EndsAt(j, events, n);
    EveryRunIsAccounted(j, events);
    k := s.progress.sweeps;
    AllStagedTables(j, k);
  }

  lemma OnlyCommitsChangeTables(j: Job, s: State, e: Event)
    requires InRange(j, s.stage) && !((s.stage.CommitAt? || s.stage.PartialCommitAt?) && Goes(e))
    ensures Step(j, s, e).tables == s.tables && Step(j, s, e).report.actions == s.report.actions
  {
  }

  /** As long as no commit has succeeded, the durable catalog is the one at the beginning and no
      action is reported. */
  lemma {:induction false} NothingWithoutCommit(j: Job, events: seq<Event>)
    requires forall n :: 0 <= n < |events| && Goes(events[n]) ==>
      !StageAt(j, events, n).CommitAt? && !StageAt(j, events, n).PartialCommitAt?
    ensures After(j, events).tables == j.begin && After(j, events).report.actions == []
    decreases |events|
  {
    if events != [] {
      var n := |events| - 1;
      assert events == events[..n] + [events[n]];
      OneEventMore(j, events[..n], events[n]);
      assert StageAt(j, events, n) == After(j, events[..n]).stage;
      NothingWithoutCommit(j, events[..n]);
      OnlyCommitsChangeTables(j, After(j, events[..n]), events[n]);
    }
  }

  /** A rollback happens only when no sweep mutation succeeded, and leaves everything as it was. */
  lemma RollbackMeaning(j: Job, events: seq<Event>, n: nat)
    requires WellPlanned(j) && n < |events| && StageAt(j, events, n).RollbackAt?
    ensures !Mutated(j, events)
    ensures var end := After(j, events);
      && end.stage.Ended? && end.stage.ending != Complete && end.tables == j.begin && end.files == j.files
      && end.report == Report(Progress(0, 0, 0, 0), 0, 0, [])
  {
    var s := After(j, events[..n]);
    AfterFits(j, events[..n]);
    EndsAt(j, events, n);
    EveryRunIsAccounted(j, events);
    AfterFits(j, events);
    NoneGone(j, s.physical);
    NoBytesGone(j, s.physical);
  }

  lemma {:induction false} NoBytesGone(j: Job, k: nat)
    requires k <= |j.candidates| && FilesGone(j, k) == 0
    ensures BytesGone(j, k) == 0
  {
    if k > 0 {
      NoBytesGone(j, k - 1);
    }
  }

  /** An operation that fails is followed by a partial commit if a sweep mutation succeeded
      before it, and by a rollback otherwise. */
  lemma FaultRoutes(j: Job, events: seq<Event>)
    requires WellPlanned(j) && !After(j, events).stage.Ended? && !After(j, events).stage.CommitAt?
    requires !After(j, events).stage.PartialCommitAt? && !After(j, events).stage.RollbackAt?
    ensures After(j, events + [Fault]).stage == if Mutated(j, events) then PartialCommitAt else RollbackAt
  {
    AfterFits(j, events);
    EveryRunIsAccounted(j, events);
    OneEventMore(j, events, Fault);
  }
}
