/** What a collection guarantees under every pattern of failures and crashes. */
module GcSafety {
  import opened Domain
  import opened Catalog
  import opened GcPlan
  import opened GcApply

  function JobFor(t: Tables, files: Cas, plan: Plan, candidates: seq<Candidate>, now: int, cadence: nat): Job {
    Job(t, files, plan.marks, plan.resurrections, candidates, now, cadence)
  }

  /** The job that a preflight hands over. */
  function PreflightJob(t: Tables, files: Cas, plan: Plan, cas: Inspection, io: Io, now: int, cadence: nat): Job {
    JobFor(t, files, plan, AllCandidates(plan.sweeps, cas, io), now, cadence)
  }

  /** Preflight completeness. When the preflight reports nothing, every candidate is a planned
      sweep, every present candidate carries an identity and every absent one has no file, so the
      plan is one that `apply` can carry out row by row. */
  lemma QuietPreflightPlansWell(t: Tables, files: Cas, rows: seq<CatalogBlob>, plan: Plan, cas: Inspection, io: Io, now: int, cadence: nat)
    requires Snapshot(t, rows) && IsPlan(rows, plan) && Truthful(files, cas, io) && WalkReported(cas)
    requires PreflightFindings(rows, plan.sweeps, {}, cas, io) == {}
    ensures WellPlanned(PreflightJob(t, files, plan, cas, io, now, cadence))
  {
    CandidatesInOrder(plan.sweeps, cas, io);
    var cs := AllCandidates(plan.sweeps, cas, io);
    forall c | c in cs
      ensures c.present ==> c.identity.Some? && HasFile(files, c.blob.hash, c.blob.size)
      ensures !c.present ==> c.identity.None? && c.blob.hash !in files
    {
      QuietCandidate(files, rows, plan.sweeps, cas, io, c);
    }
    PlanOfSnapshot(t, rows, plan);
  }

  lemma QuietCandidate(files: Cas, rows: seq<CatalogBlob>, sweeps: seq<CatalogBlob>, cas: Inspection, io: Io, c: Candidate)
    requires Truthful(files, cas, io) && AllRowFindings(rows, cas, io) == {} && AllSweepFindings(sweeps, cas, io) == {}
    requires c.blob in rows && c.blob in sweeps && HasCandidate(c.blob, cas, io) && [c] == CandidateOf(c.blob, cas, io)
    ensures c.present ==> c.identity.Some? && HasFile(files, c.blob.hash, c.blob.size)
    ensures !c.present ==> c.identity.None? && c.blob.hash !in files
  {
    var b := c.blob;
    assert [c][0] == CandidateOf(b, cas, io)[0];
    if b.hash in cas.valid {
      QuietRows(rows, cas, io, b);
      QuietSweep(sweeps, cas, io, b);
      assert AnswersTrue(files, b.hash, io.stat(b.hash));
    } else {
      assert AnswersTrue(files, b.hash, io.again(b.hash));
    }
  }

  lemma CoversMeansConfirmed(t: Tables, files: Cas, rows: seq<CatalogBlob>, plan: Plan, cas: Inspection, io: Io, now: int, cadence: nat)
    requires Snapshot(t, rows) && IsPlan(rows, plan)
    requires Covers(PreflightJob(t, files, plan, cas, io, now, cadence))
    ensures AbsenceConfirmed(plan.sweeps, cas, io)
  {
    var j := PreflightJob(t, files, plan, cas, io, now, cadence);
    CandidatesInOrder(plan.sweeps, cas, io);
    PlanOfSnapshot(t, rows, plan);
    forall b | b in plan.sweeps && b.hash !in cas.valid ensures io.again(b.hash).NotFound? {
      assert Collectable(t, b.hash);
      var c :| c in j.candidates && c.blob.hash == b.hash;
      assert HasCandidate(c.blob, cas, io);
    }
  }

  lemma ConfirmedMeansCovers(t: Tables, files: Cas, rows: seq<CatalogBlob>, plan: Plan, cas: Inspection, io: Io, now: int, cadence: nat)
    requires Snapshot(t, rows) && IsPlan(rows, plan) && Truthful(files, cas, io) && WalkReported(cas)
    requires PreflightFindings(rows, plan.sweeps, {}, cas, io) == {} && AbsenceConfirmed(plan.sweeps, cas, io)
    ensures Covers(PreflightJob(t, files, plan, cas, io, now, cadence))
  {
    var j := PreflightJob(t, files, plan, cas, io, now, cadence);
    CandidatesInOrder(plan.sweeps, cas, io);
    PlanOfSnapshot(t, rows, plan);
    forall h | Collectable(t, h) ensures h in SweptHashes(j.candidates) {
      var b := RowOf(t, h);
      assert b in plan.sweeps && HasCandidate(b, cas, io);
    }
  }

  /** Every planned sweep is exactly one candidate if and only if the second stat of every sweep
      that the walk did not list answers that it is absent; then, and only then, the job covers
      every collectable row. */
  lemma QuietPreflightCoversIff(t: Tables, files: Cas, rows: seq<CatalogBlob>, plan: Plan, cas: Inspection, io: Io, now: int, cadence: nat)
    requires Snapshot(t, rows) && IsPlan(rows, plan) && Truthful(files, cas, io) && WalkReported(cas)
    requires PreflightFindings(rows, plan.sweeps, {}, cas, io) == {}
    ensures var j := PreflightJob(t, files, plan, cas, io, now, cadence);
      && (Covers(j) <==> AbsenceConfirmed(plan.sweeps, cas, io))
      && (Covers(j) <==>
            |j.candidates| == |plan.sweeps| && forall i :: 0 <= i < |j.candidates| ==> j.candidates[i].blob == plan.sweeps[i])
  {
    SweepsMatchIff(plan.sweeps, cas, io);
    if Covers(PreflightJob(t, files, plan, cas, io, now, cadence)) {
      CoversMeansConfirmed(t, files, rows, plan, cas, io, now, cadence);
    }
    if AbsenceConfirmed(plan.sweeps, cas, io) {
      ConfirmedMeansCovers(t, files, rows, plan, cas, io, now, cadence);
    }
  }

  /** One marked, unreferenced row without a file: the first stat says so, the second fails. The
      preflight is quiet, the sweep is planned, and there is no candidate for it. */
  lemma FailedSecondStatSkipsSweep()
    returns (t: Tables, files: Cas, rows: seq<CatalogBlob>, plan: Plan, cas: Inspection, io: Io)
    ensures Snapshot(t, rows) && IsPlan(rows, plan) && Truthful(files, cas, io) && WalkReported(cas)
    ensures PreflightFindings(rows, plan.sweeps, {}, cas, io) == {}
    ensures plan.sweeps != [] && AllCandidates(plan.sweeps, cas, io) == []
  {
    t, files := Tables(map[7 := BlobRow(0, Some(0))], map[]), map[];
    var b := CatalogBlob(7, 0, true, false);
    assert RowOf(t, 7) == b;
    rows, plan := [b], Plan([], [], [b]);
    cas := Inspection({}, {}, true);
    io := Io(h => NotFound, h => OpenFailed, h => StatFailed);
    assert rows[..0] == [] && plan.sweeps[..0] == [];
    assert FindingsOfRow(b, cas, io) == {} && FindingsOfSweep(b, cas, io) == {} && CandidateOf(b, cas, io) == [];
    assert AllRowFindings([], cas, io) == {} && AllSweepFindings([], cas, io) == {} && AllCandidates([], cas, io) == [];
  }

  /** The three lists of a plan are the rows of the tables, each in the list of its kind. */
  lemma PlanOfSnapshot(t: Tables, rows: seq<CatalogBlob>, plan: Plan)
    requires Snapshot(t, rows) && IsPlan(rows, plan)
    ensures forall b: CatalogBlob :: b in rows <==> b.hash in t.blobs && b == RowOf(t, b.hash)
  {
  }

  // ---------------------------------------------------------------------------
  // Sweep safety
  // ---------------------------------------------------------------------------

  lemma CandidatesAreCollectable(j: Job, k: nat, h: Hash)
    requires WellPlanned(j) && k <= |j.candidates|
    requires h in SweptHashes(j.candidates[..k]) || h in PresentHashes(j.candidates[..k])
    ensures Collectable(j.begin, h) && h !in Hashes(j.marks) && h !in Hashes(j.resurrections)
  {
    var c :| c in j.candidates[..k] && c.blob.hash == h;
    assert c in j.candidates;
  }

  /** Where the tables of any reachable state stand: as at begin, or after a prefix of the plan. */
  lemma TablesOfState(j: Job, s: State)
    requires Inv(j, s)
    ensures s.tables == j.begin
         || (s.stage.Ended? && s.tables == TablesAfter(j, s.progress.marks, s.progress.resurrections, s.progress.sweeps))
  {
  }

  /** Under every pattern of failures, whatever file is gone and whatever row is deleted was
      marked and unreferenced when the run began; in particular nothing that this run marks or
      resurrects is swept by it. */
  lemma SweepSafety(j: Job, events: seq<Event>, h: Hash)
    requires WellPlanned(j)
    ensures var s := After(j, events);
      (h in j.files && h !in s.files) || (h in j.begin.blobs && h !in s.tables.blobs) ==>
        Collectable(j.begin, h) && h !in Hashes(j.marks) && h !in Hashes(j.resurrections)
    ensures forall x :: x in After(j, events).files ==> x in j.files && After(j, events).files[x] == j.files[x]
  {
    AfterFits(j, events);
    var s := After(j, events);
    TablesOfState(j, s);
    FilesAfterMeaning(j, s.physical);
    TablesAfterMeaning(j, s.progress.marks, s.progress.resurrections, s.progress.sweeps);
    if h in j.files && h !in s.files {
      CandidatesAreCollectable(j, s.physical, h);
    }
    if h in j.begin.blobs && h !in s.tables.blobs {
      CandidatesAreCollectable(j, s.progress.sweeps, h);
    }
  }

  // ---------------------------------------------------------------------------
  // The durable invariant
  // ---------------------------------------------------------------------------

  /** A row left after a prefix of the plan keeps its size; its mark changes only as planned. */
  lemma RowOfPrefix(j: Job, m: nat, r: nat, k: nat, h: Hash)
    requires WellPlanned(j) && m <= |j.marks| && r <= |j.resurrections| && k <= |j.candidates|
    requires h in TablesAfter(j, m, r, k).blobs
    ensures var row := TablesAfter(j, m, r, k).blobs[h];
      && h in j.begin.blobs && row.size == j.begin.blobs[h].size
      && (row.marked.None? && j.begin.blobs[h].marked.Some? ==> Referenced(j.begin, h))
      && (row.marked.Some? && j.begin.blobs[h].marked.None? ==> !Referenced(j.begin, h))
      && (Collectable(j.begin, h) ==> row == j.begin.blobs[h])
  {
    TablesAfterMeaning(j, m, r, k);
    if h in Hashes(j.resurrections[..r]) {
      var b :| b in j.resurrections[..r] && b.hash == h;
      assert b in j.resurrections;
    }
    if h in Hashes(j.marks[..m]) {
      var b :| b in j.marks[..m] && b.hash == h;
      assert b in j.marks;
    }
  }

  lemma PrefixKeepsDurable(j: Job, m: nat, r: nat, k: nat, p: nat)
    requires WellPlanned(j) && Durable(j.begin, j.files)
    requires m <= |j.marks| && r <= |j.resurrections| && k <= |j.candidates| && p <= |j.candidates|
    ensures Durable(TablesAfter(j, m, r, k), FilesAfter(j, p))
  {
    var t, files := TablesAfter(j, m, r, k), FilesAfter(j, p);
    TablesAfterMeaning(j, m, r, k);
    FilesAfterMeaning(j, p);
    forall h | h in t.blobs
      ensures HasFile(files, h, t.blobs[h].size) || (t.blobs[h].marked.Some? && !Referenced(t, h))
    {
      RowOfPrefix(j, m, r, k, h);
      SameReferences(t, j.begin, h);
      if h in PresentHashes(j.candidates[..p]) {
        CandidatesAreCollectable(j, p, h);
      }
    }
    forall x | x in t.sources
      ensures t.sources[x].hash in t.blobs && t.blobs[t.sources[x].hash].size == t.sources[x].size
    {
      var h := t.sources[x].hash;
      assert Referenced(j.begin, h);
      if h in SweptHashes(j.candidates[..k]) {
        CandidatesAreCollectable(j, k, h);
      }
      RowOfPrefix(j, m, r, k, h);
    }
  }

  lemma StateIsDurable(j: Job, s: State)
    requires WellPlanned(j) && Durable(j.begin, j.files) && Inv(j, s)
    ensures Durable(s.tables, s.files)
  {
    TablesOfState(j, s);
    PrefixKeepsDurable(j, 0, 0, 0, s.physical);
    PrefixKeepsDurable(j, s.progress.marks, s.progress.resurrections, s.progress.sweeps, s.physical);
  }

  /** A collection keeps the durable invariant after any sequence of successes, failures and
      crashes: what is on disk at that moment satisfies it. */
  lemma CollectionKeepsDurable(j: Job, events: seq<Event>)
    requires WellPlanned(j) && Durable(j.begin, j.files)
    ensures Durable(After(j, events).tables, After(j, events).files)
  {
    AfterFits(j, events);
    StateIsDurable(j, After(j, events));
  }

  /** It also keeps the store clean, so a later collection is never blocked by an earlier one. */
  lemma CollectionKeepsClean(j: Job, events: seq<Event>)
    requires WellPlanned(j) && Clean(j.begin, j.files)
    ensures Clean(After(j, events).tables, After(j, events).files)
  {
    CollectionKeepsDurable(j, events);
    AfterFits(j, events);
    var s := After(j, events);
    TablesOfState(j, s);
    var p := s.progress;
    FilesAfterMeaning(j, s.physical);
    TablesAfterMeaning(j, p.marks, p.resurrections, p.sweeps);
    forall h | h in s.files
      ensures h in s.tables.blobs && s.files[h].size == s.tables.blobs[h].size
      ensures !Referenced(s.tables, h) ==> s.files[h].digest == h
    {
      SameReferences(s.tables, j.begin, h);
      if s.tables != j.begin {
        if h in SweptHashes(j.candidates[..p.sweeps]) {
          SweptFileIsGone(j, p.sweeps, s.physical, h);
        }
        RowOfPrefix(j, p.marks, p.resurrections, p.sweeps, h);
      }
    }
  }

  /** A deleted row's file is gone: it was absent at begin or unlinked before the row. */
  lemma SweptFileIsGone(j: Job, k: nat, p: nat, h: Hash)
    requires WellPlanned(j) && k <= p <= |j.candidates| && h in SweptHashes(j.candidates[..k])
    ensures h !in FilesAfter(j, p)
  {
    FilesAfterMeaning(j, p);
    var c :| c in j.candidates[..k] && c.blob.hash == h;
    assert c in j.candidates && c in j.candidates[..p];
  }

  // ---------------------------------------------------------------------------
  // Reports
  // ---------------------------------------------------------------------------

  /** The actions are exactly the differences between the tables at begin and now. */
  ghost predicate ActionsTell(begin: Tables, now: Tables, actions: seq<Action>) {
    && now.sources == begin.sources
    && now.blobs.Keys <= begin.blobs.Keys
    && (forall h :: h in now.blobs ==> now.blobs[h].size == begin.blobs[h].size)
    && (forall a :: a in actions ==> a.hash in begin.blobs && a.size == begin.blobs[a.hash].size)
    && (forall h :: Acted(actions, Mark, h) <==>
          h in now.blobs && begin.blobs[h].marked.None? && now.blobs[h].marked.Some?)
    && (forall h :: Acted(actions, Resurrect, h) <==>
          h in now.blobs && begin.blobs[h].marked.Some? && now.blobs[h].marked.None?)
    && (forall h :: Acted(actions, Sweep, h) <==> h in begin.blobs && h !in now.blobs)
  }

  predicate Acted(actions: seq<Action>, kind: Kind, h: Hash) {
    exists a :: a in actions && a.kind == kind && a.hash == h
  }

  lemma {:induction false} ActedAfter(j: Job, m: nat, r: nat, k: nat, h: Hash)
    requires m <= |j.marks| && r <= |j.resurrections| && k <= |j.candidates|
    ensures var acts := ActionsAfter(j, m, r, k);
      && (Acted(acts, Mark, h) <==> h in Hashes(j.marks[..m]))
      && (Acted(acts, Resurrect, h) <==> h in Hashes(j.resurrections[..r]))
      && (Acted(acts, Sweep, h) <==> h in SweptHashes(j.candidates[..k]))
      && !Acted(acts, Unchanged, h)
  {
    if k > 0 {
      ActedAfter(j, m, r, k - 1, h);
      TakeCandidates(j.candidates, k - 1);
      var c := j.candidates[k - 1];
      ActedAppend(ActionsAfter(j, m, r, k - 1), ActionFor(Sweep, c.blob, Some(c.present)), h);
    } else if r > 0 {
      ActedAfter(j, m, r - 1, 0, h);
      TakeHashes(j.resurrections, r - 1);
      ActedAppend(ActionsAfter(j, m, r - 1, 0), ActionFor(Resurrect, j.resurrections[r - 1], None), h);
    } else if m > 0 {
      ActedAfter(j, m - 1, 0, 0, h);
      TakeHashes(j.marks, m - 1);
      ActedAppend(ActionsAfter(j, m - 1, 0, 0), ActionFor(Mark, j.marks[m - 1], None), h);
    }
  }

  lemma ActedAppend(actions: seq<Action>, a: Action, h: Hash)
    ensures forall kind :: Acted(actions + [a], kind, h) <==> Acted(actions, kind, h) || (a.kind == kind && a.hash == h)
  {
    forall kind
      ensures Acted(actions + [a], kind, h) <==> Acted(actions, kind, h) || (a.kind == kind && a.hash == h)
    {
      if a.kind == kind && a.hash == h {
        assert a in actions + [a];
      }
      if Acted(actions, kind, h) {
        var x :| x in actions && x.kind == kind && x.hash == h;
        assert x in actions + [a];
      }
    }
  }

  lemma {:induction false} ActionSizes(j: Job, m: nat, r: nat, k: nat, a: Action)
    requires WellPlanned(j) && m <= |j.marks| && r <= |j.resurrections| && k <= |j.candidates|
    requires a in ActionsAfter(j, m, r, k)
    ensures a.hash in j.begin.blobs && a.size == j.begin.blobs[a.hash].size
  {
    if k > 0 {
      assert j.candidates[k - 1] in j.candidates;
      if a in ActionsAfter(j, m, r, k - 1) {
        ActionSizes(j, m, r, k - 1, a);
      }
    } else if r > 0 {
      assert j.resurrections[r - 1] in j.resurrections;
      if a in ActionsAfter(j, m, r - 1, 0) {
        ActionSizes(j, m, r - 1, 0, a);
      }
    } else if m > 0 {
      assert j.marks[m - 1] in j.marks;
      if a in ActionsAfter(j, m - 1, 0, 0) {
        ActionSizes(j, m - 1, 0, 0, a);
      }
    }
  }

  lemma PrefixActionsTell(j: Job, m: nat, r: nat, k: nat)
    requires WellPlanned(j) && m <= |j.marks| && r <= |j.resurrections| && k <= |j.candidates|
    ensures ActionsTell(j.begin, TablesAfter(j, m, r, k), ActionsAfter(j, m, r, k))
  {
    var t, acts := TablesAfter(j, m, r, k), ActionsAfter(j, m, r, k);
    TablesAfterMeaning(j, m, r, k);
    forall a | a in acts ensures a.hash in j.begin.blobs && a.size == j.begin.blobs[a.hash].size {
      ActionSizes(j, m, r, k, a);
    }
    forall h
      ensures Acted(acts, Mark, h) <==> h in t.blobs && j.begin.blobs[h].marked.None? && t.blobs[h].marked.Some?
      ensures Acted(acts, Resurrect, h) <==> h in t.blobs && j.begin.blobs[h].marked.Some? && t.blobs[h].marked.None?
      ensures Acted(acts, Sweep, h) <==> h in j.begin.blobs && h !in t.blobs
    {
      RowActionsTell(j, m, r, k, h);
    }
  }

  lemma RowActionsTell(j: Job, m: nat, r: nat, k: nat, h: Hash)
    requires WellPlanned(j) && m <= |j.marks| && r <= |j.resurrections| && k <= |j.candidates|
    ensures var t, acts := TablesAfter(j, m, r, k), ActionsAfter(j, m, r, k);
      && t.blobs.Keys <= j.begin.blobs.Keys
      && (Acted(acts, Mark, h) <==> h in t.blobs && j.begin.blobs[h].marked.None? && t.blobs[h].marked.Some?)
      && (Acted(acts, Resurrect, h) <==> h in t.blobs && j.begin.blobs[h].marked.Some? && t.blobs[h].marked.None?)
      && (Acted(acts, Sweep, h) <==> h in j.begin.blobs && h !in t.blobs)
  {
    TablesAfterMeaning(j, m, r, k);
    ActedAfter(j, m, r, k, h);
    PlannedFacts(j, m, r, k, h);
  }

  lemma PlannedFacts(j: Job, m: nat, r: nat, k: nat, h: Hash)
    requires WellPlanned(j) && m <= |j.marks| && r <= |j.resurrections| && k <= |j.candidates|
    ensures h in Hashes(j.marks[..m]) ==>
      h in j.begin.blobs && j.begin.blobs[h].marked.None? && h !in Hashes(j.resurrections[..r]) && h !in SweptHashes(j.candidates[..k])
    ensures h in Hashes(j.resurrections[..r]) ==>
      h in j.begin.blobs && j.begin.blobs[h].marked.Some? && h !in SweptHashes(j.candidates[..k])
    ensures h in SweptHashes(j.candidates[..k]) ==> h in j.begin.blobs
  {
    if h in Hashes(j.resurrections[..r]) {
      var b :| b in j.resurrections[..r] && b.hash == h;
      assert b in j.resurrections;
    }
    if h in Hashes(j.marks[..m]) {
      var b :| b in j.marks[..m] && b.hash == h;
      assert b in j.marks;
    }
    if h in SweptHashes(j.candidates[..k]) {
      CandidatesAreCollectable(j, k, h);
    }
  }

  predicate EarlyAbortIsHarmless(j: Job, s: State) {
    s.stage.Ended? && s.stage.ending != Complete && !s.started ==> s.tables == j.begin && s.files == j.files
  }

  /** A run that ends without completing and before its first sweep mutation leaves the catalog
      and the store exactly as they were. */
  lemma EarlyAbortChangesNothing(j: Job, events: seq<Event>)
    requires WellPlanned(j) && j.cadence != 1
    ensures EarlyAbortIsHarmless(j, After(j, events))
  {
    AfterFits(j, events);
    var s := After(j, events);
    if !s.started {
      NoneGone(j, s.physical);
    }
  }

  lemma {:induction false} NoneGone(j: Job, k: nat)
    requires k <= |j.candidates| && FilesGone(j, k) == 0
    ensures FilesAfter(j, k) == j.files
  {
    if k > 0 {
      NoneGone(j, k - 1);
    }
  }

  /** The report of every ended run names exactly the durable changes. */
  ghost predicate ReportIsExact(j: Job, s: State) {
    s.stage.Ended? && s.stage.ending != Crashed ==> ActionsTell(j.begin, s.tables, s.report.actions)
  }

  lemma ReportsAreExact(j: Job, events: seq<Event>)
    requires WellPlanned(j) && j.cadence != 1
    ensures ReportIsExact(j, After(j, events))
  {
    AfterFits(j, events);
    var s := After(j, events);
    PrefixActionsTell(j, 0, 0, 0);
    PrefixActionsTell(j, s.progress.marks, s.progress.resurrections, s.progress.sweeps);
  }

  /** One unreferenced, unmarked blob, collected by a writer that checkpoints after every commit:
      the mark is committed, the checkpoint fails and the report says that nothing was done. */
  lemma EveryCommitCheckpointHidesAction(now: int) returns (j: Job, events: seq<Event>)
    ensures WellPlanned(j) && j.cadence == 1
    ensures !ReportIsExact(j, After(j, events)) && !EarlyAbortIsHarmless(j, After(j, events))
  {
    var t := Tables(map[7 := BlobRow(0, None)], map[]);
    var b := CatalogBlob(7, 0, false, false);
    j := Job(t, map[], [b], [], [], now, 1);
    assert RowOf(t, 7) == b;
    assert WellPlanned(j);
    events := [Go, CheckpointFault];
    var s1 := Step(j, Start(j), Go);
    assert s1.stage == CommitAt;
    var s2 := Step(j, s1, CheckpointFault);
    assert events[1..] == [CheckpointFault] && events[1..][1..] == [];
    assert Run(j, s1, events[1..]) == Run(j, s2, []);
    assert After(j, events) == s2;
    assert s2.tables.blobs[7].marked == Some(now) && s2.report.actions == [];
    assert !Acted([], Mark, 7);
  }

  /** Reports are exact in every run if and only if the writer does not checkpoint after every
      commit; the command uses a cadence of eight. */
  lemma ReportsAreExactIff(cadence: nat)
    ensures (forall j, events :: WellPlanned(j) && j.cadence == cadence ==> ReportIsExact(j, After(j, events)))
       <==> cadence != 1
  {
    if cadence == 1 {
      var j, events := EveryCommitCheckpointHidesAction(0);
    } else {
      forall j, events | WellPlanned(j) && j.cadence == cadence ensures ReportIsExact(j, After(j, events)) {
        ReportsAreExact(j, events);
      }
    }
  }

  /** On the same condition, and no other, an early abort never leaves a change behind. */
  lemma EarlyAbortsAreHarmlessIff(cadence: nat)
    ensures (forall j, events :: WellPlanned(j) && j.cadence == cadence ==> EarlyAbortIsHarmless(j, After(j, events)))
       <==> cadence != 1
  {
    if cadence == 1 {
      var j, events := EveryCommitCheckpointHidesAction(0);
    } else {
      forall j, events | WellPlanned(j) && j.cadence == cadence ensures EarlyAbortIsHarmless(j, After(j, events)) {
        EarlyAbortChangesNothing(j, events);
      }
    }
  }

  lemma {:induction false} GoneGrows(j: Job, a: nat, b: nat)
    requires a <= b <= |j.candidates|
    ensures BytesGone(j, a) <= BytesGone(j, b)
  {
    if a < b {
      GoneGrows(j, a, b - 1);
    }
  }

  lemma {:induction false} ReclaimableIsBytes(j: Job, k: nat)
    requires WellPlanned(j) && k <= |j.candidates|
    ensures Reclaimable(j.candidates[..k]) == BytesGone(j, k)
  {
    if k > 0 {
      ReclaimableIsBytes(j, k - 1);
      assert j.candidates[..k][..k - 1] == j.candidates[..k - 1];
      assert j.candidates[k - 1] in j.candidates;
    }
  }

  lemma PresentCandidate(j: Job, i: nat)
    requires WellPlanned(j) && i < |j.candidates|
    ensures j.candidates[i].blob.hash !in PresentHashes(j.candidates[..i])
    ensures j.candidates[i].present ==> j.candidates[i].blob.hash in j.files
  {
    assert j.candidates[i] in j.candidates;
  }

  ghost predicate RemovedCounted(j: Job, k: nat)
    requires k <= |j.candidates|
  {
    FilesGone(j, k) == |PresentHashes(j.candidates[..k])| && PresentHashes(j.candidates[..k]) <= j.files.Keys
  }

  lemma NoneRemoved(j: Job)
    ensures RemovedCounted(j, 0)
  {
    assert PresentHashes(j.candidates[..0]) == {};
  }

  lemma {:induction false} RemovedFileCount(j: Job, k: nat)
    requires WellPlanned(j) && k <= |j.candidates|
    ensures RemovedCounted(j, k)
  {
    if k == 0 {
      NoneRemoved(j);
    } else {
      RemovedFileCount(j, k - 1);
      PresentCandidate(j, k - 1);
      CountOneMore(j, k - 1, k);
    }
  }

  lemma CountOneMore(j: Job, i: nat, k: nat)
    requires i < |j.candidates| && k == i + 1
    requires j.candidates[i].blob.hash !in PresentHashes(j.candidates[..i])
    requires j.candidates[i].present ==> j.candidates[i].blob.hash in j.files
    requires RemovedCounted(j, i)
    ensures RemovedCounted(j, k)
  {
    TakeCandidates(j.candidates, i);
  }

  lemma BytesInOrder(j: Job, s: State)
    requires Inv(j, s)
    ensures s.report.completed.reclaimed <= s.report.bytesUnlinked <= BytesGone(j, |j.candidates|)
    ensures s.stage == Ended(Complete) ==>
      s.report.completed.reclaimed == s.report.bytesUnlinked == BytesGone(j, |j.candidates|)
  {
    GoneGrows(j, s.progress.sweeps, s.physical);
    GoneGrows(j, s.physical, |j.candidates|);
  }

  lemma RemovedFilesOf(j: Job, k: nat)
    requires WellPlanned(j) && k <= |j.candidates|
    ensures FilesGone(j, k) == |j.files.Keys - FilesAfter(j, k).Keys|
  {
    RemovedFileCount(j, k);
    FilesAfterMeaning(j, k);
    assert j.files.Keys - FilesAfter(j, k).Keys == PresentHashes(j.candidates[..k]);
  }

  /** In every reachable state, reclaimed bytes never exceed unlinked bytes, which never exceed
      what the preflight called reclaimable, and the removed-file counter counts exactly the
      files that are gone. */
  lemma ReportedBytes(j: Job, events: seq<Event>)
    requires WellPlanned(j)
    ensures var s := After(j, events);
      && s.report.completed.reclaimed <= s.report.bytesUnlinked <= Reclaimable(j.candidates)
      && s.report.filesRemoved == |j.files.Keys - s.files.Keys|
      && (s.stage == Ended(Complete) ==>
            s.report.completed.reclaimed == s.report.bytesUnlinked == Reclaimable(j.candidates))
  {
    AfterFits(j, events);
    BytesOfState(j, After(j, events));
  }

  lemma BytesOfState(j: Job, s: State)
    requires WellPlanned(j) && Inv(j, s)
    ensures s.report.completed.reclaimed <= s.report.bytesUnlinked <= Reclaimable(j.candidates)
    ensures s.report.filesRemoved == |j.files.Keys - s.files.Keys|
    ensures s.stage == Ended(Complete) ==>
      s.report.completed.reclaimed == s.report.bytesUnlinked == Reclaimable(j.candidates)
  {
    BytesInOrder(j, s);
    ReclaimableIsBytes(j, |j.candidates|);
    assert j.candidates[..|j.candidates|] == j.candidates;
    RemovedFilesOf(j, s.physical);
  }

  lemma {:induction false} ActionsTellSource(j: Job, m: nat, r: nat, k: nat, a: Action)
    requires WellPlanned(j) && m <= |j.marks| && r <= |j.resurrections| && k <= |j.candidates| && a in ActionsAfter(j, m, r, k)
    ensures a.present == if a.kind == Sweep then Some(a.hash in j.files) else None
    decreases k, r, m
  {
    if k > 0 {
      if a in ActionsAfter(j, m, r, k - 1) {
        ActionsTellSource(j, m, r, k - 1, a);
      } else {
        assert j.candidates[k - 1] in j.candidates;
      }
    } else if r > 0 {
      if a in ActionsAfter(j, m, r - 1, 0) {
        ActionsTellSource(j, m, r - 1, 0, a);
      }
    } else if m > 0 {
      if a in ActionsAfter(j, m - 1, 0, 0) {
        ActionsTellSource(j, m - 1, 0, 0, a);
      }
    }
  }

  /** A reported sweep says whether its file was there when the run began; other actions say
      nothing of files. */
  lemma ReportedSourceState(j: Job, events: seq<Event>, a: Action)
    requires WellPlanned(j) && a in After(j, events).report.actions
    ensures a.present == if a.kind == Sweep then Some(a.hash in j.files) else None
  {
    AfterFits(j, events);
    var s := After(j, events);
    ActionsTellSource(j, s.progress.marks, s.progress.resurrections, s.progress.sweeps, a);
  }
}
