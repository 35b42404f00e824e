/** Collections without failures: they complete, they do what the dry run says, and two of them
    bring any clean store, interrupted or not, to its fixed point. */
module GcConvergence {
  import opened Domain
  import opened Catalog
  import opened GcPlan
  import opened GcApply
  import opened GcSafety

  // ---------------------------------------------------------------------------
  // A run without failures completes
  // ---------------------------------------------------------------------------

  /** An upper bound on the operations left. */
  function Left(j: Job, stage: Stage): nat
    requires InRange(j, stage)
  {
    var sweeps := 4 * |j.candidates| + 1;
    match stage
    case MarkAt(i) => |j.marks| - i + |j.resurrections| + sweeps
    case ResurrectAt(i) => |j.resurrections| - i + sweeps
    case CheckSweepAt(i) => sweeps - 4 * i
    case UnlinkAt(i) => sweeps - 4 * i - 1
    case SyncAt(i) => sweeps - 4 * i - 2
    case DeleteRowAt(i) => sweeps - 4 * i - 3
    case CommitAt => 1
    case PartialCommitAt => 1
    case RollbackAt => 1
    case Ended(_) => 0
  }

  predicate OnTrack(stage: Stage) {
    !stage.PartialCommitAt? && !stage.RollbackAt? && (stage.Ended? ==> stage.ending == Complete)
  }

  lemma MarkingMakesProgress(j: Job, s: State)
    requires WellPlanned(j) && Inv(j, s) && s.stage.MarkAt?
    ensures OnTrack(Step(j, s, Go).stage) && Left(j, Step(j, s, Go).stage) < Left(j, s.stage)
  {
    MarkAffectsOne(j, s.stage.i);
  }

  lemma ResurrectingMakesProgress(j: Job, s: State)
    requires WellPlanned(j) && Inv(j, s) && s.stage.ResurrectAt?
    ensures OnTrack(Step(j, s, Go).stage) && Left(j, Step(j, s, Go).stage) < Left(j, s.stage)
  {
    ResurrectAffectsOne(j, s.stage.i);
  }

  lemma DeletingMakesProgress(j: Job, s: State)
    requires WellPlanned(j) && Inv(j, s) && s.stage.DeleteRowAt?
    ensures OnTrack(Step(j, s, Go).stage) && Left(j, Step(j, s, Go).stage) < Left(j, s.stage)
  {
    SweepAffectsOne(j, s.stage.i);
  }

  lemma FilesMakeProgress(j: Job, s: State)
    requires InRange(j, s.stage) && OnTrack(s.stage) && !s.stage.Ended?
    requires !s.stage.MarkAt? && !s.stage.ResurrectAt? && !s.stage.DeleteRowAt?
    requires s.stage.CheckSweepAt? && j.candidates[s.stage.i].present ==> j.candidates[s.stage.i].identity.Some?
    ensures OnTrack(Step(j, s, Go).stage) && Left(j, Step(j, s, Go).stage) < Left(j, s.stage)
  {
  }

  lemma GoMakesProgress(j: Job, s: State)
    requires WellPlanned(j) && Inv(j, s) && OnTrack(s.stage) && !s.stage.Ended?
    ensures OnTrack(Step(j, s, Go).stage) && Left(j, Step(j, s, Go).stage) < Left(j, s.stage)
  {
    if s.stage.MarkAt? {
      MarkingMakesProgress(j, s);
    } else if s.stage.ResurrectAt? {
      ResurrectingMakesProgress(j, s);
    } else if s.stage.DeleteRowAt? {
      DeletingMakesProgress(j, s);
    } else {
      if s.stage.CheckSweepAt? {
        assert j.candidates[s.stage.i] in j.candidates;
      }
      FilesMakeProgress(j, s);
    }
  }

  function AllGo(n: nat): (r: seq<Event>)
    ensures |r| == n && forall i :: 0 <= i < n ==> r[i] == Go
  {
    seq(n, i => Go)
  }

  lemma RunNoGo(j: Job, s: State)
    requires InRange(j, s.stage)
    ensures Run(j, s, AllGo(0)) == s
  {
    assert AllGo(0) == [];
  }

  lemma RunOneGo(j: Job, s: State, n: nat)
    requires InRange(j, s.stage) && n > 0
    ensures Run(j, s, AllGo(n)) == Run(j, Step(j, s, Go), AllGo(n - 1))
  {
    assert AllGo(n)[1..] == AllGo(n - 1);
  }

  lemma GoStep(j: Job, s: State, n: nat) returns (s': State)
    requires WellPlanned(j) && Inv(j, s) && OnTrack(s.stage) && n > 0 && n >= Left(j, s.stage)
    ensures Inv(j, s') && OnTrack(s'.stage) && n - 1 >= Left(j, s'.stage)
    ensures Run(j, s, AllGo(n)) == Run(j, s', AllGo(n - 1))
  {
    s' := Step(j, s, Go);
    StepKeepsInv(j, s, Go);
    RunOneGo(j, s, n);
    if !s.stage.Ended? {
      GoMakesProgress(j, s);
    }
  }

  lemma NothingLeft(j: Job, stage: Stage)
    requires InRange(j, stage) && OnTrack(stage) && Left(j, stage) == 0
    ensures stage == Ended(Complete)
  {
  }

  lemma NoGoCompletes(j: Job, s: State)
    requires InRange(j, s.stage) && OnTrack(s.stage) && Left(j, s.stage) == 0
    ensures Run(j, s, AllGo(0)).stage == Ended(Complete)
  {
    NothingLeft(j, s.stage);
    RunNoGo(j, s);
  }

  lemma {:induction false} GoingOnCompletes(j: Job, s: State, n: nat)
    requires WellPlanned(j) && Inv(j, s) && OnTrack(s.stage) && n >= Left(j, s.stage)
    ensures Run(j, s, AllGo(n)).stage == Ended(Complete)
    decreases n
  {
    if n == 0 {
      NoGoCompletes(j, s);
    } else {
      var s' := GoStep(j, s, n);
      GoingOnCompletes(j, s', n - 1);
    }
  }

  /** After a quiet preflight neither the missing-identity abort nor a wrong row count can occur:
      a run without failures completes. */
  lemma FaultFreeRunCompletes(j: Job, n: nat)
    requires WellPlanned(j) && n >= Left(j, Start(j).stage)
    ensures After(j, AllGo(n)).stage == Ended(Complete)
  {
    StartFits(j);
    GoingOnCompletes(j, Start(j), n);
  }

  // ---------------------------------------------------------------------------
  // The dry run
  // ---------------------------------------------------------------------------

  /** The loops of a dry run: marks, resurrections, then candidates. */
  method DryRunActions(marks: seq<CatalogBlob>, resurrections: seq<CatalogBlob>, candidates: seq<Candidate>, ghost j: Job)
    returns (actions: seq<Action>)
    requires marks == j.marks && resurrections == j.resurrections && candidates == j.candidates
    ensures actions == ActionsAfter(j, |marks|, |resurrections|, |candidates|)
  {
    actions := [];
    for i := 0 to |marks|
      invariant actions == ActionsAfter(j, i, 0, 0)
    {
      actions := actions + [ActionFor(Mark, marks[i], None)];
    }
    for i := 0 to |resurrections|
      invariant actions == ActionsAfter(j, |marks|, i, 0)
    {
      actions := actions + [ActionFor(Resurrect, resurrections[i], None)];
    }
    for i := 0 to |candidates|
      invariant actions == ActionsAfter(j, |marks|, |resurrections|, i)
    {
      actions := actions + [ActionFor(Sweep, candidates[i].blob, Some(candidates[i].present))];
    }
  }

  /** Report order: kinds in the order mark, resurrect, sweep, hashes ascending within a kind. */
  function Rank(kind: Kind): nat {
    match kind case Unchanged => 0 case Mark => 1 case Resurrect => 2 case Sweep => 3
  }

  predicate Precedes(a: Action, b: Action) {
    Rank(a.kind) < Rank(b.kind) || (a.kind == b.kind && a.hash < b.hash)
  }

  ghost predicate Ordered(actions: seq<Action>) {
    forall x, y :: 0 <= x < y < |actions| ==> Precedes(actions[x], actions[y])
  }

  lemma OrderedAppend(before: seq<Action>, a: Action)
    requires Ordered(before) && forall x :: x in before ==> Precedes(x, a)
    ensures Ordered(before + [a])
  {
  }

  lemma {:induction false} ActionsAreOrdered(j: Job, m: nat, r: nat, k: nat)
    requires WellPlanned(j) && m <= |j.marks| && r <= |j.resurrections| && k <= |j.candidates|
    ensures Ordered(ActionsAfter(j, m, r, k))
  {
    if k > 0 {
      ActionsAreOrdered(j, m, r, k - 1);
      forall x | x in ActionsAfter(j, m, r, k - 1)
        ensures Rank(x.kind) < Rank(Sweep) || (x.kind == Sweep && x.hash < j.candidates[k - 1].blob.hash)
      {
        ActionIsFrom(j, m, r, k - 1, x);
      }
      var c := j.candidates[k - 1];
      OrderedAppend(ActionsAfter(j, m, r, k - 1), ActionFor(Sweep, c.blob, Some(c.present)));
    } else if r > 0 {
      ActionsAreOrdered(j, m, r - 1, 0);
      forall x | x in ActionsAfter(j, m, r - 1, 0)
        ensures Rank(x.kind) < Rank(Resurrect) || (x.kind == Resurrect && x.hash < j.resurrections[r - 1].hash)
      {
        ActionIsFrom(j, m, r - 1, 0, x);
      }
      OrderedAppend(ActionsAfter(j, m, r - 1, 0), ActionFor(Resurrect, j.resurrections[r - 1], None));
    } else if m > 0 {
      ActionsAreOrdered(j, m - 1, 0, 0);
      forall x | x in ActionsAfter(j, m - 1, 0, 0)
        ensures x.kind == Mark && x.hash < j.marks[m - 1].hash
      {
        ActionIsFrom(j, m - 1, 0, 0, x);
      }
      OrderedAppend(ActionsAfter(j, m - 1, 0, 0), ActionFor(Mark, j.marks[m - 1], None));
    }
  }

  lemma ActionIsFrom(j: Job, m: nat, r: nat, k: nat, a: Action)
    requires m <= |j.marks| && r <= |j.resurrections| && k <= |j.candidates|
    requires a in ActionsAfter(j, m, r, k)
    ensures a.kind != Unchanged
    ensures a.kind == Mark ==> exists i :: 0 <= i < m && j.marks[i].hash == a.hash
    ensures a.kind == Resurrect ==> exists i :: 0 <= i < r && j.resurrections[i].hash == a.hash
    ensures a.kind == Sweep ==> exists i :: 0 <= i < k && j.candidates[i].blob.hash == a.hash
  {
    ActedAfter(j, m, r, k, a.hash);
    assert Acted(ActionsAfter(j, m, r, k), a.kind, a.hash);
  }

  /** A dry run and a real run that completes report the same actions, in the same documented
      order, and the same bytes. */
  lemma DryRunIsTheRealRun(j: Job, events: seq<Event>)
    requires WellPlanned(j) && After(j, events).stage == Ended(Complete)
    ensures var s := After(j, events);
      && s.report.actions == ActionsAfter(j, |j.marks|, |j.resurrections|, |j.candidates|)
      && Ordered(s.report.actions)
      && s.report.completed.reclaimed == s.report.bytesUnlinked == Reclaimable(j.candidates)
      && s.report.completed.marks == |j.marks| && s.report.completed.resurrections == |j.resurrections|
      && s.report.completed.sweeps == |j.candidates|
  {
    AfterFits(j, events);
    CompleteReport(j, After(j, events));
    ReportedBytes(j, events);
    ActionsAreOrdered(j, |j.marks|, |j.resurrections|, |j.candidates|);
  }

  lemma CompleteReport(j: Job, s: State)
    requires Inv(j, s) && s.stage == Ended(Complete)
    ensures s.report.actions == ActionsAfter(j, |j.marks|, |j.resurrections|, |j.candidates|)
    ensures s.report.completed.marks == |j.marks| && s.report.completed.resurrections == |j.resurrections|
    ensures s.report.completed.sweeps == |j.candidates|
  {
  }

  // ---------------------------------------------------------------------------
  // The effect of a complete run, without running it
  // ---------------------------------------------------------------------------

  function CollectedRow(t: Tables, h: Hash, now: int): BlobRow
    requires h in t.blobs
  {
    if Referenced(t, h) then t.blobs[h].(marked := None)
    else if t.blobs[h].marked.None? then t.blobs[h].(marked := Some(now))
    else t.blobs[h]
  }

  function CollectedTables(t: Tables, now: int): Tables {
    Tables(map h | h in t.blobs && !Collectable(t, h) :: CollectedRow(t, h, now), t.sources)
  }

  function CollectedFiles(t: Tables, files: Cas): Cas {
    map h | h in files && !Collectable(t, h) :: files[h]
  }

  lemma PlannedHashes(j: Job, h: Hash)
    requires WellPlanned(j)
    ensures h in SweptHashes(j.candidates) ==> Collectable(j.begin, h)
    ensures h in Hashes(j.marks) <==> h in j.begin.blobs && j.begin.blobs[h].marked.None? && !Referenced(j.begin, h)
    ensures h in Hashes(j.resurrections) <==> h in j.begin.blobs && j.begin.blobs[h].marked.Some? && Referenced(j.begin, h)
  {
    if h in j.begin.blobs {
      var b := RowOf(j.begin, h);
      assert b.hash == h;
    }
  }

  lemma CoveredFiles(j: Job, h: Hash)
    requires WellPlanned(j) && Covers(j)
    ensures h in PresentHashes(j.candidates) <==> Collectable(j.begin, h) && h in j.files
  {
    if Collectable(j.begin, h) {
      var c :| c in j.candidates && c.blob.hash == h;
    }
  }

  /** A run that completes deletes exactly the rows that have a candidate and leaves every other
      row as its class says. */
  lemma CompleteRunRows(j: Job, events: seq<Event>, h: Hash)
    requires WellPlanned(j) && After(j, events).stage == Ended(Complete)
    ensures var t := After(j, events).tables;
      && t.sources == j.begin.sources
      && (h in t.blobs <==> h in j.begin.blobs && h !in SweptHashes(j.candidates))
      && (h in t.blobs ==> t.blobs[h] == CollectedRow(j.begin, h, j.now))
  {
    AfterFits(j, events);
    FullPlanRow(j, h);
  }

  lemma FullPlanRow(j: Job, h: Hash)
    requires WellPlanned(j)
    ensures var t := TablesAfter(j, |j.marks|, |j.resurrections|, |j.candidates|);
      && t.sources == j.begin.sources
      && (h in t.blobs <==> h in j.begin.blobs && h !in SweptHashes(j.candidates))
      && (h in t.blobs ==> t.blobs[h] == CollectedRow(j.begin, h, j.now))
  {
    TablesAfterMeaning(j, |j.marks|, |j.resurrections|, |j.candidates|);
    assert j.marks[..|j.marks|] == j.marks && j.resurrections[..|j.resurrections|] == j.resurrections;
    assert j.candidates[..|j.candidates|] == j.candidates;
    PlannedHashes(j, h);
  }

  /** The effect of a run that completes is the one that the classes of the rows say, if and only
      if every collectable row had a candidate. */
  lemma CompleteRunEffect(j: Job, events: seq<Event>)
    requires WellPlanned(j) && After(j, events).stage == Ended(Complete)
    ensures After(j, events).tables == CollectedTables(j.begin, j.now) <==> Covers(j)
    ensures Covers(j) ==> After(j, events).files == CollectedFiles(j.begin, j.files)
  {
    var t, all := After(j, events).tables, CollectedTables(j.begin, j.now);
    forall h
      ensures h in SweptHashes(j.candidates) ==> Collectable(j.begin, h)
      ensures h in t.blobs <==> h in j.begin.blobs && h !in SweptHashes(j.candidates)
      ensures h in t.blobs ==> t.blobs[h] == CollectedRow(j.begin, h, j.now)
    {
      PlannedHashes(j, h);
      CompleteRunRows(j, events, h);
    }
    CompleteRunRows(j, events, 0);
    if Covers(j) {
      assert t.blobs == all.blobs;
      AfterFits(j, events);
      FullPlanFiles(j);
    } else {
      var h :| Collectable(j.begin, h) && h !in SweptHashes(j.candidates);
      assert h in t.blobs && h !in all.blobs;
    }
  }

  lemma FullPlanFiles(j: Job)
    requires WellPlanned(j) && Covers(j)
    ensures FilesAfter(j, |j.candidates|) == CollectedFiles(j.begin, j.files)
  {
    FilesAfterMeaning(j, |j.candidates|);
    assert j.candidates[..|j.candidates|] == j.candidates;
    forall h ensures h in FilesAfter(j, |j.candidates|) <==> h in CollectedFiles(j.begin, j.files) {
      CoveredFiles(j, h);
    }
    assert FilesAfter(j, |j.candidates|) == CollectedFiles(j.begin, j.files);
  }

  // ---------------------------------------------------------------------------
  // Convergence
  // ---------------------------------------------------------------------------

  /** Exactly the referenced blobs, none marked, each with its file and no other file. */
  ghost predicate Settled(t: Tables, files: Cas) {
    && (forall h :: h in t.blobs <==> Referenced(t, h))
    && (forall h :: h in t.blobs ==> t.blobs[h].marked.None?)
    && files.Keys == t.blobs.Keys
  }

  /** Exactly the unreferenced rows are marked. */
  ghost predicate MarksAgree(t: Tables) {
    forall h :: h in t.blobs ==> (t.blobs[h].marked.Some? <==> !Referenced(t, h))
  }

  lemma CompleteRunMarksAgree(j: Job, events: seq<Event>)
    requires WellPlanned(j) && After(j, events).stage == Ended(Complete)
    ensures MarksAgree(After(j, events).tables) && After(j, events).tables.sources == j.begin.sources
  {
    var t := After(j, events).tables;
    CompleteRunRows(j, events, 0);
    forall h | h in t.blobs ensures t.blobs[h].marked.Some? <==> !Referenced(t, h) {
      CompleteRunRows(j, events, h);
      SameReferences(j.begin, t, h);
    }
  }

  /** A clean store whose every row is referenced and unmarked is settled. */
  lemma SettledIff(t: Tables, files: Cas)
    requires Clean(t, files)
    ensures Settled(t, files) <==> forall h :: h in t.blobs ==> Referenced(t, h) && t.blobs[h].marked.None?
  {
    if forall h :: h in t.blobs ==> Referenced(t, h) && t.blobs[h].marked.None? {
      forall h | Referenced(t, h) ensures h in t.blobs {
        var k :| k in t.sources && t.sources[k].hash == h;
      }
    }
  }

  lemma LeftoverIsUncovered(j: Job, events: seq<Event>, h: Hash)
    requires WellPlanned(j) && MarksAgree(j.begin) && After(j, events).stage == Ended(Complete)
    ensures var t := After(j, events).tables;
      h in t.blobs && !Referenced(t, h) <==> Collectable(j.begin, h) && h !in SweptHashes(j.candidates)
  {
    CompleteRunRows(j, events, h);
    SameReferences(j.begin, After(j, events).tables, h);
  }

  /** Two complete collections of a clean store settle it if and only if the second covers its
      plan. The first need not: what it skipped stays marked. */
  lemma TwoCollectionsSettleIff(first: Job, one: seq<Event>, second: Job, two: seq<Event>)
    requires WellPlanned(first) && Clean(first.begin, first.files) && After(first, one).stage == Ended(Complete)
    requires WellPlanned(second) && second.begin == After(first, one).tables && second.files == After(first, one).files
    requires After(second, two).stage == Ended(Complete)
    ensures Settled(After(second, two).tables, After(second, two).files) <==> Covers(second)
  {
    var t := After(second, two).tables;
    CollectionKeepsClean(first, one);
    CollectionKeepsClean(second, two);
    CompleteRunMarksAgree(first, one);
    CompleteRunMarksAgree(second, two);
    SettledIff(t, After(second, two).files);
    forall h
      ensures h in t.blobs && !Referenced(t, h) <==> Collectable(second.begin, h) && h !in SweptHashes(second.candidates)
    {
      LeftoverIsUncovered(second, two, h);
    }
  }

  lemma UnchangedMeans(t: Tables, rows: seq<CatalogBlob>, h: Hash)
    requires Snapshot(t, rows)
    ensures h in t.blobs ==> RowOf(t, h) in rows
    ensures h in t.blobs ==> (Classify(RowOf(t, h)) == Unchanged <==> Referenced(t, h) && t.blobs[h].marked.None?)
  {
  }

  /** The plan of a settled store is empty, and a clean store whose plan is empty is settled. */
  lemma SettledPlansNothing(t: Tables, files: Cas, rows: seq<CatalogBlob>, plan: Plan)
    requires Snapshot(t, rows) && IsPlan(rows, plan)
    ensures Settled(t, files) ==> plan == Plan([], [], [])
    ensures Clean(t, files) && plan == Plan([], [], []) ==> Settled(t, files)
  {
    if Clean(t, files) {
      SettledIff(t, files);
    }
    PlanOfSnapshot(t, rows, plan);
    forall h | h in t.blobs
      ensures RowOf(t, h) in rows
      ensures Classify(RowOf(t, h)) == Unchanged <==> Referenced(t, h) && t.blobs[h].marked.None?
    {
      UnchangedMeans(t, rows, h);
    }
    EmptyPlanIff(rows, plan);
    if plan == Plan([], [], []) {
      forall h | h in t.blobs ensures Classify(RowOf(t, h)) == Unchanged {
        assert RowOf(t, h) in rows;
      }
    }
  }

  lemma EmptyPlanIff(rows: seq<CatalogBlob>, plan: Plan)
    requires IsPlan(rows, plan)
    ensures plan == Plan([], [], []) <==> forall b :: b in rows ==> Classify(b) == Unchanged
  {
    if forall b :: b in rows ==> Classify(b) == Unchanged {
      NothingOfKind(rows, Mark, plan.marks);
      NothingOfKind(rows, Resurrect, plan.resurrections);
      NothingOfKind(rows, Sweep, plan.sweeps);
    }
  }

  lemma NothingOfKind(rows: seq<CatalogBlob>, kind: Kind, part: seq<CatalogBlob>)
    requires IsPart(rows, kind, part) && kind != Unchanged
    requires forall b :: b in rows ==> Classify(b) == Unchanged
    ensures part == []
  {
    PartsAreUnique(rows, kind, part, []);
  }

  /** Recovery. Whatever a collection of a clean store did before it stopped, after two further
      collections that complete the store is settled and a third plans nothing, if and only if
      the second of them covered its plan. */
  lemma RecoveryConverges(broken: Job, accident: seq<Event>, first: Job, one: seq<Event>, second: Job, two: seq<Event>,
                          rows: seq<CatalogBlob>, third: Plan)
    requires WellPlanned(broken) && Clean(broken.begin, broken.files)
    requires WellPlanned(first) && first.begin == After(broken, accident).tables
    requires first.files == After(broken, accident).files
    requires After(first, one).stage == Ended(Complete)
    requires WellPlanned(second) && second.begin == After(first, one).tables && second.files == After(first, one).files
    requires After(second, two).stage == Ended(Complete)
    requires Snapshot(After(second, two).tables, rows) && IsPlan(rows, third)
    ensures Settled(After(second, two).tables, After(second, two).files) <==> Covers(second)
    ensures third == Plan([], [], []) <==> Covers(second)
  {
    CollectionKeepsClean(broken, accident);
    TwoCollectionsSettleIff(first, one, second, two);
    CollectionKeepsClean(first, one);
    CollectionKeepsClean(second, two);
    SettledPlansNothing(After(second, two).tables, After(second, two).files, rows, third);
  }

  lemma QuietJob(t: Tables, files: Cas, rows: seq<CatalogBlob>, plan: Plan, cas: Inspection, io: Io, now: int, cadence: nat)
    requires Clean(t, files) && FaultFree(files, cas, io) && Snapshot(t, rows) && IsPlan(rows, plan)
    ensures var j := PreflightJob(t, files, plan, cas, io, now, cadence); WellPlanned(j) && Covers(j)
  {
    CleanIsQuiet(t, files, rows, plan, cas, io);
    FaultFreeIsTruthful(files, cas, io);
    QuietPreflightPlansWell(t, files, rows, plan, cas, io, now, cadence);
    QuietPreflightCoversIff(t, files, rows, plan, cas, io, now, cadence);
    assert AbsenceConfirmed(plan.sweeps, cas, io);
  }

  lemma FaultFreeIsTruthful(files: Cas, cas: Inspection, io: Io)
    requires FaultFree(files, cas, io)
    ensures Truthful(files, cas, io) && WalkReported(cas)
  {
  }

  lemma CleanStoreHasJob(t: Tables, files: Cas, now: int, cadence: nat) returns (j: Job)
    requires Clean(t, files)
    ensures j.begin == t && j.files == files && j.now == now && j.cadence == cadence && WellPlanned(j) && Covers(j)
  {
    var rows := SnapshotExists(t);
    var plan := PlanExists(rows);
    var cas, io := FaultFreeExists(files);
    QuietJob(t, files, rows, plan, cas, io, now, cadence);
    j := PreflightJob(t, files, plan, cas, io, now, cadence);
  }

  /** Every clean store can be collected: it has a snapshot and a plan, the preflight of a file
      system without errors is quiet and covers the plan, and the run without failures completes
      and leaves the store clean again. */
  lemma CleanStoreCanBeCollected(t: Tables, files: Cas, now: int, cadence: nat) returns (j: Job, events: seq<Event>)
    requires Clean(t, files)
    ensures j.begin == t && j.files == files && j.now == now && j.cadence == cadence
    ensures WellPlanned(j) && Covers(j) && After(j, events).stage == Ended(Complete)
    ensures Clean(After(j, events).tables, After(j, events).files)
  {
    j := CleanStoreHasJob(t, files, now, cadence);
    events := AllGo(Left(j, Start(j).stage));
    FaultFreeRunCompletes(j, Left(j, Start(j).stage));
    CollectionKeepsClean(j, events);
  }

  /** So recovery is always possible: after any interrupted collection of a clean store there are
      two collections that settle it. */
  lemma RecoveryIsPossible(broken: Job, accident: seq<Event>, now: int, later: int, cadence: nat)
    returns (first: Job, one: seq<Event>, second: Job, two: seq<Event>)
    requires WellPlanned(broken) && Clean(broken.begin, broken.files)
    ensures WellPlanned(first) && first.begin == After(broken, accident).tables && first.files == After(broken, accident).files
    ensures WellPlanned(second) && second.begin == After(first, one).tables && second.files == After(first, one).files
    ensures After(first, one).stage == After(second, two).stage == Ended(Complete)
    ensures Settled(After(second, two).tables, After(second, two).files)
  {
    CollectionKeepsClean(broken, accident);
    var s := After(broken, accident);
    first, one := CleanStoreCanBeCollected(s.tables, s.files, now, cadence);
    second, two := CleanStoreCanBeCollected(After(first, one).tables, After(first, one).files, later, cadence);
    var rows := SnapshotExists(After(second, two).tables);
    var third := PlanExists(rows);
    RecoveryConverges(broken, accident, first, one, second, two, rows, third);
  }
}
