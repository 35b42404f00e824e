/** Applying a plan: one catalog transaction that stages marks, resurrections and row deletions,
    interleaved with permanent file removals. Every operation can fail and the process can die
    before any of them. */
module GcApply {
  import opened Domain
  import opened Catalog
  import opened GcPlan

  /** `present` is the sweep source state; other kinds have none. */
  datatype Action = Action(kind: Kind, hash: Hash, size: nat, present: Option<bool>)

  /** The inputs one application starts from. `cadence` is the writer's checkpoint interval. */
  datatype Job = Job(begin: Tables, files: Cas, marks: seq<CatalogBlob>, resurrections: seq<CatalogBlob>,
                     candidates: seq<Candidate>, now: int, cadence: nat)

  datatype Ending = Complete | Incomplete | RollbackFailed | Crashed

  /** The operation about to be attempted. */
  datatype Stage =
    | MarkAt(i: nat)
    | ResurrectAt(i: nat)
    | CheckSweepAt(i: nat)
    | UnlinkAt(i: nat)
    | SyncAt(i: nat)
    | DeleteRowAt(i: nat)
    | CommitAt
    | PartialCommitAt
    | RollbackAt
    | Ended(ending: Ending)

  datatype Progress = Progress(marks: nat, resurrections: nat, sweeps: nat, reclaimed: nat)

  datatype Report = Report(completed: Progress, filesRemoved: nat, bytesUnlinked: nat, actions: seq<Action>)

  /** `physical` counts the candidates whose file-system part is done. */
  datatype State = State(stage: Stage, tables: Tables, staged: Tables, files: Cas, progress: Progress,
                         physical: nat, actions: seq<Action>, started: bool, report: Report)

  /** How the next operation goes. `CheckpointFault` is a commit that succeeds and a checkpoint
      after it that does not. */
  datatype Event = Go | Fault | CheckpointFault | Crash

  function FromSweep(j: Job, i: nat): Stage {
    if i < |j.candidates| then CheckSweepAt(i) else CommitAt
  }

  function FromResurrect(j: Job, i: nat): Stage {
    if i < |j.resurrections| then ResurrectAt(i) else FromSweep(j, 0)
  }

  function FromMark(j: Job, i: nat): Stage {
    if i < |j.marks| then MarkAt(i) else FromResurrect(j, 0)
  }

  predicate InRange(j: Job, stage: Stage) {
    match stage
    case MarkAt(i) => i < |j.marks|
    case ResurrectAt(i) => i < |j.resurrections|
    case CheckSweepAt(i) => i < |j.candidates|
    case UnlinkAt(i) => i < |j.candidates|
    case SyncAt(i) => i < |j.candidates|
    case DeleteRowAt(i) => i < |j.candidates|
    case _ => true
  }

  function Start(j: Job): State {
    var none := Progress(0, 0, 0, 0);
    State(FromMark(j, 0), j.begin, j.begin, j.files, none, 0, [], false, Report(none, 0, 0, []))
  }

  function ActionFor(kind: Kind, b: CatalogBlob, present: Option<bool>): Action {
    Action(kind, b.hash, b.size, present)
  }

  /** Roll back before the first sweep mutation, keep the progress after it. */
  function Abort(s: State): State {
    s.(stage := if s.started then PartialCommitAt else RollbackAt)
  }

  function Discard(s: State, ending: Ending): State {
    s.(stage := Ended(ending), staged := s.tables)
  }

  function Commit(s: State, ending: Ending): State {
    s.(stage := Ended(ending), tables := s.staged,
       report := s.report.(completed := s.progress, actions := s.actions))
  }

  function MarkStep(j: Job, s: State, i: nat, fails: bool): State
    requires i < |j.marks|
  {
    var b := j.marks[i];
    var (t, affected) := GcMark(s.staged, b.hash, b.size, j.now);
    if fails || affected != 1 then Abort(s)
    else s.(stage := FromMark(j, i + 1), staged := t, actions := s.actions + [ActionFor(Mark, b, None)],
            progress := s.progress.(marks := s.progress.marks + 1))
  }

  function ResurrectStep(j: Job, s: State, i: nat, fails: bool): State
    requires i < |j.resurrections|
  {
    var b := j.resurrections[i];
    var (t, affected) := GcResurrect(s.staged, b.hash, b.size);
    if fails || affected != 1 then Abort(s)
    else s.(stage := FromResurrect(j, i + 1), staged := t,
            actions := s.actions + [ActionFor(Resurrect, b, None)],
            progress := s.progress.(resurrections := s.progress.resurrections + 1))
  }

  /** Counters, the identity read by the preflight and its revalidation; for an absent file the
      directory sync as well. */
  function CheckSweepStep(j: Job, s: State, i: nat, fails: bool): State
    requires i < |j.candidates|
  {
    var c := j.candidates[i];
    if fails || (c.present && c.identity.None?) then Abort(s)
    else if c.present then s.(stage := UnlinkAt(i))
    else s.(stage := DeleteRowAt(i), physical := i + 1)
  }

  function UnlinkStep(j: Job, s: State, i: nat, fails: bool): State
    requires i < |j.candidates|
  {
    var b := j.candidates[i].blob;
    if fails then Abort(s)
    else s.(stage := SyncAt(i), files := s.files - {b.hash}, physical := i + 1, started := true,
            report := s.report.(filesRemoved := s.report.filesRemoved + 1,
                                bytesUnlinked := s.report.bytesUnlinked + b.size))
  }

  function DeleteRowStep(j: Job, s: State, i: nat, fails: bool): State
    requires i < |j.candidates|
  {
    var c := j.candidates[i];
    var (t, affected) := GcSweep(s.staged, c.blob.hash, c.blob.size);
    if fails || affected != 1 then Abort(s)
    else s.(stage := FromSweep(j, i + 1), staged := t, started := true,
            actions := s.actions + [ActionFor(Sweep, c.blob, Some(c.present))],
            progress := s.progress.(sweeps := s.progress.sweeps + 1,
                                    reclaimed := s.progress.reclaimed + if c.present then c.blob.size else 0))
  }

  /** The commit answer is lost when a checkpoint follows this very commit and fails. */
  function CommitStep(j: Job, s: State, e: Event, ending: Ending): State {
    if e.Fault? then Discard(s, Incomplete)
    else if e.CheckpointFault? && j.cadence == 1 then s.(stage := Ended(Incomplete), tables := s.staged)
    else Commit(s, ending)
  }

  function Step(j: Job, s: State, e: Event): (s': State)
    requires InRange(j, s.stage)
    ensures InRange(j, s'.stage)
  {
    if s.stage.Ended? then s
    else if e.Crash? then Discard(s, Crashed)
    else match s.stage
    case MarkAt(i) => MarkStep(j, s, i, e.Fault?)
    case ResurrectAt(i) => ResurrectStep(j, s, i, e.Fault?)
    case CheckSweepAt(i) => CheckSweepStep(j, s, i, e.Fault?)
    case UnlinkAt(i) => UnlinkStep(j, s, i, e.Fault?)
    case SyncAt(i) => if e.Fault? then s.(stage := PartialCommitAt) else s.(stage := DeleteRowAt(i))
    case DeleteRowAt(i) => DeleteRowStep(j, s, i, e.Fault?)
    case CommitAt => CommitStep(j, s, e, Complete)
    case PartialCommitAt => CommitStep(j, s, e, Incomplete)
    case RollbackAt => Discard(s, if e.Fault? then RollbackFailed else Incomplete)
    case Ended(_) => s
  }

  function Run(j: Job, s: State, events: seq<Event>): (s': State)
    requires InRange(j, s.stage)
    ensures InRange(j, s'.stage)
    decreases |events|
  {
    if events == [] then s else Run(j, Step(j, s, events[0]), events[1..])
  }

  // ---------------------------------------------------------------------------
  // What every step keeps
  // ---------------------------------------------------------------------------

  function Hashes(bs: seq<CatalogBlob>): set<Hash> {
    set b | b in bs :: b.hash
  }

  function SweptHashes(cs: seq<Candidate>): set<Hash> {
    set c | c in cs :: c.blob.hash
  }

  function PresentHashes(cs: seq<Candidate>): set<Hash> {
    set c | c in cs && c.present :: c.blob.hash
  }

  /** Every collectable row has a candidate. A sweep whose absence was not confirmed has none. */
  ghost predicate Covers(j: Job) {
    forall h :: Collectable(j.begin, h) ==> h in SweptHashes(j.candidates)
  }

  /** The rows a plan for these tables and files may contain. This is what a snapshot, its plan
      and a quiet preflight provide. */
  ghost predicate WellPlanned(j: Job) {
    && (forall b :: b in j.marks <==> b.hash in j.begin.blobs && b == RowOf(j.begin, b.hash) && Classify(b) == Mark)
    && (forall b :: b in j.resurrections <==>
          b.hash in j.begin.blobs && b == RowOf(j.begin, b.hash) && Classify(b) == Resurrect)
    && (forall c :: c in j.candidates ==>
          && c.blob.hash in j.begin.blobs && c.blob == RowOf(j.begin, c.blob.hash) && Classify(c.blob) == Sweep
          && (c.present ==> c.identity.Some? && HasFile(j.files, c.blob.hash, c.blob.size))
          && (!c.present ==> c.identity.None? && c.blob.hash !in j.files))
    && Ascending(j.marks) && Ascending(j.resurrections)
    && (forall a, b :: 0 <= a < b < |j.candidates| ==> j.candidates[a].blob.hash < j.candidates[b].blob.hash)
  }

  function Remark(t: Tables, h: Hash, marked: Option<int>): Tables {
    if h in t.blobs then SetMark(t, h, marked) else t
  }

  /** The tables after the first `m` marks, `r` resurrections and `k` row deletions. */
  function TablesAfter(j: Job, m: nat, r: nat, k: nat): Tables
    requires m <= |j.marks| && r <= |j.resurrections| && k <= |j.candidates|
  {
    if k > 0 then
      var t := TablesAfter(j, m, r, k - 1);
      t.(blobs := t.blobs - {j.candidates[k - 1].blob.hash})
    else if r > 0 then Remark(TablesAfter(j, m, r - 1, 0), j.resurrections[r - 1].hash, None)
    else if m > 0 then Remark(TablesAfter(j, m - 1, 0, 0), j.marks[m - 1].hash, Some(j.now))
    else j.begin
  }

  function ActionsAfter(j: Job, m: nat, r: nat, k: nat): seq<Action>
    requires m <= |j.marks| && r <= |j.resurrections| && k <= |j.candidates|
  {
    if k > 0 then
      var c := j.candidates[k - 1];
      ActionsAfter(j, m, r, k - 1) + [ActionFor(Sweep, c.blob, Some(c.present))]
    else if r > 0 then ActionsAfter(j, m, r - 1, 0) + [ActionFor(Resurrect, j.resurrections[r - 1], None)]
    else if m > 0 then ActionsAfter(j, m - 1, 0, 0) + [ActionFor(Mark, j.marks[m - 1], None)]
    else []
  }

  function FilesAfter(j: Job, k: nat): Cas
    requires k <= |j.candidates|
  {
    if k == 0 then j.files
    else if j.candidates[k - 1].present then FilesAfter(j, k - 1) - {j.candidates[k - 1].blob.hash}
    else FilesAfter(j, k - 1)
  }

  /** How many of the first `k` candidates have a file, and how many bytes those files hold. */
  function FilesGone(j: Job, k: nat): nat
    requires k <= |j.candidates|
  {
    if k == 0 then 0 else FilesGone(j, k - 1) + if j.candidates[k - 1].present then 1 else 0
  }

  function BytesGone(j: Job, k: nat): nat
    requires k <= |j.candidates|
  {
    if k == 0 then 0
    else BytesGone(j, k - 1) + if j.candidates[k - 1].present then j.candidates[k - 1].blob.size else 0
  }

  /** Marks come first, then resurrections, then sweeps. */
  predicate InOrder(j: Job, p: Progress) {
    && p.marks <= |j.marks| && p.resurrections <= |j.resurrections| && p.sweeps <= |j.candidates|
    && (p.resurrections > 0 || p.sweeps > 0 ==> p.marks == |j.marks|)
    && (p.sweeps > 0 ==> p.resurrections == |j.resurrections|)
  }

  predicate StageFits(j: Job, s: State)
    requires InRange(j, s.stage)
  {
    var p := s.progress;
    match s.stage
    case MarkAt(i) => p.marks == i && p.resurrections == p.sweeps == s.physical == 0
    case ResurrectAt(i) => p.marks == |j.marks| && p.resurrections == i && p.sweeps == s.physical == 0
    case CheckSweepAt(i) => AllStaged(j, p) && p.sweeps == s.physical == i
    case UnlinkAt(i) =>
      AllStaged(j, p) && p.sweeps == s.physical == i && j.candidates[i].present
    case SyncAt(i) => AllStaged(j, p) && p.sweeps == i && s.physical == i + 1 && s.started
    case DeleteRowAt(i) =>
      AllStaged(j, p) && p.sweeps == i && s.physical == i + 1 && (j.candidates[i].present ==> s.started)
    case CommitAt => AllStaged(j, p) && p.sweeps == s.physical == |j.candidates|
    case PartialCommitAt => s.started
    case RollbackAt => !s.started
    case Ended(ending) => ending == Complete ==> AllStaged(j, p) && p.sweeps == s.physical == |j.candidates|
  }

  predicate AllStaged(j: Job, p: Progress) {
    p.marks == |j.marks| && p.resurrections == |j.resurrections|
  }

  predicate ReportFits(j: Job, s: State)
    requires s.progress.sweeps <= s.physical <= |j.candidates|
  {
    && s.report.filesRemoved == FilesGone(j, s.physical)
    && s.report.bytesUnlinked == BytesGone(j, s.physical)
    && s.progress.reclaimed == BytesGone(j, s.progress.sweeps)
    && (!s.stage.Ended? ==> s.report.completed == Progress(0, 0, 0, 0) && s.report.actions == [])
  }

  /** What the transaction and the files hold. */
  predicate DataFits(j: Job, s: State)
    requires InOrder(j, s.progress) && s.physical <= |j.candidates|
  {
    var p := s.progress;
    && s.files == FilesAfter(j, s.physical)
    && (!s.started ==> p.sweeps == 0 && FilesGone(j, s.physical) == 0)
    && s.actions == ActionsAfter(j, p.marks, p.resurrections, p.sweeps)
    && (!s.stage.Ended? ==> s.tables == j.begin && s.staged == TablesAfter(j, p.marks, p.resurrections, p.sweeps))
  }

  /** A finished run either committed everything staged or left the tables alone. `committed`
      says which, and whether the report tells. */
  predicate EndFits(j: Job, s: State)
    requires InOrder(j, s.progress) && s.stage.Ended?
  {
    var p := s.progress;
    || (&& s.tables == j.begin && s.report.completed == Progress(0, 0, 0, 0) && s.report.actions == []
        && s.stage.ending != Complete)
    || (&& s.tables == TablesAfter(j, p.marks, p.resurrections, p.sweeps)
        && s.report.completed == p && s.report.actions == s.actions
        && (s.stage.ending == Complete || (s.started && s.stage.ending == Incomplete)))
    || (&& s.tables == TablesAfter(j, p.marks, p.resurrections, p.sweeps) && j.cadence == 1
        && s.report.completed == Progress(0, 0, 0, 0) && s.report.actions == []
        && s.stage.ending == Incomplete && (s.started || (AllStaged(j, p) && p.sweeps == |j.candidates|)))
  }

  predicate Inv(j: Job, s: State) {
    && InRange(j, s.stage)
    && InOrder(j, s.progress)
    && s.progress.sweeps <= s.physical <= |j.candidates|
    && s.physical <= s.progress.sweeps + 1
    && StageFits(j, s)
    && ReportFits(j, s)
    && DataFits(j, s)
    && (s.stage.Ended? ==> EndFits(j, s))
  }

  lemma StartFits(j: Job)
    ensures Inv(j, Start(j))
  {
  }

  lemma TakeHashes(bs: seq<CatalogBlob>, i: nat)
    requires i < |bs|
    ensures Hashes(bs[..i + 1]) == Hashes(bs[..i]) + {bs[i].hash}
  {
    assert bs[..i + 1] == bs[..i] + [bs[i]];
  }

  lemma TakeCandidates(cs: seq<Candidate>, i: nat)
    requires i < |cs|
    ensures SweptHashes(cs[..i + 1]) == SweptHashes(cs[..i]) + {cs[i].blob.hash}
    ensures PresentHashes(cs[..i + 1]) == PresentHashes(cs[..i]) + if cs[i].present then {cs[i].blob.hash} else {}
  {
    assert cs[..i + 1] == cs[..i] + [cs[i]];
  }

  function RowAfter(j: Job, m: nat, r: nat, h: Hash): BlobRow
    requires h in j.begin.blobs && m <= |j.marks| && r <= |j.resurrections|
  {
    if h in Hashes(j.resurrections[..r]) then j.begin.blobs[h].(marked := None)
    else if h in Hashes(j.marks[..m]) then j.begin.blobs[h].(marked := Some(j.now))
    else j.begin.blobs[h]
  }

  /** Row by row: which rows are left and what each of them says. */
  lemma {:induction false} TablesAfterMeaning(j: Job, m: nat, r: nat, k: nat)
    requires m <= |j.marks| && r <= |j.resurrections| && k <= |j.candidates|
    ensures var t := TablesAfter(j, m, r, k);
      && t.sources == j.begin.sources
      && t.blobs.Keys == j.begin.blobs.Keys - SweptHashes(j.candidates[..k])
      && forall h :: h in t.blobs ==> t.blobs[h] == RowAfter(j, m, r, h)
  {
    if k > 0 {
      TablesAfterMeaning(j, m, r, k - 1);
      TakeCandidates(j.candidates, k - 1);
    } else if r > 0 {
      TablesAfterMeaning(j, m, r - 1, 0);
      TakeHashes(j.resurrections, r - 1);
    } else if m > 0 {
      TablesAfterMeaning(j, m - 1, 0, 0);
      TakeHashes(j.marks, m - 1);
    }
  }

  /** The files left are all but the present candidates among the first `k`. */
  lemma {:induction false} FilesAfterMeaning(j: Job, k: nat)
    requires k <= |j.candidates|
    ensures FilesAfter(j, k) == j.files - PresentHashes(j.candidates[..k])
  {
    if k == 0 {
      assert j.files - PresentHashes(j.candidates[..k]) == j.files;
    } else {
      FilesAfterMeaning(j, k - 1);
      TakeCandidates(j.candidates, k - 1);
      assert FilesAfter(j, k) == j.files - PresentHashes(j.candidates[..k]);
    }
  }

  lemma SameReferences(t: Tables, u: Tables, h: Hash)
    requires t.sources == u.sources
    ensures Referenced(t, h) == Referenced(u, h)
  {
  }

  /** The next planned mark affects exactly one row. */
  lemma MarkAffectsOne(j: Job, i: nat)
    requires WellPlanned(j) && i < |j.marks|
    ensures GcMark(TablesAfter(j, i, 0, 0), j.marks[i].hash, j.marks[i].size, j.now)
         == (TablesAfter(j, i + 1, 0, 0), 1)
  {
    var b, t := j.marks[i], TablesAfter(j, i, 0, 0);
    assert b in j.marks;
    TablesAfterMeaning(j, i, 0, 0);
    SameReferences(t, j.begin, b.hash);
    assert b.hash !in Hashes(j.marks[..i]);
  }

  /** So does the next planned resurrection, after all marks. */
  lemma ResurrectAffectsOne(j: Job, i: nat)
    requires WellPlanned(j) && i < |j.resurrections|
    ensures GcResurrect(TablesAfter(j, |j.marks|, i, 0), j.resurrections[i].hash, j.resurrections[i].size)
         == (TablesAfter(j, |j.marks|, i + 1, 0), 1)
  {
    var b, t := j.resurrections[i], TablesAfter(j, |j.marks|, i, 0);
    assert b in j.resurrections;
    TablesAfterMeaning(j, |j.marks|, i, 0);
    SameReferences(t, j.begin, b.hash);
    assert b.hash !in Hashes(j.resurrections[..i]) && b.hash !in Hashes(j.marks[..|j.marks|]);
  }

  lemma CandidateFacts(j: Job, i: nat)
    requires WellPlanned(j) && i < |j.candidates|
    ensures var b := j.candidates[i].blob;
      && b.hash in j.begin.blobs && b.size == j.begin.blobs[b.hash].size
      && j.begin.blobs[b.hash].marked.Some? && !Referenced(j.begin, b.hash)
      && b.hash !in Hashes(j.marks[..|j.marks|]) && b.hash !in Hashes(j.resurrections[..|j.resurrections|])
      && b.hash !in SweptHashes(j.candidates[..i])
  {
    assert j.candidates[i] in j.candidates;
  }

  /** And so does the next planned row deletion, after all of both. */
  lemma SweepAffectsOne(j: Job, i: nat)
    requires WellPlanned(j) && i < |j.candidates|
    ensures var b := j.candidates[i].blob;
      GcSweep(TablesAfter(j, |j.marks|, |j.resurrections|, i), b.hash, b.size)
      == (TablesAfter(j, |j.marks|, |j.resurrections|, i + 1), 1)
  {
    CandidateFacts(j, i);
    TablesAfterMeaning(j, |j.marks|, |j.resurrections|, i);
    SameReferences(TablesAfter(j, |j.marks|, |j.resurrections|, i), j.begin, j.candidates[i].blob.hash);
  }

  lemma AbortKeepsInv(j: Job, s: State)
    requires Inv(j, s) && !s.stage.Ended?
    ensures Inv(j, Abort(s))
  {
  }

  lemma DiscardKeepsInv(j: Job, s: State, ending: Ending)
    requires Inv(j, s) && !s.stage.Ended? && ending != Complete
    ensures Inv(j, Discard(s, ending))
  {
  }

  lemma CommitStepKeepsInv(j: Job, s: State, e: Event)
    requires Inv(j, s)
    ensures s.stage.CommitAt? ==> Inv(j, CommitStep(j, s, e, Complete))
    ensures s.stage.PartialCommitAt? ==> Inv(j, CommitStep(j, s, e, Incomplete))
  {
  }

  lemma MarkStepKeepsInv(j: Job, s: State, fails: bool)
    requires WellPlanned(j) && Inv(j, s) && s.stage.MarkAt?
    ensures Inv(j, MarkStep(j, s, s.stage.i, fails))
  {
    MarkAffectsOne(j, s.stage.i);
    AbortKeepsInv(j, s);
  }

  lemma ResurrectStepKeepsInv(j: Job, s: State, fails: bool)
    requires WellPlanned(j) && Inv(j, s) && s.stage.ResurrectAt?
    ensures Inv(j, ResurrectStep(j, s, s.stage.i, fails))
  {
    ResurrectAffectsOne(j, s.stage.i);
    AbortKeepsInv(j, s);
  }

  lemma CheckSweepStepKeepsInv(j: Job, s: State, fails: bool)
    requires Inv(j, s) && s.stage.CheckSweepAt?
    ensures Inv(j, CheckSweepStep(j, s, s.stage.i, fails))
  {
    AbortKeepsInv(j, s);
  }

  lemma UnlinkStepKeepsInv(j: Job, s: State, fails: bool)
    requires Inv(j, s) && s.stage.UnlinkAt?
    ensures Inv(j, UnlinkStep(j, s, s.stage.i, fails))
  {
    AbortKeepsInv(j, s);
  }

  lemma DeleteRowStepKeepsInv(j: Job, s: State, fails: bool)
    requires Inv(j, s) && s.stage.DeleteRowAt?
    requires var b := j.candidates[s.stage.i].blob;
      GcSweep(s.staged, b.hash, b.size) == (TablesAfter(j, |j.marks|, |j.resurrections|, s.stage.i + 1), 1)
    ensures Inv(j, DeleteRowStep(j, s, s.stage.i, fails))
  {
    if fails {
      AbortKeepsInv(j, s);
    } else {
      var s' := DeleteRowStep(j, s, s.stage.i, fails);
      assert s'.staged == TablesAfter(j, |j.marks|, |j.resurrections|, s.stage.i + 1);
    }
  }

  lemma PlannedDeleteKeepsInv(j: Job, s: State, fails: bool)
    requires WellPlanned(j) && Inv(j, s) && s.stage.DeleteRowAt?
    ensures Inv(j, DeleteRowStep(j, s, s.stage.i, fails))
  {
    SweepAffectsOne(j, s.stage.i);
    DeleteRowStepKeepsInv(j, s, fails);
  }

  lemma StepKeepsInv(j: Job, s: State, e: Event)
    requires WellPlanned(j) && Inv(j, s)
    ensures Inv(j, Step(j, s, e))
  {
    if !s.stage.Ended? && e.Crash? {
      DiscardKeepsInv(j, s, Crashed);
    } else {
      match s.stage {
        case MarkAt(i) => MarkStepKeepsInv(j, s, e.Fault?);
        case ResurrectAt(i) => ResurrectStepKeepsInv(j, s, e.Fault?);
        case CheckSweepAt(i) => CheckSweepStepKeepsInv(j, s, e.Fault?);
        case UnlinkAt(i) => UnlinkStepKeepsInv(j, s, e.Fault?);
        case DeleteRowAt(i) => PlannedDeleteKeepsInv(j, s, e.Fault?);
        case CommitAt => CommitStepKeepsInv(j, s, e);
        case PartialCommitAt => CommitStepKeepsInv(j, s, e);
        case RollbackAt => DiscardKeepsInv(j, s, if e.Fault? then RollbackFailed else Incomplete);
        case _ =>
      }
    }
  }

  lemma {:induction false} RunKeepsInv(j: Job, s: State, events: seq<Event>)
    requires WellPlanned(j) && Inv(j, s)
    ensures Inv(j, Run(j, s, events))
    decreases |events|
  {
    if events != [] {
      StepKeepsInv(j, s, events[0]);
      RunKeepsInv(j, Step(j, s, events[0]), events[1..]);
    }
  }

  /** The state after any sequence of successes, failures and crashes. */
  function After(j: Job, events: seq<Event>): State {
    Run(j, Start(j), events)
  }

  lemma AfterFits(j: Job, events: seq<Event>)
    requires WellPlanned(j)
    ensures Inv(j, After(j, events))
  {
    StartFits(j);
    RunKeepsInv(j, Start(j), events);
  }
}
