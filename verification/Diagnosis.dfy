/** What the findings of an audit and of a preflight say about the store, category by category. */
module Diagnosis {
  import opened Domain
  import opened Catalog
  import opened GcPlan
  import opened Audit

  // ---------------------------------------------------------------------------
  // Where findings come from
  // ---------------------------------------------------------------------------

  lemma {:induction false} RowFindingsFrom(rows: seq<CatalogBlob>, cas: Inspection, io: Io, f: Finding)
    ensures f in AllRowFindings(rows, cas, io) <==> exists b :: b in rows && f in FindingsOfRow(b, cas, io)
  {
    if rows != [] {
      var n := |rows| - 1;
      RowFindingsFrom(rows[..n], cas, io, f);
      assert rows == rows[..n] + [rows[n]];
    }
  }

  lemma {:induction false} SweepFindingsFrom(sweeps: seq<CatalogBlob>, cas: Inspection, io: Io, f: Finding)
    ensures f in AllSweepFindings(sweeps, cas, io) <==> exists b :: b in sweeps && f in FindingsOfSweep(b, cas, io)
  {
    if sweeps != [] {
      var n := |sweeps| - 1;
      SweepFindingsFrom(sweeps[..n], cas, io, f);
      assert sweeps == sweeps[..n] + [sweeps[n]];
    }
  }

  lemma RowFindingNames(b: CatalogBlob, cas: Inspection, io: Io, f: Finding)
    requires f in FindingsOfRow(b, cas, io) || f in FindingsOfSweep(b, cas, io)
    ensures f.AtBlob? && f.hash == b.hash
  {
  }

  /** In a snapshot, the findings of rows that name a hash come from the row of that hash. */
  lemma RowFindingsOfHash(t: Tables, rows: seq<CatalogBlob>, cas: Inspection, io: Io, f: Finding)
    requires Snapshot(t, rows)
    ensures f in AllRowFindings(rows, cas, io) <==>
      f.AtBlob? && f.hash in t.blobs && f in FindingsOfRow(RowOf(t, f.hash), cas, io)
  {
    RowFindingsFrom(rows, cas, io, f);
    if f in AllRowFindings(rows, cas, io) {
      var b :| b in rows && f in FindingsOfRow(b, cas, io);
      RowFindingNames(b, cas, io, f);
      assert b == RowOf(t, b.hash);
    }
  }

  lemma SweepsOfPlan(t: Tables, rows: seq<CatalogBlob>, plan: Plan, b: CatalogBlob)
    requires Snapshot(t, rows) && IsPlan(rows, plan)
    ensures b in plan.sweeps <==> Collectable(t, b.hash) && b == RowOf(t, b.hash)
  {
  }

  lemma SweepFindingsOfHash(t: Tables, rows: seq<CatalogBlob>, plan: Plan, cas: Inspection, io: Io, f: Finding)
    requires Snapshot(t, rows) && IsPlan(rows, plan)
    ensures f in AllSweepFindings(plan.sweeps, cas, io) <==>
      f.AtBlob? && Collectable(t, f.hash) && f in FindingsOfSweep(RowOf(t, f.hash), cas, io)
  {
    SweepFindingsFrom(plan.sweeps, cas, io, f);
    if f in AllSweepFindings(plan.sweeps, cas, io) {
      var b :| b in plan.sweeps && f in FindingsOfSweep(b, cas, io);
      RowFindingNames(b, cas, io, f);
      SweepsOfPlan(t, rows, plan, b);
    }
    if f.AtBlob? && Collectable(t, f.hash) {
      SweepsOfPlan(t, rows, plan, RowOf(t, f.hash));
    }
  }

  lemma AuditFindingOfHash(t: Tables, rows: seq<CatalogBlob>, cas: Inspection, io: Io, f: Finding)
    requires Snapshot(t, rows)
    ensures f in KeyFindings(KnownHashes(rows) + cas.valid, rows, cas, io) <==>
      && f.AtBlob? && (f.hash in t.blobs || f.hash in cas.valid)
      && f in FindingsOfKey(f.hash, if f.hash in t.blobs then Some(RowOf(t, f.hash)) else None, cas, io)
  {
    if f.AtBlob? {
      RowForSnapshot(t, rows, f.hash);
    }
  }

  // ---------------------------------------------------------------------------
  // Without I/O errors
  // ---------------------------------------------------------------------------

  /** What can be wrong with a hash: a file without a row, a file and a row of different sizes, a
      file whose content is not what its name says, a row without a file. */
  predicate Stray(t: Tables, files: Cas, h: Hash) {
    h in files && h !in t.blobs
  }

  predicate SizesDiffer(t: Tables, files: Cas, h: Hash) {
    h in files && h in t.blobs && files[h].size != t.blobs[h].size
  }

  predicate Corrupt(files: Cas, h: Hash) {
    h in files && files[h].digest != h
  }

  predicate Lacking(t: Tables, files: Cas, h: Hash) {
    h in t.blobs && h !in files
  }

  /** What an audit has to report. */
  predicate AuditReports(t: Tables, files: Cas, f: Finding) {
    f.AtBlob? &&
    match f.category
    case OrphanBlob => Stray(t, files, f.hash)
    case MissingBlob => Lacking(t, files, f.hash)
    case SizeMismatch => SizesDiffer(t, files, f.hash)
    case HashMismatch => Corrupt(files, f.hash)
    case _ => false
  }

  /** Without I/O errors the audit reports exactly the strays, the missing files, the wrong sizes
      and the corrupt files, each under its own category. */
  lemma AuditDiagnoses(t: Tables, files: Cas, rows: seq<CatalogBlob>, cas: Inspection, io: Io, f: Finding)
    requires Snapshot(t, rows) && FaultFree(files, cas, io)
    ensures f in AuditFindings(rows, {}, cas, io) <==> AuditReports(t, files, f)
  {
    AuditFindingOfHash(t, rows, cas, io, f);
  }

  /** What a preflight has to report: rows already waiting to be collected may lack their file,
      and only their files are read. */
  predicate PreflightReports(t: Tables, files: Cas, f: Finding) {
    f.AtBlob? &&
    match f.category
    case OrphanBlob => Stray(t, files, f.hash)
    case MissingBlob => Lacking(t, files, f.hash) && !Collectable(t, f.hash)
    case SizeMismatch => SizesDiffer(t, files, f.hash)
    case HashMismatch => Corrupt(files, f.hash) && Collectable(t, f.hash)
    case _ => false
  }

  lemma OrphansAre(t: Tables, files: Cas, rows: seq<CatalogBlob>, cas: Inspection, io: Io, f: Finding)
    requires Snapshot(t, rows) && FaultFree(files, cas, io)
    ensures f in Orphans(cas, KnownHashes(rows)) <==> f.AtBlob? && f.category.OrphanBlob? && Stray(t, files, f.hash)
  {
    forall h ensures h in KnownHashes(rows) <==> h in t.blobs {
      RowForSnapshot(t, rows, h);
    }
  }

  lemma RowDiagnosis(t: Tables, files: Cas, cas: Inspection, io: Io, category: Category, h: Hash)
    requires FaultFree(files, cas, io) && h in t.blobs
    ensures AtBlob(category, h) in FindingsOfRow(RowOf(t, h), cas, io) <==>
      || (category.MissingBlob? && Lacking(t, files, h) && !Collectable(t, h))
      || (category.SizeMismatch? && SizesDiffer(t, files, h))
    ensures AtBlob(category, h) in FindingsOfSweep(RowOf(t, h), cas, io) <==>
      || (category.HashMismatch? && Corrupt(files, h))
      || (category.SizeMismatch? && SizesDiffer(t, files, h))
  {
  }

  /** Without I/O errors the preflight reports exactly these. */
  lemma PreflightDiagnoses(t: Tables, files: Cas, rows: seq<CatalogBlob>, plan: Plan, cas: Inspection, io: Io, f: Finding)
    requires Snapshot(t, rows) && IsPlan(rows, plan) && FaultFree(files, cas, io)
    ensures f in PreflightFindings(rows, plan.sweeps, {}, cas, io) <==> PreflightReports(t, files, f)
  {
    RowFindingsOfHash(t, rows, cas, io, f);
    SweepFindingsOfHash(t, rows, plan, cas, io, f);
    OrphansAre(t, files, rows, cas, io, f);
    if f.AtBlob? && f.hash in t.blobs {
      RowDiagnosis(t, files, cas, io, f.category, f.hash);
    }
  }

  // ---------------------------------------------------------------------------
  // With I/O errors
  // ---------------------------------------------------------------------------

  /** Some answer about this hash was an error. */
  predicate AnswerFailed(h: Hash, cas: Inspection, io: Io) {
    io.stat(h).StatFailed? || (h in cas.valid && !io.read(h).ReadAll?)
  }

  /** When calls may fail the audit still accuses truly, with one exception: a row is reported
      missing although its file is there exactly when an incomplete walk did not list the file
      and the stat then found it. */
  lemma AuditAccusesTruly(t: Tables, files: Cas, rows: seq<CatalogBlob>, cas: Inspection, io: Io, f: Finding)
    requires Snapshot(t, rows) && Truthful(files, cas, io)
    requires f in AuditFindings(rows, {}, cas, io) && f !in cas.findings
    ensures f.AtBlob?
    ensures match f.category
      case OrphanBlob => Stray(t, files, f.hash)
      case SizeMismatch => SizesDiffer(t, files, f.hash)
      case HashMismatch => Corrupt(files, f.hash)
      case NonRegularBlob => Lacking(t, files, f.hash)
      case MissingBlob => f.hash in t.blobs && (f.hash in files <==> io.stat(f.hash).RegularFile?)
      case BlobIoError => AnswerFailed(f.hash, cas, io)
      case _ => false
    ensures f.category.MissingBlob? && f.hash in files ==> !cas.complete
  {
    AuditFindingOfHash(t, rows, cas, io, f);
  }

  /** The preflight has no such exception. */
  lemma PreflightAccusesTruly(t: Tables, files: Cas, rows: seq<CatalogBlob>, plan: Plan, cas: Inspection, io: Io, f: Finding)
    requires Snapshot(t, rows) && IsPlan(rows, plan) && Truthful(files, cas, io)
    requires f in PreflightFindings(rows, plan.sweeps, {}, cas, io) && f !in cas.findings
    ensures f.AtBlob?
    ensures match f.category
      case OrphanBlob => Stray(t, files, f.hash)
      case SizeMismatch => SizesDiffer(t, files, f.hash)
      case HashMismatch => Corrupt(files, f.hash) && Collectable(t, f.hash)
      case NonRegularBlob => Lacking(t, files, f.hash)
      case MissingBlob => Lacking(t, files, f.hash) && !Collectable(t, f.hash)
      case BlobIoError => AnswerFailed(f.hash, cas, io)
      case _ => false
  {
    RowFindingsOfHash(t, rows, cas, io, f);
    SweepFindingsOfHash(t, rows, plan, cas, io, f);
    if f in Orphans(cas, KnownHashes(rows)) {
      RowForSnapshot(t, rows, f.hash);
    }
  }

  /** The exception occurs: an incomplete walk, a file that is there, and a missing blob reported. */
  lemma AuditMayCallPresentMissing()
    returns (t: Tables, files: Cas, rows: seq<CatalogBlob>, cas: Inspection, io: Io)
    ensures Snapshot(t, rows) && Truthful(files, cas, io) && WalkReported(cas)
    ensures AtBlob(MissingBlob, 7) in AuditFindings(rows, {}, cas, io) && 7 in files
  {
    t, files := Tables(map[7 := BlobRow(0, None)], map[]), map[7 := File(0, 7)];
    assert RowOf(t, 7) == CatalogBlob(7, 0, false, false);
    rows := [RowOf(t, 7)];
    cas := Inspection({}, {AtPlace(CasIoError, "")}, false);
    io := Io((h: Hash) => StatOf(files, h), (h: Hash) => ReadOf(files, h), (h: Hash) => StatOf(files, h));
    AuditFindingOfHash(t, rows, cas, io, AtBlob(MissingBlob, 7));
  }

  // ---------------------------------------------------------------------------
  // Reclaimable bytes
  // ---------------------------------------------------------------------------

  /** The sizes of the planned sweeps whose file was listed and read and is what its row says. */
  ghost function IntactBytes(sweeps: seq<CatalogBlob>, files: Cas, cas: Inspection, io: Io): nat {
    if sweeps == [] then 0
    else
      var b := sweeps[|sweeps| - 1];
      IntactBytes(sweeps[..|sweeps| - 1], files, cas, io)
      + if b.hash in cas.valid && io.read(b.hash).ReadAll? && b.hash in files && files[b.hash] == File(b.size, b.hash)
        then b.size else 0
  }

  lemma {:induction false} ReclaimableAppend(cs: seq<Candidate>, more: seq<Candidate>)
    requires |more| <= 1
    ensures Reclaimable(cs + more) == Reclaimable(cs) + if more != [] && more[0].identity.Some? then more[0].blob.size else 0
  {
    if more == [] {
      assert cs + more == cs;
    } else {
      assert (cs + more)[..|cs|] == cs;
    }
  }

  /** The reclaimable bytes of any preflight, quiet or not, are those of the intact sweeps. */
  lemma {:induction false} ReclaimableIsIntact(sweeps: seq<CatalogBlob>, files: Cas, cas: Inspection, io: Io)
    requires Truthful(files, cas, io)
    ensures Reclaimable(AllCandidates(sweeps, cas, io)) == IntactBytes(sweeps, files, cas, io)
  {
    if sweeps != [] {
      var n := |sweeps| - 1;
      ReclaimableIsIntact(sweeps[..n], files, cas, io);
      ReclaimableAppend(AllCandidates(sweeps[..n], cas, io), CandidateOf(sweeps[n], cas, io));
    }
  }
}
