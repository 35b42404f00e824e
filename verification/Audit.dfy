/** The read-only audit, and how it relates to the preflight of a collection. */
module Audit {
  import opened Domain
  import opened Catalog
  import opened GcPlan
  import opened GcApply
  import opened GcSafety
  import opened GcConvergence

  function RowFor(rows: seq<CatalogBlob>, h: Hash): Option<CatalogBlob> {
    if rows == [] then None
    else if rows[|rows| - 1].hash == h then Some(rows[|rows| - 1])
    else RowFor(rows[..|rows| - 1], h)
  }

  /** What reconciling one hash of the catalog or of the store finds. */
  function FindingsOfKey(h: Hash, row: Option<CatalogBlob>, cas: Inspection, io: Io): set<Finding> {
    if h !in cas.valid then
      match io.stat(h)
      case OtherKind => {AtBlob(NonRegularBlob, h)}
      case RegularFile(_) => {AtBlob(MissingBlob, h)}
      case NotFound => {AtBlob(MissingBlob, h)}
      case StatFailed => {AtBlob(BlobIoError, h)}
    else
      (if row.None? then {AtBlob(OrphanBlob, h)} else {}) +
      match io.read(h)
      case ReadAll(len, bytes, digest) =>
        var expected := if row.Some? then row.value.size else len;
        (if expected != bytes || len != bytes then {AtBlob(SizeMismatch, h)} else {})
        + (if digest != h then {AtBlob(HashMismatch, h)} else {})
      case OpenFailed => {AtBlob(BlobIoError, h)}
      case ReadFailed => {AtBlob(BlobIoError, h)}
  }

  function KeyFindings(keys: set<Hash>, rows: seq<CatalogBlob>, cas: Inspection, io: Io): set<Finding> {
    set h, f | h in keys && f in FindingsOfKey(h, RowFor(rows, h), cas, io) :: f
  }

  function Hashed(keys: set<Hash>, cas: Inspection, io: Io): set<Hash> {
    set h | h in keys && h in cas.valid && io.read(h).ReadAll?
  }

  function AuditFindings(rows: seq<CatalogBlob>, catalog: set<Finding>, cas: Inspection, io: Io): set<Finding> {
    catalog + cas.findings + KeyFindings(KnownHashes(rows) + cas.valid, rows, cas, io)
  }

  lemma KeyFindingsInclude(keys: set<Hash>, rows: seq<CatalogBlob>, cas: Inspection, io: Io, h: Hash)
    requires h in keys
    ensures FindingsOfKey(h, RowFor(rows, h), cas, io) <= KeyFindings(keys, rows, cas, io)
  {
  }

  lemma OneKeyMore(done: set<Hash>, rows: seq<CatalogBlob>, cas: Inspection, io: Io, h: Hash)
    requires h !in done
    ensures KeyFindings(done + {h}, rows, cas, io) == KeyFindings(done, rows, cas, io) + FindingsOfKey(h, RowFor(rows, h), cas, io)
    ensures |Hashed(done + {h}, cas, io)| == |Hashed(done, cas, io)| + if h in cas.valid && io.read(h).ReadAll? then 1 else 0
  {
    if h in cas.valid && io.read(h).ReadAll? {
      assert Hashed(done + {h}, cas, io) == Hashed(done, cas, io) + {h};
    } else {
      assert Hashed(done + {h}, cas, io) == Hashed(done, cas, io);
    }
  }

  /** The reconciliation loop over the hashes of catalog and store. */
  method AuditStore(rows: seq<CatalogBlob>, catalog: set<Finding>, cas: Inspection, io: Io)
    returns (findings: set<Finding>, hashed: nat)
    ensures findings == AuditFindings(rows, catalog, cas, io)
    ensures hashed == |Hashed(KnownHashes(rows) + cas.valid, cas, io)|
  {
    var keys := KnownHashes(rows) + cas.valid;
    var found: set<Finding> := {};
    hashed := 0;
    var done: set<Hash> := {};
    assert Hashed(done, cas, io) == {};
    while done != keys
      invariant done <= keys && found == KeyFindings(done, rows, cas, io) && hashed == |Hashed(done, cas, io)|
      decreases |keys - done|
    {
      var h :| h in keys - done;
      OneKeyMore(done, rows, cas, io, h);
      found := found + FindingsOfKey(h, RowFor(rows, h), cas, io);
      if h in cas.valid && io.read(h).ReadAll? {
        hashed := hashed + 1;
      }
      assert keys - (done + {h}) == (keys - done) - {h};
      done := done + {h};
    }
    findings := catalog + cas.findings + found;
  }

  lemma {:induction false} RowForKnown(rows: seq<CatalogBlob>, h: Hash)
    ensures h in KnownHashes(rows) ==> RowFor(rows, h).Some? && RowFor(rows, h).value in rows && RowFor(rows, h).value.hash == h
    ensures h !in KnownHashes(rows) ==> RowFor(rows, h).None?
  {
    if rows != [] {
      var n := |rows| - 1;
      RowForKnown(rows[..n], h);
      assert rows == rows[..n] + [rows[n]];
      assert forall b :: b in rows <==> b in rows[..n] || b == rows[n];
      if h in KnownHashes(rows) && rows[n].hash != h {
        var b :| b in rows && b.hash == h;
        assert b in rows[..n];
      }
    }
  }

  lemma RowForSnapshot(t: Tables, rows: seq<CatalogBlob>, h: Hash)
    requires Snapshot(t, rows)
    ensures h in KnownHashes(rows) <==> h in t.blobs
    ensures RowFor(rows, h) == if h in t.blobs then Some(RowOf(t, h)) else None
  {
    RowForKnown(rows, h);
    if h in t.blobs {
      assert RowOf(t, h) in rows;
    }
  }

  /** Every row has its file, every file its row, and contents match names. */
  ghost predicate Spotless(t: Tables, files: Cas) {
    files.Keys == t.blobs.Keys && forall h :: h in files ==> files[h] == File(t.blobs[h].size, h)
  }

  lemma QuietKey(keys: set<Hash>, rows: seq<CatalogBlob>, cas: Inspection, io: Io, h: Hash)
    requires KeyFindings(keys, rows, cas, io) == {} && h in keys
    ensures FindingsOfKey(h, RowFor(rows, h), cas, io) == {}
  {
    KeyFindingsInclude(keys, rows, cas, io, h);
  }

  /** A clean audit means a spotless store, even if some of its reads might have failed. */
  lemma CleanAuditMeansSpotless(t: Tables, files: Cas, rows: seq<CatalogBlob>, cas: Inspection, io: Io)
    requires Snapshot(t, rows) && Truthful(files, cas, io) && WalkReported(cas)
    requires AuditFindings(rows, {}, cas, io) == {}
    ensures Spotless(t, files)
  {
    var keys := KnownHashes(rows) + cas.valid;
    forall h | h in t.blobs ensures h in files && files[h] == File(t.blobs[h].size, h) {
      RowForSnapshot(t, rows, h);
      QuietKey(keys, rows, cas, io, h);
    }
    forall h | h in files ensures h in t.blobs {
      RowForSnapshot(t, rows, h);
      QuietKey(keys, rows, cas, io, h);
    }
  }

  /** Without I/O errors the audit is exact: it is clean if and only if the store is spotless. */
  lemma AuditIsExact(t: Tables, files: Cas, rows: seq<CatalogBlob>, cas: Inspection, io: Io)
    requires Snapshot(t, rows) && FaultFree(files, cas, io)
    ensures AuditFindings(rows, {}, cas, io) == {} <==> Spotless(t, files)
  {
    if AuditFindings(rows, {}, cas, io) == {} {
      CleanAuditMeansSpotless(t, files, rows, cas, io);
    }
    if Spotless(t, files) {
      forall h | h in KnownHashes(rows) + cas.valid ensures FindingsOfKey(h, RowFor(rows, h), cas, io) == {} {
        RowForSnapshot(t, rows, h);
      }
    }
  }

  lemma SpotlessIsClean(t: Tables, files: Cas)
    requires Spotless(t, files) && RowsAgree(t)
    ensures Clean(t, files)
  {
  }

  /** A clean audit clears the way for a collection: on the store the audit saw, the preflight
      finds nothing. */
  lemma CleanAuditClearsPreflight(t: Tables, files: Cas, rows: seq<CatalogBlob>, plan: Plan,
                                  cas: Inspection, io: Io, cas': Inspection, io': Io)
    requires Snapshot(t, rows) && RowsAgree(t) && IsPlan(rows, plan)
    requires Truthful(files, cas, io) && WalkReported(cas) && AuditFindings(rows, {}, cas, io) == {}
    requires FaultFree(files, cas', io')
    ensures PreflightFindings(rows, plan.sweeps, {}, cas', io') == {}
  {
    CleanAuditMeansSpotless(t, files, rows, cas, io);
    SpotlessIsClean(t, files);
    CleanIsQuiet(t, files, rows, plan, cas', io');
  }

  /** A collection that runs to its end keeps the audit clean. */
  lemma CollectionKeepsAuditClean(j: Job, events: seq<Event>, rows: seq<CatalogBlob>, cas: Inspection, io: Io)
    requires WellPlanned(j) && Spotless(j.begin, j.files) && After(j, events).stage == Ended(Complete)
    requires Snapshot(After(j, events).tables, rows) && FaultFree(After(j, events).files, cas, io)
    ensures AuditFindings(rows, {}, cas, io) == {}
  {
    var s := After(j, events);
    CompleteRunStaysSpotless(j, events);
    AuditIsExact(s.tables, s.files, rows, cas, io);
  }

  lemma CompleteRunFiles(j: Job, events: seq<Event>)
    requires WellPlanned(j) && After(j, events).stage == Ended(Complete)
    ensures After(j, events).files == j.files - PresentHashes(j.candidates)
  {
    AfterFits(j, events);
    FilesAfterMeaning(j, |j.candidates|);
    assert j.candidates[..|j.candidates|] == j.candidates;
  }

  lemma SpotlessCandidates(j: Job)
    requires WellPlanned(j) && Spotless(j.begin, j.files)
    ensures PresentHashes(j.candidates) == SweptHashes(j.candidates)
  {
    forall h | h in SweptHashes(j.candidates) ensures h in PresentHashes(j.candidates) {
      var c :| c in j.candidates && c.blob.hash == h;
      assert c.present;
    }
  }

  lemma SpotlessWithout(t: Tables, files: Cas, gone: set<Hash>, t': Tables)
    requires Spotless(t, files)
    requires forall h :: h in t'.blobs <==> h in t.blobs && h !in gone
    requires forall h :: h in t'.blobs ==> t'.blobs[h].size == t.blobs[h].size
    ensures Spotless(t', files - gone)
  {
    assert (files - gone).Keys == t'.blobs.Keys;
  }

  lemma CompleteRunStaysSpotless(j: Job, events: seq<Event>)
    requires WellPlanned(j) && Spotless(j.begin, j.files) && After(j, events).stage == Ended(Complete)
    ensures Spotless(After(j, events).tables, After(j, events).files)
  {
    var t := After(j, events).tables;
    forall h
      ensures h in t.blobs <==> h in j.begin.blobs && h !in SweptHashes(j.candidates)
      ensures h in t.blobs ==> t.blobs[h].size == j.begin.blobs[h].size
    {
      CompleteRunRows(j, events, h);
    }
    CompleteRunFiles(j, events);
    SpotlessCandidates(j);
    SpotlessWithout(j.begin, j.files, SweptHashes(j.candidates), t);
  }

  /** The audit is the stricter of the two: a row whose file an interrupted collection has
      already removed is reported by the audit and tolerated by the preflight. */
  lemma AuditIsStricter(t: Tables, files: Cas, rows: seq<CatalogBlob>, plan: Plan, cas: Inspection, io: Io, h: Hash)
    requires Snapshot(t, rows) && IsPlan(rows, plan) && Clean(t, files) && FaultFree(files, cas, io)
    requires h in t.blobs && h !in files
    ensures AtBlob(MissingBlob, h) in AuditFindings(rows, {}, cas, io)
    ensures PreflightFindings(rows, plan.sweeps, {}, cas, io) == {}
  {
    RowForSnapshot(t, rows, h);
    CleanIsQuiet(t, files, rows, plan, cas, io);
    assert AtBlob(MissingBlob, h) in FindingsOfKey(h, RowFor(rows, h), cas, io);
  }
}
