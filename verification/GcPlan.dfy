/** What a collection decides before it changes anything: the plan built from the catalog
    snapshot and the preflight that compares the plan with the store. */
module GcPlan {
  import opened Domain
  import opened Catalog

  /** A row of the reachability snapshot. */
  datatype CatalogBlob = CatalogBlob(hash: Hash, size: nat, marked: bool, referenced: bool)

  function RowOf(t: Tables, h: Hash): CatalogBlob
    requires h in t.blobs
  {
    CatalogBlob(h, t.blobs[h].size, t.blobs[h].marked.Some?, Referenced(t, h))
  }

  ghost predicate Ascending(rows: seq<CatalogBlob>) {
    forall i, j :: 0 <= i < j < |rows| ==> rows[i].hash < rows[j].hash
  }

  /** `rows` is the snapshot of `t`, ordered by hash. */
  ghost predicate Snapshot(t: Tables, rows: seq<CatalogBlob>) {
    && Ascending(rows)
    && (forall i :: 0 <= i < |rows| ==> rows[i].hash in t.blobs && rows[i] == RowOf(t, rows[i].hash))
    && (forall h :: h in t.blobs ==> RowOf(t, h) in rows)
  }

  datatype Kind = Unchanged | Mark | Resurrect | Sweep

  function Classify(b: CatalogBlob): Kind {
    match (b.referenced, b.marked)
    case (true, false) => Unchanged
    case (true, true) => Resurrect
    case (false, false) => Mark
    case (false, true) => Sweep
  }

  datatype Plan = Plan(marks: seq<CatalogBlob>, resurrections: seq<CatalogBlob>, sweeps: seq<CatalogBlob>)

  /** `part` is every row of the given kind, in snapshot order. */
  ghost predicate IsPart(rows: seq<CatalogBlob>, kind: Kind, part: seq<CatalogBlob>) {
    && Ascending(part)
    && (forall b :: b in part <==> b in rows && Classify(b) == kind)
  }

  ghost predicate IsPlan(rows: seq<CatalogBlob>, plan: Plan) {
    && IsPart(rows, Mark, plan.marks)
    && IsPart(rows, Resurrect, plan.resurrections)
    && IsPart(rows, Sweep, plan.sweeps)
  }

  function CountReferenced(rows: seq<CatalogBlob>): nat {
    if rows == [] then 0
    else CountReferenced(rows[..|rows| - 1]) + (if rows[|rows| - 1].referenced then 1 else 0)
  }

  function ReferencedHashes(rows: seq<CatalogBlob>): set<Hash> {
    set b | b in rows && b.referenced :: b.hash
  }

  lemma {:induction false} CountIsSize(rows: seq<CatalogBlob>)
    requires Ascending(rows)
    ensures CountReferenced(rows) == |ReferencedHashes(rows)|
  {
    if rows == [] {
      assert ReferencedHashes(rows) == {};
    } else {
      var n := |rows| - 1;
      CountIsSize(rows[..n]);
      assert rows == rows[..n] + [rows[n]];
      if rows[n].referenced {
        assert ReferencedHashes(rows) == ReferencedHashes(rows[..n]) + {rows[n].hash};
        assert rows[n].hash !in ReferencedHashes(rows[..n]);
      } else {
        assert ReferencedHashes(rows) == ReferencedHashes(rows[..n]);
      }
    }
  }

  /** The reachable counter of a snapshot is the number of blob rows that a source row names. */
  lemma ReachableIsReferenced(t: Tables, rows: seq<CatalogBlob>)
    requires Snapshot(t, rows)
    ensures CountReferenced(rows) == |set h | h in t.blobs && Referenced(t, h)|
  {
    CountIsSize(rows);
    var named := set h | h in t.blobs && Referenced(t, h);
    forall h | h in named ensures h in ReferencedHashes(rows) {
      assert RowOf(t, h) in rows;
    }
    assert ReferencedHashes(rows) == named;
  }

  lemma ExtendPart(rows: seq<CatalogBlob>, i: nat, kind: Kind, part: seq<CatalogBlob>)
    requires Ascending(rows) && i < |rows| && IsPart(rows[..i], kind, part)
    ensures Classify(rows[i]) == kind ==> IsPart(rows[..i + 1], kind, part + [rows[i]])
    ensures Classify(rows[i]) != kind ==> IsPart(rows[..i + 1], kind, part)
  {
    assert rows[..i + 1] == rows[..i] + [rows[i]];
    forall k | 0 <= k < |part| ensures part[k].hash < rows[i].hash {
      assert part[k] in rows[..i];
    }
    assert forall b :: b in part + [rows[i]] <==> b in part || b == rows[i];
  }

  /** The snapshot's rows as the catalog hands them over, keyed by hash. */
  ghost predicate ByHash(valid: map<Hash, CatalogBlob>) {
    forall h :: h in valid ==> valid[h].hash == h
  }

  /** The same rows in hash order. */
  function SortRows(valid: map<Hash, CatalogBlob>): (rows: seq<CatalogBlob>)
    requires ByHash(valid)
    ensures Ascending(rows)
    ensures forall b :: b in rows <==> b.hash in valid && valid[b.hash] == b
    decreases |valid.Keys|
  {
    if valid == map[] then []
    else
      var h := Least(valid.Keys);
      assert (valid - {h}).Keys == valid.Keys - {h};
      var rest := SortRows(valid - {h});
      assert forall i :: 0 <= i < |rest| ==> rest[i] in rest;
      [valid[h]] + rest
  }

  /** Every catalog has a snapshot. */
  lemma SnapshotExists(t: Tables) returns (rows: seq<CatalogBlob>)
    ensures Snapshot(t, rows)
  {
    var valid := map h | h in t.blobs :: RowOf(t, h);
    rows := SortRows(valid);
    forall i | 0 <= i < |rows| ensures rows[i].hash in t.blobs && rows[i] == RowOf(t, rows[i].hash) {
      assert rows[i] in rows;
    }
  }

  /** And every snapshot a plan. */
  lemma {:induction false} PlanExists(rows: seq<CatalogBlob>) returns (plan: Plan)
    requires Ascending(rows)
    ensures IsPlan(rows, plan)
  {
    if rows == [] {
      plan := Plan([], [], []);
    } else {
      var n := |rows| - 1;
      var before := PlanExists(rows[..n]);
      ExtendPart(rows, n, Mark, before.marks);
      ExtendPart(rows, n, Resurrect, before.resurrections);
      ExtendPart(rows, n, Sweep, before.sweeps);
      assert rows[..n + 1] == rows;
      var kind := Classify(rows[n]);
      plan := Plan(if kind == Mark then before.marks + [rows[n]] else before.marks,
                   if kind == Resurrect then before.resurrections + [rows[n]] else before.resurrections,
                   if kind == Sweep then before.sweeps + [rows[n]] else before.sweeps);
    }
  }

  method BuildPlan(valid: map<Hash, CatalogBlob>) returns (rows: seq<CatalogBlob>, plan: Plan, reachable: nat)
    requires ByHash(valid)
    ensures Ascending(rows) && forall b :: b in rows <==> b.hash in valid && valid[b.hash] == b
    ensures IsPlan(rows, plan)
    ensures reachable == CountReferenced(rows)
  {
    rows := SortRows(valid);
    plan, reachable := PlanRows(rows);
  }

  method PlanRows(rows: seq<CatalogBlob>) returns (plan: Plan, reachable: nat)
    requires Ascending(rows)
    ensures IsPlan(rows, plan)
    ensures reachable == CountReferenced(rows)
  {
    var marks, resurrections, sweeps := [], [], [];
    reachable := 0;
    for i := 0 to |rows|
      invariant IsPart(rows[..i], Mark, marks)
      invariant IsPart(rows[..i], Resurrect, resurrections)
      invariant IsPart(rows[..i], Sweep, sweeps)
      invariant reachable == CountReferenced(rows[..i])
    {
      var blob := rows[i];
      ExtendPart(rows, i, Mark, marks);
      ExtendPart(rows, i, Resurrect, resurrections);
      ExtendPart(rows, i, Sweep, sweeps);
      assert rows[..i + 1][..i] == rows[..i];
      if blob.referenced {
        reachable := reachable + 1;
      }
      match Classify(blob) {
        case Unchanged =>
        case Mark => marks := marks + [blob];
        case Resurrect => resurrections := resurrections + [blob];
        case Sweep => sweeps := sweeps + [blob];
      }
    }
    assert rows[..|rows|] == rows;
    plan := Plan(marks, resurrections, sweeps);
  }

  /** A part is determined by the rows and the kind, so a plan is unique. */
  lemma {:induction false} PartsAreUnique(rows: seq<CatalogBlob>, kind: Kind, a: seq<CatalogBlob>, b: seq<CatalogBlob>)
    requires IsPart(rows, kind, a) && IsPart(rows, kind, b)
    ensures a == b
  {
    SameMembers(a, b);
  }

  lemma {:induction false} SameMembers(a: seq<CatalogBlob>, b: seq<CatalogBlob>)
    requires Ascending(a) && Ascending(b)
    requires forall x :: x in a <==> x in b
    ensures a == b
  {
    if a + b != [] {
      var first := (a + b)[0];
      assert first in a && first in b;
      var x, y := a[|a| - 1], b[|b| - 1];
      assert x in b && y in a;
      assert x == y;
      var a', b' := a[..|a| - 1], b[..|b| - 1];
      forall z ensures z in a' <==> z in b' {
        assert a == a' + [x] && b == b' + [x];
        assert z in a <==> z in b;
      }
      SameMembers(a', b');
    }
  }

  // ---------------------------------------------------------------------------
  // Preflight
  // ---------------------------------------------------------------------------

  datatype Category =
    | OrphanBlob | SizeMismatch | HashMismatch | NonRegularBlob | BlobIoError | MissingBlob
    | InvalidCasEntry | CasIoError | CatalogFinding

  /** Findings are reported sorted and without repeats of (category, identity), so a report's
      findings are a set of such pairs. */
  datatype Finding = AtBlob(category: Category, hash: Hash) | AtPlace(category: Category, place: string)

  /** What walking the store's directories returned. */
  datatype Inspection = Inspection(valid: set<Hash>, findings: set<Finding>, complete: bool)

  /** A `symlink_metadata` call on a blob path. */
  datatype Stat = RegularFile(len: nat) | OtherKind | NotFound | StatFailed

  /** Opening and hashing a blob: length of the opened file, then bytes and digest read. */
  datatype ReadBack = ReadAll(len: nat, bytes: nat, digest: Hash) | OpenFailed | ReadFailed

  /** The answers the file system gives during one preflight: to the stat of a row, to opening
      and reading a sweep, and to the second stat of a sweep that the walk did not list. */
  datatype Io = Io(stat: Hash -> Stat, read: Hash -> ReadBack, again: Hash -> Stat)

  /** `identity` is what the preflight read of a present file that matched its row. */
  datatype Candidate = Candidate(blob: CatalogBlob, present: bool, identity: Option<File>)

  function FindingsOfOrphan(h: Hash, known: set<Hash>): set<Finding> {
    if h in known then {} else {AtBlob(OrphanBlob, h)}
  }

  function FindingsOfMissing(b: CatalogBlob, stat: Stat): set<Finding> {
    match stat
    case OtherKind => {AtBlob(NonRegularBlob, b.hash)}
    case RegularFile(_) => {AtBlob(BlobIoError, b.hash)}
    case NotFound => if b.marked && !b.referenced then {} else {AtBlob(MissingBlob, b.hash)}
    case StatFailed => {AtBlob(BlobIoError, b.hash)}
  }

  function FindingsOfRow(b: CatalogBlob, cas: Inspection, io: Io): set<Finding> {
    if b.hash in cas.valid then
      match io.stat(b.hash)
      case RegularFile(len) => if len != b.size then {AtBlob(SizeMismatch, b.hash)} else {}
      case OtherKind => {AtBlob(NonRegularBlob, b.hash)}
      case NotFound => {AtBlob(BlobIoError, b.hash)}
      case StatFailed => {AtBlob(BlobIoError, b.hash)}
    else if cas.complete then FindingsOfMissing(b, io.stat(b.hash))
    else {}
  }

  function SizesMatch(b: CatalogBlob, r: ReadBack): bool
    requires r.ReadAll?
  {
    r.len == b.size && r.bytes == b.size && r.bytes == r.len
  }

  function FindingsOfSweep(b: CatalogBlob, cas: Inspection, io: Io): set<Finding> {
    if b.hash !in cas.valid then {}
    else
      var r := io.read(b.hash);
      if !r.ReadAll? then {AtBlob(BlobIoError, b.hash)}
      else
        (if SizesMatch(b, r) then {} else {AtBlob(SizeMismatch, b.hash)})
        + (if r.digest == b.hash then {} else {AtBlob(HashMismatch, b.hash)})
  }

  function CandidateOf(b: CatalogBlob, cas: Inspection, io: Io): seq<Candidate> {
    if b.hash in cas.valid then
      var r := io.read(b.hash);
      if r.ReadAll? && SizesMatch(b, r) && r.digest == b.hash
      then [Candidate(b, true, Some(File(r.bytes, r.digest)))]
      else [Candidate(b, true, None)]
    else if cas.complete && io.again(b.hash).NotFound? then [Candidate(b, false, None)]
    else []
  }

  function AllRowFindings(rows: seq<CatalogBlob>, cas: Inspection, io: Io): set<Finding> {
    if rows == [] then {}
    else AllRowFindings(rows[..|rows| - 1], cas, io) + FindingsOfRow(rows[|rows| - 1], cas, io)
  }

  function AllSweepFindings(sweeps: seq<CatalogBlob>, cas: Inspection, io: Io): set<Finding> {
    if sweeps == [] then {}
    else AllSweepFindings(sweeps[..|sweeps| - 1], cas, io) + FindingsOfSweep(sweeps[|sweeps| - 1], cas, io)
  }

  function AllCandidates(sweeps: seq<CatalogBlob>, cas: Inspection, io: Io): seq<Candidate> {
    if sweeps == [] then []
    else AllCandidates(sweeps[..|sweeps| - 1], cas, io) + CandidateOf(sweeps[|sweeps| - 1], cas, io)
  }

  function Reclaimable(cs: seq<Candidate>): nat {
    if cs == [] then 0
    else Reclaimable(cs[..|cs| - 1]) + (if cs[|cs| - 1].identity.Some? then cs[|cs| - 1].blob.size else 0)
  }

  function Orphans(cas: Inspection, known: set<Hash>): set<Finding> {
    if cas.complete then set h | h in cas.valid && h !in known :: AtBlob(OrphanBlob, h) else {}
  }

  function KnownHashes(rows: seq<CatalogBlob>): set<Hash> {
    set b | b in rows :: b.hash
  }

  function PreflightFindings(rows: seq<CatalogBlob>, sweeps: seq<CatalogBlob>, catalog: set<Finding>, cas: Inspection, io: Io): set<Finding> {
    catalog + cas.findings + Orphans(cas, KnownHashes(rows)) + AllRowFindings(rows, cas, io)
    + AllSweepFindings(sweeps, cas, io)
  }

  method FindOrphans(cas: Inspection, known: set<Hash>) returns (findings: set<Finding>)
    ensures findings == Orphans(cas, known)
  {
    findings := {};
    if cas.complete {
      var left := cas.valid;
      while left != {}
        invariant left <= cas.valid
        invariant findings == set h | h in cas.valid - left && h !in known :: AtBlob(OrphanBlob, h)
        decreases left
      {
        var h :| h in left;
        findings := findings + FindingsOfOrphan(h, known);
        left := left - {h};
      }
    }
  }

  /** The preflight loops: stray files, then every row, then every planned sweep. */
  method RunPreflight(rows: seq<CatalogBlob>, sweeps: seq<CatalogBlob>, catalog: set<Finding>, cas: Inspection, io: Io)
    returns (findings: set<Finding>, candidates: seq<Candidate>, reclaimable: nat)
    ensures findings == PreflightFindings(rows, sweeps, catalog, cas, io)
    ensures candidates == AllCandidates(sweeps, cas, io)
    ensures reclaimable == Reclaimable(candidates)
  {
    var orphans := FindOrphans(cas, KnownHashes(rows));
    findings := catalog + cas.findings + orphans;
    ghost var stray := findings;
    for i := 0 to |rows|
      invariant findings == stray + AllRowFindings(rows[..i], cas, io)
    {
      assert rows[..i + 1][..i] == rows[..i];
      findings := findings + FindingsOfRow(rows[i], cas, io);
    }
    assert rows[..|rows|] == rows;
    ghost var settled := findings;
    candidates, reclaimable := [], 0;
    for i := 0 to |sweeps|
      invariant findings == settled + AllSweepFindings(sweeps[..i], cas, io)
      invariant candidates == AllCandidates(sweeps[..i], cas, io)
      invariant reclaimable == Reclaimable(candidates)
    {
      assert sweeps[..i + 1][..i] == sweeps[..i];
      findings := findings + FindingsOfSweep(sweeps[i], cas, io);
      var c := CandidateOf(sweeps[i], cas, io);
      if c != [] {
        assert (candidates + c)[..|candidates|] == candidates;
        if c[0].identity.Some? {
          reclaimable := reclaimable + sweeps[i].size;
        }
      }
      assert c == [] ==> candidates + c == candidates;
      candidates := candidates + c;
    }
    assert sweeps[..|sweeps|] == sweeps;
  }

  /** An incomplete walk always carries a finding of its own. */
  ghost predicate WalkReported(cas: Inspection) {
    !cas.complete ==> cas.findings != {}
  }

  lemma {:induction false} QuietRows(rows: seq<CatalogBlob>, cas: Inspection, io: Io, b: CatalogBlob)
    requires AllRowFindings(rows, cas, io) == {} && b in rows
    ensures FindingsOfRow(b, cas, io) == {}
  {
    if b != rows[|rows| - 1] {
      QuietRows(rows[..|rows| - 1], cas, io, b);
    }
  }

  /** Whether the sweep loop makes a candidate of a sweep. */
  predicate HasCandidate(b: CatalogBlob, cas: Inspection, io: Io) {
    b.hash in cas.valid || (cas.complete && io.again(b.hash).NotFound?)
  }

  /** The candidates are the sweeps that have one, in plan order. */
  ghost predicate AreCandidates(sweeps: seq<CatalogBlob>, cas: Inspection, io: Io, cs: seq<Candidate>) {
    && |cs| <= |sweeps|
    && (forall i, j :: 0 <= i < j < |cs| ==> cs[i].blob.hash < cs[j].blob.hash)
    && (forall c :: c in cs ==> c.blob in sweeps && HasCandidate(c.blob, cas, io) && [c] == CandidateOf(c.blob, cas, io))
    && (forall b :: b in sweeps && HasCandidate(b, cas, io) ==> CandidateOf(b, cas, io)[0] in cs)
  }

  lemma {:induction false} CandidatesInOrder(sweeps: seq<CatalogBlob>, cas: Inspection, io: Io)
    requires Ascending(sweeps)
    ensures AreCandidates(sweeps, cas, io, AllCandidates(sweeps, cas, io))
  {
    if sweeps != [] {
      var n := |sweeps| - 1;
      CandidatesInOrder(sweeps[..n], cas, io);
      var before := AllCandidates(sweeps[..n], cas, io);
      assert sweeps == sweeps[..n] + [sweeps[n]];
      if HasCandidate(sweeps[n], cas, io) {
        OneCandidateMore(sweeps[..n], cas, io, before, sweeps[n]);
      } else {
        assert AllCandidates(sweeps, cas, io) == before;
        assert AreCandidates(sweeps, cas, io, before);
      }
    }
  }

  lemma OneCandidateMore(sweeps: seq<CatalogBlob>, cas: Inspection, io: Io, cs: seq<Candidate>, last: CatalogBlob)
    requires AreCandidates(sweeps, cas, io, cs) && HasCandidate(last, cas, io) && forall b :: b in sweeps ==> b.hash < last.hash
    ensures AreCandidates(sweeps + [last], cas, io, cs + CandidateOf(last, cas, io))
  {
    var c := CandidateOf(last, cas, io)[0];
    assert CandidateOf(last, cas, io) == [c] && c.blob == last;
    assert forall x :: x in cs + [c] <==> x in cs || x == c;
    assert forall i :: 0 <= i < |cs| ==> cs[i] in cs;
  }

  /** The second stat of every sweep that the walk did not list says that it is absent. */
  ghost predicate AbsenceConfirmed(sweeps: seq<CatalogBlob>, cas: Inspection, io: Io) {
    forall b :: b in sweeps && b.hash !in cas.valid ==> io.again(b.hash).NotFound?
  }

  /** The planned sweeps and the candidates correspond one to one, in order, exactly when the
      second stat of every sweep that the walk did not list answers that it is absent. A second
      stat that fails drops the sweep without a finding. */
  lemma {:induction false} SweepsMatchIff(sweeps: seq<CatalogBlob>, cas: Inspection, io: Io)
    requires cas.complete
    ensures var cs := AllCandidates(sweeps, cas, io);
      && |cs| <= |sweeps|
      && ((|cs| == |sweeps| && forall i :: 0 <= i < |cs| ==> cs[i].blob == sweeps[i]) <==> AbsenceConfirmed(sweeps, cas, io))
  {
    if sweeps != [] {
      var n := |sweeps| - 1;
      var before, cs := AllCandidates(sweeps[..n], cas, io), AllCandidates(sweeps, cas, io);
      SweepsMatchIff(sweeps[..n], cas, io);
      assert cs == before + CandidateOf(sweeps[n], cas, io);
      assert sweeps == sweeps[..n] + [sweeps[n]];
      if |cs| == |sweeps| && forall i :: 0 <= i < |cs| ==> cs[i].blob == sweeps[i] {
        assert forall i :: 0 <= i < |before| ==> before[i] == cs[i];
      }
    }
  }

  /** Without findings, a listed sweep's candidate carries the identity of its row. */
  lemma {:induction false} QuietSweep(sweeps: seq<CatalogBlob>, cas: Inspection, io: Io, b: CatalogBlob)
    requires AllSweepFindings(sweeps, cas, io) == {} && b in sweeps
    ensures FindingsOfSweep(b, cas, io) == {}
    ensures b.hash in cas.valid ==> CandidateOf(b, cas, io) == [Candidate(b, true, Some(File(b.size, b.hash)))]
  {
    if b != sweeps[|sweeps| - 1] {
      QuietSweep(sweeps[..|sweeps| - 1], cas, io, b);
    }
  }

  ghost predicate AnswersTrue(files: Cas, h: Hash, answer: Stat) {
    match answer
    case RegularFile(len) => h in files && files[h].size == len
    case OtherKind => h !in files
    case NotFound => h !in files
    case StatFailed => true
  }

  /** The answers may be errors, but an answer that is given is true of the store. */
  ghost predicate Truthful(files: Cas, cas: Inspection, io: Io) {
    && (forall h :: h in cas.valid ==> h in files)
    && (cas.complete ==> forall h :: h in files ==> h in cas.valid)
    && (forall h :: AnswersTrue(files, h, io.stat(h)))
    && (forall h :: AnswersTrue(files, h, io.again(h)))
    && (forall h :: io.read(h).ReadAll? ==>
          h in files && io.read(h) == ReadAll(files[h].size, files[h].size, files[h].digest))
  }

  function StatOf(files: Cas, h: Hash): Stat {
    if h in files then RegularFile(files[h].size) else NotFound
  }

  function ReadOf(files: Cas, h: Hash): ReadBack {
    if h in files then ReadAll(files[h].size, files[h].size, files[h].digest) else OpenFailed
  }

  /** Every file is listed, stat'ed and read without an error. */
  ghost predicate FaultFree(files: Cas, cas: Inspection, io: Io) {
    && cas == Inspection(files.Keys, {}, true)
    && (forall h :: io.stat(h) == StatOf(files, h))
    && (forall h :: io.again(h) == StatOf(files, h))
    && (forall h :: io.read(h) == ReadOf(files, h))
  }

  /** The answers of a file system without errors. */
  lemma FaultFreeExists(files: Cas) returns (cas: Inspection, io: Io)
    ensures FaultFree(files, cas, io)
  {
    cas := Inspection(files.Keys, {}, true);
    io := Io((h: Hash) => StatOf(files, h), (h: Hash) => ReadOf(files, h), (h: Hash) => StatOf(files, h));
  }

  /** Nothing in the store blocks a collection now: every file has its row's size, every row
      without a file is collectable, and no file about to be swept is corrupt. */
  ghost predicate Unblocked(t: Tables, files: Cas) {
    && Backed(t, files)
    && (forall h :: h in files ==> h in t.blobs && files[h].size == t.blobs[h].size)
    && (forall h :: h in files && Collectable(t, h) ==> files[h].digest == h)
  }

  /** The store blocks no collection, now or later: no orphan, every file at the size of its row,
      and no corrupt file among those that are or may become candidates. Referenced blobs are
      never hashed by a collection and may be corrupt. */
  ghost predicate Clean(t: Tables, files: Cas) {
    && Durable(t, files)
    && (forall h :: h in files ==> h in t.blobs && files[h].size == t.blobs[h].size)
    && (forall h :: h in files && !Referenced(t, h) ==> files[h].digest == h)
  }

  /** A quiet preflight over a truthful file system proves that the store is sound for this
      collection: nothing stray, every row backed or collectable. */
  lemma QuietMeansSound(t: Tables, files: Cas, rows: seq<CatalogBlob>, sweeps: seq<CatalogBlob>, cas: Inspection, io: Io)
    requires Snapshot(t, rows) && Truthful(files, cas, io) && WalkReported(cas)
    requires PreflightFindings(rows, sweeps, {}, cas, io) == {}
    ensures files.Keys <= t.blobs.Keys && Backed(t, files)
  {
    forall h | h in files ensures h in t.blobs {
      assert AtBlob(OrphanBlob, h) !in Orphans(cas, KnownHashes(rows));
      assert h in KnownHashes(rows);
    }
    forall h | h in t.blobs
      ensures HasFile(files, h, t.blobs[h].size) || (t.blobs[h].marked.Some? && !Referenced(t, h))
    {
      var b := RowOf(t, h);
      QuietRows(rows, cas, io, b);
    }
  }

  lemma {:induction false} RowsAreQuiet(t: Tables, files: Cas, rows: seq<CatalogBlob>, cas: Inspection, io: Io)
    requires Unblocked(t, files) && FaultFree(files, cas, io)
    requires forall b :: b in rows ==> b.hash in t.blobs && b == RowOf(t, b.hash)
    ensures AllRowFindings(rows, cas, io) == {}
  {
    if rows != [] {
      RowsAreQuiet(t, files, rows[..|rows| - 1], cas, io);
      var b := rows[|rows| - 1];
      assert b in rows;
      assert FindingsOfRow(b, cas, io) == {};
    }
  }

  lemma {:induction false} SweepsAreQuiet(t: Tables, files: Cas, sweeps: seq<CatalogBlob>, cas: Inspection, io: Io)
    requires Unblocked(t, files) && FaultFree(files, cas, io)
    requires forall b :: b in sweeps ==> b.hash in t.blobs && b == RowOf(t, b.hash) && Classify(b) == Sweep
    ensures AllSweepFindings(sweeps, cas, io) == {}
  {
    if sweeps != [] {
      SweepsAreQuiet(t, files, sweeps[..|sweeps| - 1], cas, io);
      var b := sweeps[|sweeps| - 1];
      assert b in sweeps;
      assert FindingsOfSweep(b, cas, io) == {};
    }
  }

  lemma UnblockedIsQuiet(t: Tables, files: Cas, rows: seq<CatalogBlob>, plan: Plan, cas: Inspection, io: Io)
    requires Unblocked(t, files) && FaultFree(files, cas, io) && Snapshot(t, rows) && IsPlan(rows, plan)
    ensures PreflightFindings(rows, plan.sweeps, {}, cas, io) == {}
  {
    RowsAreQuiet(t, files, rows, cas, io);
    SweepsAreQuiet(t, files, plan.sweeps, cas, io);
    forall h | h in files ensures h in KnownHashes(rows) {
      assert RowOf(t, h) in rows;
    }
  }

  /** Without I/O errors the preflight is exact: it finds nothing if and only if the store blocks
      no collection. */
  lemma PreflightIsExact(t: Tables, files: Cas, rows: seq<CatalogBlob>, plan: Plan, cas: Inspection, io: Io)
    requires FaultFree(files, cas, io) && Snapshot(t, rows) && IsPlan(rows, plan)
    ensures PreflightFindings(rows, plan.sweeps, {}, cas, io) == {} <==> Unblocked(t, files)
  {
    if Unblocked(t, files) {
      UnblockedIsQuiet(t, files, rows, plan, cas, io);
    }
    if PreflightFindings(rows, plan.sweeps, {}, cas, io) == {} {
      QuietMeansSound(t, files, rows, plan.sweeps, cas, io);
      forall h | h in files ensures files[h].size == t.blobs[h].size && (Collectable(t, h) ==> files[h].digest == h) {
        var b := RowOf(t, h);
        assert b in rows;
        QuietRows(rows, cas, io, b);
        if Collectable(t, h) {
          QuietSweep(plan.sweeps, cas, io, b);
        }
      }
    }
  }

  /** A clean store never blocks a collection. */
  lemma CleanIsQuiet(t: Tables, files: Cas, rows: seq<CatalogBlob>, plan: Plan, cas: Inspection, io: Io)
    requires Clean(t, files) && FaultFree(files, cas, io) && Snapshot(t, rows) && IsPlan(rows, plan)
    ensures PreflightFindings(rows, plan.sweeps, {}, cas, io) == {}
  {
    UnblockedIsQuiet(t, files, rows, plan, cas, io);
  }
}
