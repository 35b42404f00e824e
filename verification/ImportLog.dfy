/** What a set of scanned files does to the catalog, whatever order their records arrive in. */
module ImportLog {
  import opened Domain
  import opened Catalog
  import opened Scheduler

  /** Fixed inputs of one import: the scanned files and the store it starts from. */
  datatype Setup = Setup(root: string, metadataSkip: bool, limit: nat, maxOutstanding: nat,
                         tables: Tables, cas: Cas, scan: seq<Candidate>)

  function KeyOf(s: Setup, c: Candidate): SourceKey {
    SourceKey(s.root, c.path)
  }

  // ---------------------------------------------------------------------------
  // Classification
  // ---------------------------------------------------------------------------

  datatype HashReason =
    | MetadataSkippingDisabled | NoCatalogObservation | SizeChanged | ModifiedTimeUnavailable
    | ModifiedTimeChanged | CatalogSourceInconsistency | CasEntryMissingOrInvalid

  datatype Disposition =
    | SkipContent(blobHash: Hash, sizeBytes: nat, resurrectionRequired: bool)
    | HashContent(reason: HashReason)

  /** The joined row a lookup of a source path returns. */
  datatype KnownSource = KnownSource(hash: Hash, sourceSize: nat, mtime: Option<int>, blobSize: nat, marked: bool)

  function Lookup(t: Tables, k: SourceKey): Option<KnownSource> {
    if k in t.sources && t.sources[k].hash in t.blobs then
      var row, blob := t.sources[k], t.blobs[t.sources[k].hash];
      Some(KnownSource(row.hash, row.size, row.mtime, blob.size, blob.marked.Some?))
    else None
  }

  function ClassifyImport(metadataSkip: bool, c: Candidate, known: Option<KnownSource>): Disposition {
    if !metadataSkip then HashContent(MetadataSkippingDisabled)
    else if known.None? then HashContent(NoCatalogObservation)
    else if known.value.sourceSize != c.size then HashContent(SizeChanged)
    else if known.value.mtime.None? || c.mtime.None? then HashContent(ModifiedTimeUnavailable)
    else if known.value.mtime != c.mtime then HashContent(ModifiedTimeChanged)
    else if known.value.blobSize != known.value.sourceSize then HashContent(CatalogSourceInconsistency)
    else SkipContent(known.value.hash, known.value.sourceSize, known.value.marked)
  }

  /** A skip is believed only while the store has the file at its size. */
  function Validated(cas: Cas, d: Disposition): Disposition {
    if d.SkipContent? && !HasFile(cas, d.blobHash, d.sizeBytes) then HashContent(CasEntryMissingOrInvalid) else d
  }

  function Decide(s: Setup, t: Tables, cas: Cas, c: Candidate): Disposition {
    Validated(cas, ClassifyImport(s.metadataSkip, c, Lookup(t, KeyOf(s, c))))
  }

  /** The catalog knows the file unchanged: same size, same known modification time, and a blob
      row of that size. */
  predicate KnownUnchanged(s: Setup, t: Tables, c: Candidate) {
    && s.metadataSkip && KeyOf(s, c) in t.sources
    && var row := t.sources[KeyOf(s, c)];
       && row.size == c.size && row.mtime.Some? && row.mtime == c.mtime
       && row.hash in t.blobs && t.blobs[row.hash].size == c.size
  }

  /** For any catalog and any store: a file is skipped if and only if the catalog knows it
      unchanged and the store holds its blob at its size. When only the blob is missing or has
      another size, that is the reason given for reading the file. */
  lemma DecisionIsExact(s: Setup, t: Tables, cas: Cas, c: Candidate)
    ensures var d, known := Decide(s, t, cas, c), KnownUnchanged(s, t, c);
      && (d.SkipContent? <==> known && HasFile(cas, t.sources[KeyOf(s, c)].hash, c.size))
      && (d == HashContent(CasEntryMissingOrInvalid) <==> known && !HasFile(cas, t.sources[KeyOf(s, c)].hash, c.size))
      && (d.SkipContent? ==>
            var h := t.sources[KeyOf(s, c)].hash;
            d == SkipContent(h, c.size, t.blobs[h].marked.Some?))
  {
  }

  /** What a reason for reading a file claims. */
  predicate ReasonHolds(s: Setup, t: Tables, cas: Cas, c: Candidate, reason: HashReason) {
    var known := Lookup(t, KeyOf(s, c));
    match reason
    case MetadataSkippingDisabled => !s.metadataSkip
    case NoCatalogObservation => KeyOf(s, c) in t.sources ==> t.sources[KeyOf(s, c)].hash !in t.blobs
    case SizeChanged => known.Some? && t.sources[KeyOf(s, c)].size != c.size
    case ModifiedTimeUnavailable => known.Some? && (t.sources[KeyOf(s, c)].mtime.None? || c.mtime.None?)
    case ModifiedTimeChanged =>
      known.Some? && t.sources[KeyOf(s, c)].mtime.Some? && c.mtime.Some? && t.sources[KeyOf(s, c)].mtime != c.mtime
    case CatalogSourceInconsistency =>
      known.Some? && t.blobs[t.sources[KeyOf(s, c)].hash].size != t.sources[KeyOf(s, c)].size
    case CasEntryMissingOrInvalid => KnownUnchanged(s, t, c) && !HasFile(cas, t.sources[KeyOf(s, c)].hash, c.size)
  }

  /** The reason given for reading a file is true of it, and no reason is true of a file that is
      skipped. */
  lemma ReasonsAreTrue(s: Setup, t: Tables, cas: Cas, c: Candidate)
    ensures var d := Decide(s, t, cas, c);
      if d.HashContent? then ReasonHolds(s, t, cas, c, d.reason) else forall r :: !ReasonHolds(s, t, cas, c, r)
  {
  }

  /** Unchanged by size and modification time since the run that recorded it. */
  predicate Skips(s: Setup, c: Candidate) {
    && s.metadataSkip && KeyOf(s, c) in s.tables.sources
    && var row := s.tables.sources[KeyOf(s, c)];
       row.size == c.size && row.mtime.Some? && row.mtime == c.mtime
  }

  function ObservationOf(s: Setup, c: Candidate, h: Hash): Observation {
    Observation(KeyOf(s, c), h, c.size, c.mtime)
  }

  /** The record a candidate ends up submitting. */
  function RecordOf(s: Setup, c: Candidate): Request {
    if Skips(s, c) then
      var h := s.tables.sources[KeyOf(s, c)].hash;
      Known(ObservationOf(s, c, h), c.size)
    else Imported(c.content.digest, c.content.size, ObservationOf(s, c, c.content.digest))
  }

  /** The assumptions about the run: a durable store, every path scanned once, files that do not
      change while read, no two different contents with one digest among the scanned files, and a
      store and a catalog that agree with a scanned digest on the size, which is all that an
      import compares. */
  ghost predicate Static(s: Setup) {
    && Durable(s.tables, s.cas)
    && s.limit > 0 && s.maxOutstanding > 0
    && (forall i, j :: 0 <= i < j < |s.scan| ==> s.scan[i].path != s.scan[j].path)
    && (forall i :: 0 <= i < |s.scan| ==> s.scan[i].content.size == s.scan[i].size <= SQLITE_MAX)
    && (forall i, j :: 0 <= i < |s.scan| && 0 <= j < |s.scan| && s.scan[i].content.digest == s.scan[j].content.digest ==>
          s.scan[i].content == s.scan[j].content)
    && (forall i :: 0 <= i < |s.scan| && s.scan[i].content.digest in s.cas ==>
          s.cas[s.scan[i].content.digest].size == s.scan[i].size)
    && (forall i :: 0 <= i < |s.scan| && s.scan[i].content.digest in s.tables.blobs ==>
          s.tables.blobs[s.scan[i].content.digest].size == s.scan[i].size)
  }

  // ---------------------------------------------------------------------------
  // The log
  // ---------------------------------------------------------------------------

  /** The submitted records: the `k`-th belongs to the candidate with sequence `order[k]`. */
  ghost predicate LogOf(s: Setup, order: seq<nat>, log: seq<Request>) {
    && |order| == |log|
    && Distinct(order)
    && (forall k :: 0 <= k < |log| ==> order[k] < |s.scan| && log[k] == RecordOf(s, s.scan[order[k]]))
  }

  function MentionedHashes(log: seq<Request>): set<Hash> {
    set r | r in log :: r.observation.hash
  }

  function MentionedKeys(log: seq<Request>): set<SourceKey> {
    set r | r in log :: r.observation.key
  }

  /** The catalog after a log, row by row. */
  ghost predicate BlobsFollow(s: Setup, log: seq<Request>, blobs: map<Hash, BlobRow>) {
    && blobs.Keys == s.tables.blobs.Keys + MentionedHashes(log)
    && (forall h :: h in blobs && h !in MentionedHashes(log) ==> blobs[h] == s.tables.blobs[h])
    && (forall r :: r in log ==> blobs[r.observation.hash] == BlobRow(r.observation.size, None))
  }

  ghost predicate SourcesFollow(s: Setup, log: seq<Request>, sources: map<SourceKey, SourceRow>) {
    && sources.Keys == s.tables.sources.Keys + MentionedKeys(log)
    && (forall k :: k in sources && k !in MentionedKeys(log) ==> sources[k] == s.tables.sources[k])
    && (forall r :: r in log ==> sources[r.observation.key] == SourceRowFor(s, r.observation))
  }

  ghost predicate TablesFollow(s: Setup, log: seq<Request>, t: Tables) {
    BlobsFollow(s, log, t.blobs) && SourcesFollow(s, log, t.sources)
  }

  function SourceRowFor(s: Setup, o: Observation): SourceRow {
    SourceRow(o.hash, o.size, o.mtime, 1 + if o.key in s.tables.sources then s.tables.sources[o.key].seen else 0)
  }

  /** What a ticket's outcome says about its source row. */
  predicate OutcomeFits(s: Setup, r: Request, o: Outcome) {
    if r.Known? then o == ObservedKnown
    else o.ImportedRow? && o.sourceInserted == (r.observation.key !in s.tables.sources)
  }

  lemma RecordFacts(s: Setup, c: Candidate)
    requires Static(s) && c in s.scan
    ensures var r := RecordOf(s, c);
      && r.observation.key == KeyOf(s, c) && r.observation.size == c.size <= SQLITE_MAX
      && (r.observation.hash in s.tables.blobs ==> s.tables.blobs[r.observation.hash].size == c.size)
      && (r.Known? ==>
            && r.expectedBlobSize == c.size && r.observation.hash in s.tables.blobs
            && r.observation.key in s.tables.sources
            && s.tables.sources[r.observation.key].hash == r.observation.hash
            && s.tables.sources[r.observation.key].size == c.size)
      && (r.Imported? ==> r.blobHash == r.observation.hash == c.content.digest && r.blobSize == c.size)
  {
    var i :| 0 <= i < |s.scan| && s.scan[i] == c;
    assert s.scan[i].content.size == s.scan[i].size;
    if Skips(s, c) {
      assert KeyOf(s, c) in s.tables.sources;
    }
  }

  lemma OtherFileOtherKey(s: Setup, i: nat, j: nat)
    requires Static(s) && i < |s.scan| && j < |s.scan| && i != j
    ensures KeyOf(s, s.scan[i]) != KeyOf(s, s.scan[j])
  {
  }

  lemma KeyIsFresh(s: Setup, order: seq<nat>, log: seq<Request>, n: nat)
    requires Static(s) && LogOf(s, order, log) && n < |s.scan| && n !in order
    ensures KeyOf(s, s.scan[n]) !in MentionedKeys(log)
  {
    forall k | 0 <= k < |log| ensures log[k].observation.key != KeyOf(s, s.scan[n]) {
      RecordFacts(s, s.scan[order[k]]);
      OtherFileOtherKey(s, order[k], n);
    }
  }

  /** Records for one hash agree on the size. */
  lemma SameHashSameSize(s: Setup, a: Candidate, b: Candidate)
    requires Static(s) && a in s.scan && b in s.scan
    requires RecordOf(s, a).observation.hash == RecordOf(s, b).observation.hash
    ensures a.size == b.size
  {
    RecordFacts(s, a);
    RecordFacts(s, b);
    var i :| 0 <= i < |s.scan| && s.scan[i] == a;
    var j :| 0 <= j < |s.scan| && s.scan[j] == b;
    if !Skips(s, a) && !Skips(s, b) {
      assert s.scan[i].content == s.scan[j].content;
      assert s.scan[i].content.size == s.scan[i].size && s.scan[j].content.size == s.scan[j].size;
    }
  }

  /** A record is accepted on top of any log of the other candidates' records. */
  lemma NextRecordApplies(s: Setup, order: seq<nat>, log: seq<Request>, t: Tables, n: nat)
    requires Static(s) && LogOf(s, order, log) && TablesFollow(s, log, t)
    requires n < |s.scan| && n !in order
    ensures Accepts(t, RecordOf(s, s.scan[n]))
    ensures KeyOf(s, s.scan[n]) !in MentionedKeys(log)
  {
    var c := s.scan[n];
    var r := RecordOf(s, c);
    RecordFacts(s, c);
    KeyIsFresh(s, order, log, n);
    if r.observation.hash in MentionedHashes(log) {
      var x :| x in log && x.observation.hash == r.observation.hash;
      var k :| 0 <= k < |log| && log[k] == x;
      RecordFacts(s, s.scan[order[k]]);
      SameHashSameSize(s, s.scan[order[k]], c);
    }
  }

  lemma MentionOneMore(log: seq<Request>, r: Request)
    ensures MentionedHashes(log + [r]) == MentionedHashes(log) + {r.observation.hash}
    ensures MentionedKeys(log + [r]) == MentionedKeys(log) + {r.observation.key}
  {
    assert forall x :: x in log + [r] <==> x in log || x == r;
  }

  lemma BlobsFollowOne(s: Setup, log: seq<Request>, blobs: map<Hash, BlobRow>, r: Request)
    requires BlobsFollow(s, log, blobs)
    requires forall x :: x in log && x.observation.hash == r.observation.hash ==> x.observation.size == r.observation.size
    ensures BlobsFollow(s, log + [r], blobs[r.observation.hash := BlobRow(r.observation.size, None)])
  {
    MentionOneMore(log, r);
  }

  lemma SourcesFollowOne(s: Setup, log: seq<Request>, sources: map<SourceKey, SourceRow>, r: Request)
    requires SourcesFollow(s, log, sources) && r.observation.key !in MentionedKeys(log)
    ensures SourcesFollow(s, log + [r], sources[r.observation.key := SourceRowFor(s, r.observation)])
  {
    MentionOneMore(log, r);
    assert forall x :: x in log ==> x.observation.key in MentionedKeys(log);
  }

  lemma SizesAgreeInLog(s: Setup, order: seq<nat>, log: seq<Request>, x: Request, n: nat)
    requires Static(s) && LogOf(s, order, log) && x in log && n < |s.scan|
    requires x.observation.hash == RecordOf(s, s.scan[n]).observation.hash
    ensures x.observation.size == RecordOf(s, s.scan[n]).observation.size
  {
    var k :| 0 <= k < |log| && log[k] == x;
    RecordFacts(s, s.scan[order[k]]);
    RecordFacts(s, s.scan[n]);
    SameHashSameSize(s, s.scan[order[k]], s.scan[n]);
  }

  /** The whole effect of an accepted record, as one change to each table. */
  lemma ApplyEffect(t: Tables, r: Request, row: SourceRow) returns (t': Tables, o: Outcome)
    requires Accepts(t, r)
    requires row == SourceRow(r.observation.hash, r.observation.size, r.observation.mtime,
                              1 + if r.observation.key in t.sources then t.sources[r.observation.key].seen else 0)
    ensures ApplyRequest(t, r) == Ok((t', o))
    ensures t'.blobs == t.blobs[r.observation.hash := BlobRow(r.observation.size, None)]
    ensures t'.sources == t.sources[r.observation.key := row]
    ensures if r.Known? then o == ObservedKnown else o.ImportedRow? && o.sourceInserted == (r.observation.key !in t.sources)
  {
    ApplyRequestMeaning(t, r);
    t', o := ApplyRequest(t, r).value.0, ApplyRequest(t, r).value.1;
    assert t'.sources == t.sources[r.observation.key := row];
  }

  lemma ApplyFollows(s: Setup, log: seq<Request>, t: Tables, r: Request) returns (t': Tables, o: Outcome)
    requires TablesFollow(s, log, t) && Accepts(t, r) && r.observation.key !in MentionedKeys(log)
    requires forall x :: x in log && x.observation.hash == r.observation.hash ==> x.observation.size == r.observation.size
    ensures ApplyRequest(t, r) == Ok((t', o))
    ensures TablesFollow(s, log + [r], t') && OutcomeFits(s, r, o)
  {
    t', o := ApplyEffect(t, r, SourceRowFor(s, r.observation));
    BlobsFollowOne(s, log, t.blobs, r);
    SourcesFollowOne(s, log, t.sources, r);
  }

  lemma LogStep(s: Setup, order: seq<nat>, log: seq<Request>, t: Tables, n: nat)
    requires Static(s) && LogOf(s, order, log) && TablesFollow(s, log, t) && n < |s.scan| && n !in order
    ensures var r := RecordOf(s, s.scan[n]);
      && ApplyRequest(t, r).Ok?
      && TablesFollow(s, log + [r], ApplyRequest(t, r).value.0)
      && OutcomeFits(s, r, ApplyRequest(t, r).value.1)
  {
    var r := RecordOf(s, s.scan[n]);
    NextRecordApplies(s, order, log, t, n);
    RecordFacts(s, s.scan[n]);
    forall x | x in log && x.observation.hash == r.observation.hash ensures x.observation.size == r.observation.size {
      SizesAgreeInLog(s, order, log, x, n);
    }
    var t', o := ApplyFollows(s, log, t, r);
  }

  lemma LogPrefix(s: Setup, order: seq<nat>, log: seq<Request>)
    requires LogOf(s, order, log) && log != []
    ensures var n := |log| - 1;
      && LogOf(s, order[..n], log[..n]) && order[n] !in order[..n]
      && order[n] < |s.scan| && log[n] == RecordOf(s, s.scan[order[n]]) && log[..n] + [log[n]] == log
  {
  }

  ghost predicate OutcomesFit(s: Setup, log: seq<Request>, outcomes: seq<Outcome>) {
    |log| == |outcomes| && forall k :: 0 <= k < |log| ==> OutcomeFits(s, log[k], outcomes[k])
  }

  lemma OutcomesFitOneMore(s: Setup, log: seq<Request>, outcomes: seq<Outcome>, r: Request, o: Outcome)
    requires OutcomesFit(s, log, outcomes) && OutcomeFits(s, r, o)
    ensures OutcomesFit(s, log + [r], outcomes + [o])
  {
  }

  lemma ApplyAllOneMore(t: Tables, log: seq<Request>, r: Request)
    requires ApplyAll(t, log).Ok? && ApplyRequest(ApplyAll(t, log).value.0, r).Ok?
    ensures var (t', o) := ApplyRequest(ApplyAll(t, log).value.0, r).value;
      ApplyAll(t, log + [r]) == Ok((t', ApplyAll(t, log).value.1 + [o]))
  {
    assert (log + [r])[..|log|] == log;
  }

  /** A log applied from the tables at the start of the run. */
  ghost predicate LogHolds(s: Setup, log: seq<Request>) {
    && ApplyAll(s.tables, log).Ok?
    && TablesFollow(s, log, ApplyAll(s.tables, log).value.0)
    && OutcomesFit(s, log, ApplyAll(s.tables, log).value.1)
  }

  /** Every log of distinct candidates applies from beginning to end, and its effect is the
      row-by-row one: each record's outcome says whether its source row is new. */
  lemma {:induction false} LogApplies(s: Setup, order: seq<nat>, log: seq<Request>)
    requires Static(s) && LogOf(s, order, log)
    ensures LogHolds(s, log)
  {
    if log == [] {
      assert MentionedHashes(log) == {} && MentionedKeys(log) == {};
    } else {
      var n := |log| - 1;
      LogPrefix(s, order, log);
      LogApplies(s, order[..n], log[..n]);
      LogStep(s, order[..n], log[..n], ApplyAll(s.tables, log[..n]).value.0, order[n]);
      var t, r := ApplyAll(s.tables, log[..n]).value.0, log[n];
      ApplyAllOneMore(s.tables, log[..n], r);
      OutcomesFitOneMore(s, log[..n], ApplyAll(s.tables, log[..n]).value.1, r, ApplyRequest(t, r).value.1);
    }
  }

  /** Two catalogs that follow logs with the same records are the same catalog. */
  lemma SameRecordsSameTables(s: Setup, a: seq<Request>, b: seq<Request>, t: Tables, u: Tables)
    requires TablesFollow(s, a, t) && TablesFollow(s, b, u)
    requires forall r :: r in a <==> r in b
    ensures t == u
  {
    assert MentionedHashes(a) == MentionedHashes(b) && MentionedKeys(a) == MentionedKeys(b);
    forall h | h in t.blobs ensures h in u.blobs && t.blobs[h] == u.blobs[h] {
      if h in MentionedHashes(a) {
        var r :| r in a && r.observation.hash == h;
        assert r in b;
      }
    }
    forall k | k in t.sources ensures k in u.sources && t.sources[k] == u.sources[k] {
      if k in MentionedKeys(a) {
        var r :| r in a && r.observation.key == k;
        assert r in b;
      }
    }
    assert t.blobs == u.blobs && t.sources == u.sources;
  }

  /** Classification cannot be disturbed by the run itself. Read against any catalog and store
      that the run has reached before this file's own record is submitted, the decision is the
      one that the catalog at the start of the run gives. */
  lemma ClassificationIsStable(s: Setup, order: seq<nat>, log: seq<Request>, t: Tables, cas: Cas, n: nat)
    requires Static(s) && LogOf(s, order, log) && TablesFollow(s, log, t)
    requires n < |s.scan| && n !in order
    requires forall h :: h in s.cas ==> h in cas && cas[h] == s.cas[h]
    ensures var c := s.scan[n];
      && (Decide(s, t, cas, c).SkipContent? <==> Skips(s, c))
      && (Skips(s, c) ==>
            && Decide(s, t, cas, c).sizeBytes == c.size
            && RecordOf(s, c) == Known(ObservationOf(s, c, Decide(s, t, cas, c).blobHash), Decide(s, t, cas, c).sizeBytes))
  {
    var c := s.scan[n];
    var k := KeyOf(s, c);
    NextRecordApplies(s, order, log, t, n);
    if k in s.tables.sources {
      KnownRowIsKept(s, order, log, t, k);
    }
  }

  lemma KnownRowIsKept(s: Setup, order: seq<nat>, log: seq<Request>, t: Tables, k: SourceKey)
    requires Static(s) && LogOf(s, order, log) && TablesFollow(s, log, t)
    requires k in s.tables.sources && k !in MentionedKeys(log)
    ensures k in t.sources && t.sources[k] == s.tables.sources[k]
    ensures var row := s.tables.sources[k];
      HasFile(s.cas, row.hash, row.size) && row.hash in t.blobs && t.blobs[row.hash].size == row.size
  {
    var row := s.tables.sources[k];
    assert Referenced(s.tables, row.hash);
    if row.hash in MentionedHashes(log) {
      var x :| x in log && x.observation.hash == row.hash;
      var i :| 0 <= i < |log| && log[i] == x;
      RecordFacts(s, s.scan[order[i]]);
    }
  }
}
