/** The two catalog tables and the SQL statements that change them. */
module Catalog {
  import opened Domain

  /** A row of `blobs`; `marked` is `deleted_at_ms`. */
  datatype BlobRow = BlobRow(size: nat, marked: Option<int>)

  /** The unique key of `source_files`. */
  datatype SourceKey = SourceKey(root: string, path: string)

  datatype SourceRow = SourceRow(hash: Hash, size: nat, mtime: Option<int>, seen: nat)

  datatype Tables = Tables(blobs: map<Hash, BlobRow>, sources: map<SourceKey, SourceRow>)

  predicate Referenced(t: Tables, h: Hash) {
    exists k :: k in t.sources && t.sources[k].hash == h
  }

  /** Marked by an earlier collection and not referenced since. */
  predicate Collectable(t: Tables, h: Hash) {
    h in t.blobs && t.blobs[h].marked.Some? && !Referenced(t, h)
  }

  /** Every source row names a blob row of equal size. */
  predicate RowsAgree(t: Tables) {
    forall k :: k in t.sources ==>
      t.sources[k].hash in t.blobs && t.blobs[t.sources[k].hash].size == t.sources[k].size
  }

  predicate HasFile(cas: Cas, h: Hash, size: nat) {
    h in cas && cas[h].size == size
  }

  /** Every blob row has its file at its size, or is both marked and unreferenced. */
  predicate Backed(t: Tables, cas: Cas) {
    forall h :: h in t.blobs ==>
      HasFile(cas, h, t.blobs[h].size) || (t.blobs[h].marked.Some? && !Referenced(t, h))
  }

  /** What must survive every crash. */
  predicate Durable(t: Tables, cas: Cas) {
    RowsAgree(t) && Backed(t, cas)
  }

  // ---------------------------------------------------------------------------
  // Garbage-collection statements: new tables and number of affected rows
  // ---------------------------------------------------------------------------

  function SetMark(t: Tables, h: Hash, marked: Option<int>): Tables
    requires h in t.blobs
  {
    t.(blobs := t.blobs[h := t.blobs[h].(marked := marked)])
  }

  function GcMark(t: Tables, h: Hash, size: nat, now: int): (Tables, nat) {
    if h in t.blobs && t.blobs[h].size == size && t.blobs[h].marked.None? && !Referenced(t, h)
    then (SetMark(t, h, Some(now)), 1) else (t, 0)
  }

  function GcResurrect(t: Tables, h: Hash, size: nat): (Tables, nat) {
    if h in t.blobs && t.blobs[h].size == size && t.blobs[h].marked.Some? && Referenced(t, h)
    then (SetMark(t, h, None), 1) else (t, 0)
  }

  function GcSweep(t: Tables, h: Hash, size: nat): (Tables, nat) {
    if h in t.blobs && t.blobs[h].size == size && t.blobs[h].marked.Some? && !Referenced(t, h)
    then (t.(blobs := t.blobs - {h}), 1) else (t, 0)
  }

  // ---------------------------------------------------------------------------
  // Import statements
  // ---------------------------------------------------------------------------

  datatype Observation = Observation(key: SourceKey, hash: Hash, size: nat, mtime: Option<int>)

  datatype Request =
    | Imported(blobHash: Hash, blobSize: nat, observation: Observation)
    | Known(observation: Observation, expectedBlobSize: nat)

  datatype Outcome =
    | ImportedRow(blobInserted: bool, sourceInserted: bool)
    | ObservedKnown

  /** INSERT OR IGNORE INTO blobs. */
  function InsertBlob(t: Tables, h: Hash, size: nat): (Tables, nat) {
    if h in t.blobs then (t, 0) else (t.(blobs := t.blobs[h := BlobRow(size, None)]), 1)
  }

  /** Both resurrection statements of an import: clear the mark of the row with this hash and size. */
  function ClearMark(t: Tables, h: Hash, size: nat): (Tables, nat) {
    if h in t.blobs && t.blobs[h].size == size then (SetMark(t, h, None), 1) else (t, 0)
  }

  function UpsertSource(t: Tables, o: Observation): Tables {
    var seen := if o.key in t.sources then t.sources[o.key].seen + 1 else 1;
    t.(sources := t.sources[o.key := SourceRow(o.hash, o.size, o.mtime, seen)])
  }

  function ObserveKnown(t: Tables, o: Observation): (Tables, nat) {
    if o.key in t.sources && t.sources[o.key].hash == o.hash && t.sources[o.key].size == o.size
    then (t.(sources := t.sources[o.key := t.sources[o.key].(mtime := o.mtime, seen := t.sources[o.key].seen + 1)]), 1)
    else (t, 0)
  }

  /** One record inside its transaction. `Err` leaves the transaction to be discarded. */
  function ApplyRequest(t: Tables, r: Request): Result<(Tables, Outcome)> {
    match r
    case Imported(h, size, o) =>
      if h != o.hash || size != o.size || size > SQLITE_MAX then Err
      else
        var (t1, inserted) := InsertBlob(t, h, size);
        if t1.blobs[h].size != size then Err
        else
          var (t2, cleared) := ClearMark(t1, h, size);
          if cleared != 1 then Err
          else Ok((UpsertSource(t2, o), ImportedRow(inserted == 1, o.key !in t.sources)))
    case Known(o, size) =>
      if o.size != size || size > SQLITE_MAX then Err
      else
        var (t1, observed) := ObserveKnown(t, o);
        if observed != 1 then Err
        else
          var (t2, cleared) := ClearMark(t1, o.hash, size);
          if cleared != 1 then Err else Ok((t2, ObservedKnown))
  }

  /** Exactly when a record is accepted, and the whole effect of accepting it. */
  lemma ApplyRequestMeaning(t: Tables, r: Request)
    ensures ApplyRequest(t, r).Ok? <==> Accepts(t, r)
    ensures Accepts(t, r) ==>
      var (t', outcome) := ApplyRequest(t, r).value;
      var o := r.observation;
      && outcome == (if r.Known? then ObservedKnown else ImportedRow(o.hash !in t.blobs, o.key !in t.sources))
      && t'.blobs == t.blobs[o.hash := BlobRow(o.size, None)]
      && t'.sources.Keys == t.sources.Keys + {o.key}
      && (forall k :: k in t.sources && k != o.key ==> t'.sources[k] == t.sources[k])
      && t'.sources[o.key] ==
         SourceRow(o.hash, o.size, o.mtime, 1 + if o.key in t.sources then t.sources[o.key].seen else 0)
  {
    if Accepts(t, r) {
      var (t', _) := ApplyRequest(t, r).value;
      assert t'.blobs == t.blobs[r.observation.hash := BlobRow(r.observation.size, None)];
    }
  }

  /** What the tables and the two halves of a record must agree on. */
  predicate Accepts(t: Tables, r: Request) {
    var o := r.observation;
    && o.size <= SQLITE_MAX
    && match r
       case Imported(h, size, _) =>
         h == o.hash && size == o.size && (h in t.blobs ==> t.blobs[h].size == size)
       case Known(_, size) =>
         && size == o.size
         && o.key in t.sources && t.sources[o.key].hash == o.hash && t.sources[o.key].size == o.size
         && o.hash in t.blobs && t.blobs[o.hash].size == o.size
  }

  /** The store holds the file an `Imported` record is about. */
  predicate Installed(cas: Cas, r: Request) {
    r.Imported? ==> HasFile(cas, r.blobHash, r.blobSize)
  }

  /** A record keeps the durable invariant once its file is installed. A `Known` record needs
      no file of its own: the row it refreshes already keeps its blob from being collected. */
  lemma ApplyRequestKeepsDurable(t: Tables, cas: Cas, r: Request)
    requires Durable(t, cas) && Installed(cas, r) && ApplyRequest(t, r).Ok?
    ensures Durable(ApplyRequest(t, r).value.0, cas)
  {
    ApplyRequestMeaning(t, r);
    var t' := ApplyRequest(t, r).value.0;
    var o := r.observation;
    if r.Known? {
      assert t.sources[o.key].hash == o.hash;
      assert Referenced(t, o.hash);
    }
    assert HasFile(cas, o.hash, o.size);
    forall h | h in t'.blobs && h != o.hash
      ensures HasFile(cas, h, t'.blobs[h].size) || (t'.blobs[h].marked.Some? && !Referenced(t', h))
    {
      if Referenced(t', h) {
        var k :| k in t'.sources && t'.sources[k].hash == h;
        assert k != o.key && t.sources[k].hash == h;
        assert Referenced(t, h);
      }
    }
  }

  /** Files only appearing keeps the invariant. */
  lemma MoreFilesKeepDurable(t: Tables, cas: Cas, cas': Cas)
    requires Durable(t, cas)
    requires forall h :: h in cas ==> h in cas' && cas'[h] == cas[h]
    ensures Durable(t, cas')
  {
  }

  // ---------------------------------------------------------------------------
  // Several records
  // ---------------------------------------------------------------------------

  /** Records one by one, in order; the first failure discards everything. */
  function ApplyAll(t: Tables, rs: seq<Request>): (result: Result<(Tables, seq<Outcome>)>)
    ensures result.Ok? ==> |result.value.1| == |rs|
  {
    if rs == [] then Ok((t, []))
    else
      var before := ApplyAll(t, rs[..|rs| - 1]);
      if before.Err? then Err
      else
        var last := ApplyRequest(before.value.0, rs[|rs| - 1]);
        if last.Err? then Err
        else Ok((last.value.0, before.value.1 + [last.value.1]))
  }

  /** Two batches in a row are one longer sequence of records. */
  lemma {:induction false} ApplyAllSplits(t: Tables, xs: seq<Request>, ys: seq<Request>)
    requires ApplyAll(t, xs).Ok?
    ensures var (mid, first) := ApplyAll(t, xs).value;
      && (ApplyAll(t, xs + ys).Ok? <==> ApplyAll(mid, ys).Ok?)
      && (ApplyAll(mid, ys).Ok? ==>
            ApplyAll(t, xs + ys).value == (ApplyAll(mid, ys).value.0, first + ApplyAll(mid, ys).value.1))
  {
    if ys == [] {
      assert xs + ys == xs;
      var first := ApplyAll(t, xs).value.1;
      assert first + [] == first;
    } else {
      var ys', y := ys[..|ys| - 1], ys[|ys| - 1];
      assert (xs + ys)[..|xs + ys| - 1] == xs + ys' && (xs + ys)[|xs + ys| - 1] == y;
      ApplyAllSplits(t, xs, ys');
      var (mid, first) := ApplyAll(t, xs).value;
      if ApplyAll(mid, ys).Ok? {
        var outcomes := ApplyAll(mid, ys').value.1;
        var o := ApplyRequest(ApplyAll(mid, ys').value.0, y).value.1;
        assert first + (outcomes + [o]) == (first + outcomes) + [o];
      }
    }
  }

  lemma {:induction false} ApplyAllKeepsDurable(t: Tables, cas: Cas, rs: seq<Request>)
    requires Durable(t, cas) && (forall r :: r in rs ==> Installed(cas, r)) && ApplyAll(t, rs).Ok?
    ensures Durable(ApplyAll(t, rs).value.0, cas)
  {
    if rs != [] {
      ApplyAllKeepsDurable(t, cas, rs[..|rs| - 1]);
      ApplyRequestKeepsDurable(ApplyAll(t, rs[..|rs| - 1]).value.0, cas, rs[|rs| - 1]);
    }
  }
}
