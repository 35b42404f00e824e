/** The report of an import as sums over the scanned files, independent of any schedule. */
module ImportReport {
  import opened Domain
  import opened Catalog
  import opened Scheduler
  import opened ImportLog
  import opened Executor
  import opened MapSum

  /** The report fields that are sums of one file's share. */
  datatype Metric =
    | FilesSeen | BytesSeen | FilesSkipped | BytesSkipped | FilesHashed | BytesHashed | RecordsInserted | RecordsUpdated

  function Value(r: Report, m: Metric): nat {
    match m
    case FilesSeen => r.filesSeen
    case BytesSeen => r.bytesSeen
    case FilesSkipped => r.filesSkipped
    case BytesSkipped => r.bytesSkipped
    case FilesHashed => r.filesHashed
    case BytesHashed => r.bytesHashed
    case RecordsInserted => r.recordsInserted
    case RecordsUpdated => r.recordsUpdated
  }

  /** How far one scanned file has come. */
  datatype Phase = Waiting | Submitted | Resolved

  function PhaseOf(order: seq<nat>, tickets: map<nat, Request>, n: nat): Phase {
    if n !in order then Waiting else if n in tickets then Submitted else Resolved
  }

  /** What file `n` has added to a metric so far. */
  function Share(s: Setup, n: nat, p: Phase, m: Metric): nat
    requires n < |s.scan|
  {
    var c := s.scan[n];
    match m
    case FilesSeen => 1
    case BytesSeen => c.size
    case FilesSkipped => if Skips(s, c) then 1 else 0
    case BytesSkipped => if Skips(s, c) then c.size else 0
    case FilesHashed => if Skips(s, c) || p.Waiting? then 0 else 1
    case BytesHashed => if Skips(s, c) || p.Waiting? then 0 else c.size
    case RecordsInserted => if !Skips(s, c) && p.Resolved? && KeyOf(s, c) !in s.tables.sources then 1 else 0
    case RecordsUpdated => if Skips(s, c) || (p.Resolved? && KeyOf(s, c) in s.tables.sources) then 1 else 0
  }

  function Total(s: Setup, order: seq<nat>, tickets: map<nat, Request>, k: nat, m: Metric): nat
    requires k <= |s.scan|
  {
    if k == 0 then 0 else Total(s, order, tickets, k - 1, m) + Share(s, k - 1, PhaseOf(order, tickets, k - 1), m)
  }

  /** The total once every file is finished. */
  function Closed(s: Setup, k: nat, m: Metric): nat
    requires k <= |s.scan|
  {
    if k == 0 then 0 else Closed(s, k - 1, m) + Share(s, k - 1, Resolved, m)
  }

  lemma {:induction false} TotalUnchanged(s: Setup, order: seq<nat>, tickets: map<nat, Request>,
                                          order': seq<nat>, tickets': map<nat, Request>, k: nat, m: Metric)
    requires k <= |s.scan|
    requires forall i :: 0 <= i < k ==> PhaseOf(order', tickets', i) == PhaseOf(order, tickets, i)
    ensures Total(s, order', tickets', k, m) == Total(s, order, tickets, k, m)
  {
    if k > 0 {
      TotalUnchanged(s, order, tickets, order', tickets', k - 1, m);
    }
  }

  /** One file moving on changes a total by that file's share alone. */
  lemma {:induction false} TotalChanged(s: Setup, order: seq<nat>, tickets: map<nat, Request>,
                                        order': seq<nat>, tickets': map<nat, Request>, k: nat, n: nat, m: Metric)
    requires n < k <= |s.scan|
    requires forall i :: 0 <= i < k && i != n ==> PhaseOf(order', tickets', i) == PhaseOf(order, tickets, i)
    ensures Total(s, order', tickets', k, m) + Share(s, n, PhaseOf(order, tickets, n), m)
         == Total(s, order, tickets, k, m) + Share(s, n, PhaseOf(order', tickets', n), m)
  {
    if k - 1 == n {
      TotalUnchanged(s, order, tickets, order', tickets', k - 1, m);
    } else {
      TotalChanged(s, order, tickets, order', tickets', k - 1, n, m);
    }
  }

  lemma {:induction false} AllResolved(s: Setup, order: seq<nat>, tickets: map<nat, Request>, k: nat, m: Metric)
    requires k <= |s.scan| && forall i :: 0 <= i < k ==> PhaseOf(order, tickets, i) == Resolved
    ensures Total(s, order, tickets, k, m) == Closed(s, k, m)
  {
    if k > 0 {
      AllResolved(s, order, tickets, k - 1, m);
    }
  }

  /** Every file is skipped or hashed, and its record inserted or updated. */
  lemma {:induction false} ClosedBalances(s: Setup, k: nat)
    requires k <= |s.scan|
    ensures Closed(s, k, FilesSeen) == k == Closed(s, k, FilesSkipped) + Closed(s, k, FilesHashed)
    ensures Closed(s, k, FilesSeen) == Closed(s, k, RecordsInserted) + Closed(s, k, RecordsUpdated)
    ensures Closed(s, k, BytesSeen) == Closed(s, k, BytesSkipped) + Closed(s, k, BytesHashed)
  {
    if k > 0 {
      ClosedBalances(s, k - 1);
    }
  }

  // ---------------------------------------------------------------------------
  // The store
  // ---------------------------------------------------------------------------

  /** Reading the first `k` files one after the other. */
  function CasAfter(s: Setup, k: nat): Cas
    requires k <= |s.scan|
  {
    if k == 0 then s.cas
    else
      var c := s.scan[k - 1];
      if Skips(s, c) || c.content.digest in CasAfter(s, k - 1) then CasAfter(s, k - 1)
      else CasAfter(s, k - 1)[c.content.digest := c.content]
  }

  /** `file` belongs under `h`: it was there, or nothing was and a file that is read has this
      content. */
  predicate Belongs(s: Setup, h: Hash, file: File) {
    if h in s.cas then s.cas[h] == file
    else exists i :: 0 <= i < |s.scan| && !Skips(s, s.scan[i]) && s.scan[i].content == file && file.digest == h
  }

  lemma BelongsOnce(s: Setup, h: Hash, a: File, b: File)
    requires Static(s) && Belongs(s, h, a) && Belongs(s, h, b)
    ensures a == b
  {
  }

  lemma {:induction false} CasAfterMeaning(s: Setup, k: nat)
    requires Static(s) && k <= |s.scan|
    ensures forall h :: h in s.cas ==> h in CasAfter(s, k)
    ensures forall i :: 0 <= i < k && !Skips(s, s.scan[i]) ==> s.scan[i].content.digest in CasAfter(s, k)
    ensures forall h :: h in CasAfter(s, k) ==> Belongs(s, h, CasAfter(s, k)[h])
  {
    if k > 0 {
      CasAfterMeaning(s, k - 1);
    }
  }

  /** Any store that holds the old files and every file that was read, and only such files, is
      the one that reading them in scan order gives. */
  lemma StoreIsDetermined(s: Setup, cas: Cas)
    requires Static(s)
    requires forall h :: h in s.cas ==> h in cas
    requires forall i :: 0 <= i < |s.scan| && !Skips(s, s.scan[i]) ==> s.scan[i].content.digest in cas
    requires forall h :: h in cas ==> Belongs(s, h, cas[h])
    ensures cas == CasAfter(s, |s.scan|)
  {
    var after := CasAfter(s, |s.scan|);
    CasAfterMeaning(s, |s.scan|);
    forall h | h in cas ensures h in after && after[h] == cas[h] {
      if h !in s.cas {
        var i :| 0 <= i < |s.scan| && !Skips(s, s.scan[i]) && s.scan[i].content == cas[h] && cas[h].digest == h;
      }
      BelongsOnce(s, h, cas[h], after[h]);
    }
    forall h | h in after ensures h in cas {
      if h !in s.cas {
        assert Belongs(s, h, after[h]);
        var i :| 0 <= i < |s.scan| && !Skips(s, s.scan[i]) && s.scan[i].content == after[h] && after[h].digest == h;
      }
    }
  }

  function FileCount(h: Hash, file: File): nat { 1 }

  function FileBytes(h: Hash, file: File): nat { file.size }

  // ---------------------------------------------------------------------------
  // The report
  // ---------------------------------------------------------------------------

  /** The report every complete import of this setup gives. */
  ghost predicate IsReportOf(s: Setup, r: Report) {
    && (forall m :: Value(r, m) == Closed(s, |s.scan|, m))
    && r.blobsCreated + Sum(s.cas, FileCount) == Sum(CasAfter(s, |s.scan|), FileCount)
    && r.bytesWritten + Sum(s.cas, FileBytes) == Sum(CasAfter(s, |s.scan|), FileBytes)
    && r.blobsCreated + r.blobsReused == |s.scan|
  }

  lemma OneReport(s: Setup, a: Report, b: Report)
    requires IsReportOf(s, a) && IsReportOf(s, b)
    ensures a == b
  {
    assert Value(a, FilesSeen) == Value(b, FilesSeen) && Value(a, BytesSeen) == Value(b, BytesSeen);
    assert Value(a, FilesSkipped) == Value(b, FilesSkipped) && Value(a, BytesSkipped) == Value(b, BytesSkipped);
    assert Value(a, FilesHashed) == Value(b, FilesHashed) && Value(a, BytesHashed) == Value(b, BytesHashed);
    assert Value(a, RecordsInserted) == Value(b, RecordsInserted) && Value(a, RecordsUpdated) == Value(b, RecordsUpdated);
  }

  /** The report accounts for every file and every byte. */
  lemma ReportBalances(s: Setup, r: Report)
    requires IsReportOf(s, r)
    ensures r.filesSeen == |s.scan| == r.filesSkipped + r.filesHashed == r.blobsCreated + r.blobsReused
    ensures r.filesSeen == r.recordsInserted + r.recordsUpdated
    ensures r.bytesSeen == r.bytesSkipped + r.bytesHashed
  {
    ClosedBalances(s, |s.scan|);
    assert Value(r, FilesSeen) == Closed(s, |s.scan|, FilesSeen) && Value(r, BytesSeen) == Closed(s, |s.scan|, BytesSeen);
    assert Value(r, FilesSkipped) == Closed(s, |s.scan|, FilesSkipped);
    assert Value(r, BytesSkipped) == Closed(s, |s.scan|, BytesSkipped);
    assert Value(r, FilesHashed) == Closed(s, |s.scan|, FilesHashed);
    assert Value(r, BytesHashed) == Closed(s, |s.scan|, BytesHashed);
    assert Value(r, RecordsInserted) == Closed(s, |s.scan|, RecordsInserted);
    assert Value(r, RecordsUpdated) == Closed(s, |s.scan|, RecordsUpdated);
  }
}
