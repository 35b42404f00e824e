/** A dry-run import: one pass over the scan against the catalog snapshot, writing nothing. */
module DryRun {
  import opened Domain
  import opened Catalog
  import opened Scheduler
  import opened ImportLog
  import opened Executor
  import opened ImportReport
  import opened ExecutorPlaces
  import opened ExecutorRuns
  import opened MapSum

  /** Against the starting catalog and store the decision is `Skips`. */
  lemma SnapshotDecision(s: Setup, n: nat)
    requires Static(s) && n < |s.scan|
    ensures DecidesFor(s, s.cas, s.tables, s.scan[n])
  {
    DecisionAt(s, s.cas, [], [], n);
  }

  /** The hashes planned for creation by the first `k` files. */
  function Planned(s: Setup, k: nat): set<Hash>
    requires k <= |s.scan|
  {
    if k == 0 then {}
    else
      var c := s.scan[k - 1];
      if Skips(s, c) || c.content.digest in s.cas then Planned(s, k - 1) else Planned(s, k - 1) + {c.content.digest}
  }

  /** What is planned is what a real run would have added by then. */
  lemma {:induction false} PlannedMeaning(s: Setup, k: nat)
    requires Static(s) && k <= |s.scan|
    ensures CasAfter(s, k).Keys == s.cas.Keys + Planned(s, k)
  {
    if k > 0 {
      PlannedMeaning(s, k - 1);
    }
  }

  /** The report after the first `k` files. */
  ghost predicate ReportAt(s: Setup, k: nat, r: Report)
    requires k <= |s.scan|
  {
    && (forall m :: Value(r, m) == Closed(s, k, m))
    && r.blobsCreated + Sum(s.cas, FileCount) == Sum(CasAfter(s, k), FileCount)
    && r.bytesWritten + Sum(s.cas, FileBytes) == Sum(CasAfter(s, k), FileBytes)
    && r.blobsCreated + r.blobsReused == k
  }

  /** Seeing a file and deciding to skip it. */
  function SkippedFile(r: Report, c: Candidate): Report {
    SkipReport(r.(filesSeen := r.filesSeen + 1, bytesSeen := r.bytesSeen + c.size), c.size)
  }

  function HashedFile(r: Report, c: Candidate, outcome: StoreOutcome, inserted: bool): Report {
    var seen := r.(filesSeen := r.filesSeen + 1, bytesSeen := r.bytesSeen + c.size);
    OutcomeReport(HashReport(seen, c.content.size, outcome), ImportedRow(true, inserted))
  }

  lemma SkippedNext(s: Setup, k: nat, r: Report)
    requires k < |s.scan| && ReportAt(s, k, r) && Skips(s, s.scan[k])
    ensures ReportAt(s, k + 1, SkippedFile(r, s.scan[k]))
  {
    forall m ensures Value(SkippedFile(r, s.scan[k]), m) == Closed(s, k + 1, m) {
    }
  }

  lemma HashedNext(s: Setup, k: nat, r: Report, outcome: StoreOutcome)
    requires k < |s.scan| && ReportAt(s, k, r) && !Skips(s, s.scan[k])
    requires s.scan[k].content.size == s.scan[k].size
    requires outcome.Created? <==> s.scan[k].content.digest !in CasAfter(s, k)
    ensures ReportAt(s, k + 1, HashedFile(r, s.scan[k], outcome, KeyOf(s, s.scan[k]) !in s.tables.sources))
  {
    var c := s.scan[k];
    var r' := HashedFile(r, c, outcome, KeyOf(s, c) !in s.tables.sources);
    forall m ensures Value(r', m) == Closed(s, k + 1, m) {
    }
    if outcome.Created? {
      SumAdd(CasAfter(s, k), c.content.digest, c.content, FileCount);
      SumAdd(CasAfter(s, k), c.content.digest, c.content, FileBytes);
    }
  }

  /** The dry run's report is the one every complete real run gives. */
  method DryRunImport(s: Setup) returns (report: Report)
    requires Static(s)
    ensures IsReportOf(s, report)
  {
    report := NOTHING;
    var planned: set<Hash> := {};
    var k := 0;
    while k < |s.scan|
      invariant k <= |s.scan| && planned == Planned(s, k) && ReportAt(s, k, report)
    {
      var c := s.scan[k];
      SnapshotDecision(s, k);
      var disposition := Validated(s.cas, ClassifyImport(s.metadataSkip, c, Lookup(s.tables, KeyOf(s, c))));
      if disposition.SkipContent? {
        SkippedNext(s, k, report);
        report := SkippedFile(report, c);
      } else {
        PlannedMeaning(s, k);
        var outcome := if c.content.digest in s.cas || c.content.digest in planned then Reused else Created;
        HashedNext(s, k, report, outcome);
        if c.content.digest !in s.cas {
          planned := planned + {c.content.digest};
        }
        report := HashedFile(report, c, outcome, KeyOf(s, c) !in s.tables.sources);
      }
      k := k + 1;
    }
  }

  /** Whatever the workers' interleaving, a finished real run reports what the dry run reported. */
  lemma DryRunPredictsRealRun(s: Setup, dry: Report, st: State)
    requires Static(s) && IsReportOf(s, dry) && Reachable(s, st) && st.pc.Finished?
    ensures dry == st.report
  {
    FinishedReport(s, st);
    OneReport(s, dry, st.report);
  }
}
