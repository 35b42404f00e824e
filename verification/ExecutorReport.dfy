/** The report, the store and the submitted records agree in every state of the executor. */
module ExecutorReport {
  import opened Domain
  import opened Catalog
  import opened Scheduler
  import opened ImportLog
  import opened Executor
  import opened ExecutorPlaces
  import opened ImportReport
  import opened MapSum

  // ---------------------------------------------------------------------------
  // Sums of shares
  // ---------------------------------------------------------------------------

  ghost predicate Counted(s: Setup, st: State)
    requires st.scanned <= |s.scan|
  {
    forall m :: Value(st.report, m) == Total(s, st.order, st.tickets, st.scanned, m)
  }

  predicate TicketsAreSubmitted(order: seq<nat>, tickets: map<nat, Request>) {
    forall q :: q in tickets ==> q in order
  }

  /** A newly scanned file joins with the share of its phase. */
  lemma AdmitCounts(s: Setup, st: State, st': State, m: Metric)
    requires st.scanned < |s.scan| && st.scanned !in st.order && TicketsAreSubmitted(st.order, st.tickets)
    requires st'.scanned == st.scanned + 1
    requires
      || (st'.order == st.order && st'.tickets == st.tickets)
      || (st'.order == st.order + [st.scanned] && st'.tickets.Keys == st.tickets.Keys + {st.scanned})
    ensures Total(s, st'.order, st'.tickets, st'.scanned, m)
         == Total(s, st.order, st.tickets, st.scanned, m)
            + Share(s, st.scanned, if st'.order == st.order then Waiting else Phase.Submitted, m)
  {
    forall i | 0 <= i < st.scanned ensures PhaseOf(st'.order, st'.tickets, i) == PhaseOf(st.order, st.tickets, i) {
    }
    TotalUnchanged(s, st.order, st.tickets, st'.order, st'.tickets, st.scanned, m);
  }

  lemma AdmitNextCounted(s: Setup, st: State, m: Metric)
    requires Static(s) && Placed(s, st) && StoreGrew(s, st) && TicketsFit(s, st) && st.scanned < |s.scan|
    requires Value(st.report, m) == Total(s, st.order, st.tickets, st.scanned, m)
    ensures var st' := AdmitNext(s, st);
      st'.scanned <= |s.scan| && Value(st'.report, m) == Total(s, st'.order, st'.tickets, st'.scanned, m)
  {
    var st' := AdmitNext(s, st);
    AdmissionDecision(s, st);
    AdmitCounts(s, st, st', m);
  }

  lemma ReceiveCounted(s: Setup, st: State, w: Work, m: Metric)
    requires Placed(s, st) && TicketsFit(s, st) && Enabled(s, st, Receive(w))
    requires s.scan[w.sequence].content.size == s.scan[w.sequence].size
    requires Value(st.report, m) == Total(s, st.order, st.tickets, st.scanned, m)
    ensures var st' := Do(s, st, Receive(w));
      st'.scanned <= |s.scan| && Value(st'.report, m) == Total(s, st'.order, st'.tickets, st'.scanned, m)
  {
    assert IsWork(s, st, w);
    NewTicket(s, st.order, st.tickets, st.scanned, w.sequence, ReadRecord(s, w), m);
  }

  lemma NewTicket(s: Setup, order: seq<nat>, tickets: map<nat, Request>, k: nat, n: nat, r: Request, m: Metric)
    requires k <= |s.scan| && n < k && n !in order && TicketsAreSubmitted(order, tickets)
    ensures Total(s, order + [n], tickets[n := r], k, m) + Share(s, n, Waiting, m)
         == Total(s, order, tickets, k, m) + Share(s, n, Phase.Submitted, m)
  {
    forall i | 0 <= i < k && i != n ensures PhaseOf(order + [n], tickets[n := r], i) == PhaseOf(order, tickets, i) {
    }
    TotalChanged(s, order, tickets, order + [n], tickets[n := r], k, n, m);
  }

  /** A resolved ticket's outcome says whether the start of the run knew the path. */
  lemma OutcomeAtIndex(s: Setup, order: seq<nat>, log: seq<Request>, q: nat)
    requires Static(s) && LogOf(s, order, log) && q in order
    ensures q < |s.scan| && ApplyAll(s.tables, log).Ok?
    ensures OutcomeFits(s, RecordOf(s, s.scan[q]), ApplyAll(s.tables, log).value.1[IndexOf(order, q)])
  {
    LogApplies(s, order, log);
    var k := IndexOf(order, q);
    assert OutcomeFits(s, log[k], ApplyAll(s.tables, log).value.1[k]);
  }

  lemma ResolvedOutcome(s: Setup, st: State, q: nat)
    requires Static(s) && LogOf(s, st.order, st.log) && st.committed <= |st.log| && TicketOutcome(s, st, q).Some?
    ensures q in st.order && q < |s.scan|
    ensures OutcomeFits(s, RecordOf(s, s.scan[q]), TicketOutcome(s, st, q).value)
  {
    LogCuts(s, st.order, st.log, st.committed);
    assert q in st.order[..st.committed];
    OutcomeAtIndex(s, st.order[..st.committed], st.log[..st.committed], q);
  }

  lemma ResolveCounted(s: Setup, st: State, q: nat, m: Metric)
    requires Static(s) && Placed(s, st) && TicketsFit(s, st) && Enabled(s, st, Resolve(q))
    requires Value(st.report, m) == Total(s, st.order, st.tickets, st.scanned, m)
    ensures var st' := Do(s, st, Resolve(q));
      st'.scanned <= |s.scan| && Value(st'.report, m) == Total(s, st'.order, st'.tickets, st'.scanned, m)
  {
    ResolvedOutcome(s, st, q);
    DroppedTicket(s, st.order, st.tickets, st.scanned, q, m);
    OutcomeShare(s, q, st.report, TicketOutcome(s, st, q).value, m);
  }

  lemma DroppedTicket(s: Setup, order: seq<nat>, tickets: map<nat, Request>, k: nat, q: nat, m: Metric)
    requires k <= |s.scan| && q < k && q in order && q in tickets
    ensures Total(s, order, tickets - {q}, k, m) + Share(s, q, Phase.Submitted, m)
         == Total(s, order, tickets, k, m) + Share(s, q, Resolved, m)
  {
    TotalChanged(s, order, tickets, order, tickets - {q}, k, q, m);
  }

  lemma OutcomeShare(s: Setup, q: nat, r: Report, o: Outcome, m: Metric)
    requires q < |s.scan| && OutcomeFits(s, RecordOf(s, s.scan[q]), o)
    ensures Value(OutcomeReport(r, o), m) + Share(s, q, Phase.Submitted, m) == Value(r, m) + Share(s, q, Resolved, m)
  {
  }

  lemma KeepsCountedAt(s: Setup, st: State, a: Action, m: Metric)
    requires Static(s) && Placed(s, st) && StoreGrew(s, st) && TicketsFit(s, st) && Enabled(s, st, a)
    requires Value(st.report, m) == Total(s, st.order, st.tickets, st.scanned, m)
    ensures var st' := Do(s, st, a);
      st'.scanned <= |s.scan| && Value(st'.report, m) == Total(s, st'.order, st'.tickets, st'.scanned, m)
  {
    match a {
      case Admit =>
        if !st.scannerDone && |st.queue.pending| < SCHEDULER_CAPACITY && st.scanned < |s.scan| {
          AdmitNextCounted(s, st, m);
        }
      case Receive(w) =>
        assert IsWork(s, st, w);
        ReceiveCounted(s, st, w, m);
      case Resolve(q) => ResolveCounted(s, st, q, m);
      case _ =>
    }
  }

  lemma KeepsCounted(s: Setup, st: State, a: Action)
    requires Static(s) && Placed(s, st) && StoreGrew(s, st) && TicketsFit(s, st) && Enabled(s, st, a) && Counted(s, st)
    ensures Do(s, st, a).scanned <= |s.scan| && Counted(s, Do(s, st, a))
  {
    var st' := Do(s, st, a);
    forall m ensures st'.scanned <= |s.scan| && Value(st'.report, m) == Total(s, st'.order, st'.tickets, st'.scanned, m) {
      KeepsCountedAt(s, st, a, m);
    }
    KeepsCountedAt(s, st, a, FilesSeen);
  }

  // ---------------------------------------------------------------------------
  // The store
  // ---------------------------------------------------------------------------

  predicate Read(stage: Stage) {
    stage.Held? || stage.Returned?
  }

  /** The store holds what it held and what was read, each file once read until its record is
      submitted and ever after. */
  ghost predicate Stored(s: Setup, st: State) {
    && (forall h :: h in s.cas ==> h in st.cas && st.cas[h] == s.cas[h])
    && (forall h :: h in st.cas ==> Belongs(s, h, st.cas[h]))
    && (forall w :: w in st.flight && Read(st.flight[w]) ==> w.candidate.content.digest in st.cas)
    && (forall n :: n in st.order && n < |s.scan| && !Skips(s, s.scan[n]) ==> s.scan[n].content.digest in st.cas)
  }

  lemma InstallStored(s: Setup, st: State, w: Work)
    requires Placed(s, st) && Stored(s, st) && Enabled(s, st, WorkerInstall(w))
    ensures Stored(s, Do(s, st, WorkerInstall(w)))
  {
    assert IsWork(s, st, w);
    var file := w.candidate.content;
    assert s.scan[w.sequence].content == file;
    assert file.digest !in st.cas ==> Belongs(s, file.digest, file);
  }

  lemma ReceiveStored(s: Setup, st: State, w: Work)
    requires Placed(s, st) && Stored(s, st) && Enabled(s, st, Receive(w))
    ensures Stored(s, Do(s, st, Receive(w)))
  {
    assert IsWork(s, st, w);
    assert forall n :: n in st.order + [w.sequence] <==> n in st.order || n == w.sequence;
  }

  lemma AdmitStored(s: Setup, st: State)
    requires Static(s) && Placed(s, st) && Stored(s, st) && Enabled(s, st, Admit)
    ensures Stored(s, Do(s, st, Admit))
  {
    if !st.scannerDone && |st.queue.pending| < SCHEDULER_CAPACITY && st.scanned < |s.scan| {
      AdmissionDecision(s, st);
      assert forall n :: n in st.order + [st.scanned] <==> n in st.order || n == st.scanned;
    }
  }

  lemma MoveStored(s: Setup, st: State, st': State)
    requires Stored(s, st) && st'.cas == st.cas && st'.order == st.order
    requires forall w :: w in st'.flight && Read(st'.flight[w]) ==> w in st.flight && Read(st.flight[w])
    ensures Stored(s, st')
  {
  }

  lemma DispatchStored(s: Setup, st: State)
    requires Stored(s, st) && Enabled(s, st, Executor.Dispatch)
    ensures Stored(s, Do(s, st, Executor.Dispatch))
  {
    MoveStored(s, st, Do(s, st, Executor.Dispatch));
  }

  lemma KeepsStored(s: Setup, st: State, a: Action)
    requires Static(s) && Placed(s, st) && Stored(s, st) && Enabled(s, st, a)
    ensures Stored(s, Do(s, st, a))
  {
    match a {
      case Admit => AdmitStored(s, st);
      case Receive(w) => ReceiveStored(s, st, w);
      case WorkerInstall(w) => InstallStored(s, st, w);
      case Dispatch => DispatchStored(s, st);
      case WorkerTake(w) => MoveStored(s, st, Do(s, st, a));
      case WorkerReturn(w) => MoveStored(s, st, Do(s, st, a));
      case _ =>
    }
  }

  // ---------------------------------------------------------------------------
  // Credit for created files
  // ---------------------------------------------------------------------------

  predicate Creates(stage: Stage) {
    Read(stage) && stage.outcome.Created?
  }

  function CreatedFiles(w: Work, stage: Stage): nat {
    if Creates(stage) then 1 else 0
  }

  function CreatedBytes(w: Work, stage: Stage): nat {
    if Creates(stage) then w.candidate.content.size else 0
  }

  /** A created file is credited once: to the worker that created it until its completion is
      received, to the report ever after. */
  ghost predicate Credited(s: Setup, st: State) {
    && st.report.blobsCreated + Sum(st.flight, CreatedFiles) + Sum(s.cas, FileCount) == Sum(st.cas, FileCount)
    && st.report.bytesWritten + Sum(st.flight, CreatedBytes) + Sum(s.cas, FileBytes) == Sum(st.cas, FileBytes)
    && st.report.blobsCreated + st.report.blobsReused == st.report.filesSkipped + st.report.filesHashed
  }

  lemma RestageSum(flight: map<Work, Stage>, w: Work, stage: Stage)
    requires w in flight
    ensures Sum(flight[w := stage], CreatedFiles) + CreatedFiles(w, flight[w]) == Sum(flight, CreatedFiles) + CreatedFiles(w, stage)
    ensures Sum(flight[w := stage], CreatedBytes) + CreatedBytes(w, flight[w]) == Sum(flight, CreatedBytes) + CreatedBytes(w, stage)
  {
    SumChange(flight, w, stage, CreatedFiles);
    SumChange(flight, w, stage, CreatedBytes);
  }

  lemma NewFileSum(cas: Cas, h: Hash, file: File)
    requires h !in cas
    ensures Sum(cas[h := file], FileCount) == Sum(cas, FileCount) + 1
    ensures Sum(cas[h := file], FileBytes) == Sum(cas, FileBytes) + file.size
  {
    SumAdd(cas, h, file, FileCount);
    SumAdd(cas, h, file, FileBytes);
  }

  lemma QueueSum(flight: map<Work, Stage>, w: Work)
    requires w !in flight
    ensures Sum(flight[w := Queued], CreatedFiles) == Sum(flight, CreatedFiles)
    ensures Sum(flight[w := Queued], CreatedBytes) == Sum(flight, CreatedBytes)
  {
    SumAdd(flight, w, Queued, CreatedFiles);
    SumAdd(flight, w, Queued, CreatedBytes);
  }

  lemma RemoveSum(flight: map<Work, Stage>, w: Work)
    requires w in flight
    ensures Sum(flight, CreatedFiles) == CreatedFiles(w, flight[w]) + Sum(flight - {w}, CreatedFiles)
    ensures Sum(flight, CreatedBytes) == CreatedBytes(w, flight[w]) + Sum(flight - {w}, CreatedBytes)
  {
    SumSplit(flight, w, CreatedFiles);
    SumSplit(flight, w, CreatedBytes);
  }

  lemma InstallCredited(s: Setup, st: State, w: Work)
    requires Credited(s, st) && Enabled(s, st, WorkerInstall(w))
    ensures Credited(s, Do(s, st, WorkerInstall(w)))
  {
    var file := w.candidate.content;
    RestageSum(st.flight, w, Do(s, st, WorkerInstall(w)).flight[w]);
    if file.digest !in st.cas {
      NewFileSum(st.cas, file.digest, file);
    }
  }

  lemma DispatchCredited(s: Setup, st: State)
    requires Placed(s, st) && Credited(s, st) && Enabled(s, st, Executor.Dispatch)
    ensures Credited(s, Do(s, st, Executor.Dispatch))
  {
    var choice := Choice(st.queue, s.limit);
    if choice.Some? && |QueuedJobs(st.flight)| < JOBS_CAPACITY {
      assert st.queue.pending[choice.value] in st.queue.pending;
      QueueSum(st.flight, st.queue.pending[choice.value]);
    }
  }

  lemma AdmitCredited(s: Setup, st: State)
    requires Credited(s, st) && Enabled(s, st, Admit)
    ensures Credited(s, Do(s, st, Admit))
  {
    if !st.scannerDone && |st.queue.pending| < SCHEDULER_CAPACITY && st.scanned < |s.scan| {
      AdmitNextCredited(s, st);
    }
  }

  lemma AdmitNextCredited(s: Setup, st: State)
    requires Credited(s, st) && st.scanned < |s.scan|
    ensures Credited(s, AdmitNext(s, st))
  {
    CreditUnmoved(s, st, AdmitNext(s, st));
  }

  lemma CreditUnmoved(s: Setup, st: State, st': State)
    requires Credited(s, st) && st'.flight == st.flight && st'.cas == st.cas
    requires st'.report.blobsCreated == st.report.blobsCreated && st'.report.bytesWritten == st.report.bytesWritten
    requires st'.report.filesHashed == st.report.filesHashed
    requires st'.report.blobsReused - st.report.blobsReused == st'.report.filesSkipped - st.report.filesSkipped
    ensures Credited(s, st')
  {
  }

  lemma ReceiveCredited(s: Setup, st: State, w: Work)
    requires Credited(s, st) && Enabled(s, st, Receive(w))
    ensures Credited(s, Do(s, st, Receive(w)))
  {
    RemoveSum(st.flight, w);
    assert Do(s, st, Receive(w)).flight == st.flight - {w};
  }

  lemma TakeCredited(s: Setup, st: State, w: Work)
    requires Credited(s, st) && Enabled(s, st, WorkerTake(w))
    ensures Credited(s, Do(s, st, WorkerTake(w)))
  {
    RestageSum(st.flight, w, Reading);
  }

  lemma ReturnCredited(s: Setup, st: State, w: Work)
    requires Credited(s, st) && Enabled(s, st, WorkerReturn(w))
    ensures Credited(s, Do(s, st, WorkerReturn(w)))
  {
    RestageSum(st.flight, w, Returned(st.flight[w].outcome));
  }

  lemma KeepsCredited(s: Setup, st: State, a: Action)
    requires Placed(s, st) && Credited(s, st) && Enabled(s, st, a)
    ensures Credited(s, Do(s, st, a))
  {
    match a {
      case Dispatch => DispatchCredited(s, st);
      case Admit => AdmitCredited(s, st);
      case Receive(w) => ReceiveCredited(s, st, w);
      case WorkerTake(w) => TakeCredited(s, st, w);
      case WorkerInstall(w) => InstallCredited(s, st, w);
      case WorkerReturn(w) => ReturnCredited(s, st, w);
      case _ =>
    }
  }
}
