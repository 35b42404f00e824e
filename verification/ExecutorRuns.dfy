/** What every run of the import executor guarantees, whatever the interleaving. */
module ExecutorRuns {
  import opened Domain
  import opened Catalog
  import opened Scheduler
  import opened ImportLog
  import opened Executor
  import opened ExecutorPlaces
  import opened ImportReport
  import opened ExecutorReport
  import opened MapSum

  /** A ticket stays open at least until its record is committed. */
  ghost predicate Awaited(st: State) {
    && |st.order| == |st.log|
    && (forall k :: st.committed <= k < |st.order| ==> st.order[k] in st.tickets)
  }

  ghost predicate Orderly(s: Setup, st: State) {
    Placed(s, st) && Stored(s, st)
  }

  ghost predicate Inv(s: Setup, st: State) {
    Orderly(s, st) && Flow(s, st) && Counted(s, st) && Credited(s, st) && Awaited(st)
  }

  lemma InitialInv(s: Setup)
    requires Static(s)
    ensures Inv(s, Initial(s))
  {
    InitialFlow(s);
    forall h | h in s.cas ensures Belongs(s, h, s.cas[h]) {
    }
  }

  lemma IndexIsUnique(order: seq<nat>, k: nat, q: nat)
    requires Distinct(order) && k < |order| && order[k] == q
    ensures forall j :: 0 <= j < |order| && order[j] == q ==> j == k
  {
  }

  lemma ResolveKeepsAwaited(s: Setup, st: State, q: nat)
    requires Distinct(st.order) && Awaited(st) && Enabled(s, st, Resolve(q))
    ensures Awaited(Do(s, st, Resolve(q)))
  {
    var k :| 0 <= k < st.committed && st.order[k] == q;
    IndexIsUnique(st.order, k, q);
  }

  lemma AdmitKeepsAwaited(s: Setup, st: State)
    requires Awaited(st) && st.scanned < |s.scan|
    ensures Awaited(AdmitNext(s, st))
  {
  }

  lemma ReceiveKeepsAwaited(s: Setup, st: State, w: Work)
    requires Awaited(st) && Enabled(s, st, Receive(w))
    ensures Awaited(Do(s, st, Receive(w)))
  {
  }

  lemma KeepsAwaited(s: Setup, st: State, a: Action)
    requires Distinct(st.order) && Awaited(st) && Enabled(s, st, a)
    ensures Awaited(Do(s, st, a))
  {
    match a {
      case Resolve(q) => ResolveKeepsAwaited(s, st, q);
      case Receive(w) => ReceiveKeepsAwaited(s, st, w);
      case Admit =>
        if !st.scannerDone && |st.queue.pending| < SCHEDULER_CAPACITY && st.scanned < |s.scan| {
          AdmitKeepsAwaited(s, st);
        }
      case _ =>
    }
  }

  lemma StepKeepsOrderly(s: Setup, st: State, a: Action)
    requires Static(s) && Orderly(s, st) && Enabled(s, st, a)
    ensures Orderly(s, Do(s, st, a))
  {
    KeepsPlaced(s, st, a);
    KeepsStored(s, st, a);
  }

  lemma StepKeepsCredit(s: Setup, st: State, a: Action)
    requires Placed(s, st) && Credited(s, st) && Awaited(st) && Enabled(s, st, a)
    ensures Credited(s, Do(s, st, a)) && Awaited(Do(s, st, a))
  {
    KeepsCredited(s, st, a);
    KeepsAwaited(s, st, a);
  }

  lemma StepKeepsInv(s: Setup, st: State, a: Action)
    requires Static(s) && Inv(s, st) && Enabled(s, st, a)
    ensures Inv(s, Do(s, st, a))
  {
    StepKeepsOrderly(s, st, a);
    StepKeepsFlow(s, st, a);
    KeepsCounted(s, st, a);
    StepKeepsCredit(s, st, a);
  }

  lemma {:induction false} RunKeepsInv(s: Setup, st: State, actions: seq<Action>)
    requires Static(s) && Inv(s, st) && Steps(s, st, actions)
    ensures Inv(s, RunOf(s, st, actions))
    decreases |actions|
  {
    if actions != [] {
      StepKeepsInv(s, st, actions[0]);
      RunKeepsInv(s, Do(s, st, actions[0]), actions[1..]);
    }
  }

  ghost predicate Reachable(s: Setup, st: State) {
    exists actions :: Steps(s, Initial(s), actions) && RunOf(s, Initial(s), actions) == st
  }

  lemma {:induction false} RunKeepsFlow(s: Setup, st: State, actions: seq<Action>)
    requires Runnable(s) && Flow(s, st) && Steps(s, st, actions)
    ensures Flow(s, RunOf(s, st, actions))
    decreases |actions|
  {
    if actions != [] {
      StepKeepsFlow(s, st, actions[0]);
      RunKeepsFlow(s, Do(s, st, actions[0]), actions[1..]);
    }
  }

  lemma ReachableFlow(s: Setup, st: State)
    requires Runnable(s) && Reachable(s, st)
    ensures Flow(s, st)
  {
    var actions :| Steps(s, Initial(s), actions) && RunOf(s, Initial(s), actions) == st;
    InitialFlow(s);
    RunKeepsFlow(s, Initial(s), actions);
  }

  lemma ReachableInv(s: Setup, st: State)
    requires Static(s) && Reachable(s, st)
    ensures Inv(s, st)
  {
    var actions :| Steps(s, Initial(s), actions) && RunOf(s, Initial(s), actions) == st;
    InitialInv(s);
    RunKeepsInv(s, Initial(s), actions);
  }

  // ---------------------------------------------------------------------------
  // Accounting and bounds
  // ---------------------------------------------------------------------------

  function PendingOf(pending: seq<Work>, m: Mount): nat {
    if pending == [] then 0
    else PendingOf(pending[1..], m) + if pending[0].candidate.mount == m then 1 else 0
  }

  lemma {:induction false} PendingOfFits(pending: seq<Work>, m: Mount)
    ensures PendingOf(pending, m) <= |pending|
  {
    if pending != [] {
      PendingOfFits(pending[1..], m);
    }
  }

  /** Completed but unreceived: held by a worker or in the completion channel. */
  function Completed(flight: map<Work, Stage>): set<Work> {
    set w | w in flight && (flight[w].Held? || flight[w].Returned?)
  }

  lemma CompletedFits(flight: map<Work, Stage>)
    requires Slots(flight)
    ensures |Completed(flight)| <= WORKERS + COMPLETIONS_CAPACITY
  {
    SubsetSize(Completed(flight), BusyJobs(flight) + ReturnedJobs(flight));
  }

  /** A configured limit above the number of workers is no limit of its own. */
  function EffectiveWorkersPerMount(configured: nat): nat {
    if configured < WORKERS then configured else WORKERS
  }

  /** In every reachable state: `active` is exactly the number of files queued, being read or
      completed but not received, and every queue is within its bound. */
  lemma EveryStateIsBounded(s: Setup, st: State, m: Mount, configured: nat)
    requires Runnable(s) && Reachable(s, st) && configured > 0 && s.limit == EffectiveWorkersPerMount(configured)
    ensures ActiveOf(st.queue.active, m) == |FlightOf(st.flight, m)| <= s.limit
    ensures s.limit <= configured && s.limit <= WORKERS
    ensures |st.queue.pending| <= SCHEDULER_CAPACITY
    ensures PendingOf(st.queue.pending, m) + ActiveOf(st.queue.active, m) <= SCHEDULER_CAPACITY + s.limit
    ensures |st.tickets| <= s.maxOutstanding
    ensures |BusyJobs(st.flight)| <= WORKERS && |Completed(st.flight)| <= WORKERS + COMPLETIONS_CAPACITY
  {
    ReachableFlow(s, st);
    PendingOfFits(st.queue.pending, m);
    CompletedFits(st.flight);
  }

  /** The coordinator blocks on completions only while a file is in flight. */
  lemma NeverWaitsForNothing(s: Setup, st: State)
    requires Runnable(s) && Reachable(s, st) && st.pc.Receiving?
    ensures exists w :: w in st.flight
  {
    ReachableFlow(s, st);
    assert st.flight != map[];
  }

  // ---------------------------------------------------------------------------
  // Durability and acceptance
  // ---------------------------------------------------------------------------

  lemma RecordsAreInstalled(s: Setup, st: State, r: Request)
    requires Static(s) && Placed(s, st) && Stored(s, st) && r in st.log
    ensures Installed(st.cas, r)
  {
    var k :| 0 <= k < |st.log| && st.log[k] == r;
    var n := st.order[k];
    if r.Imported? {
      var file := s.scan[n].content;
      assert n in st.order && !Skips(s, s.scan[n]);
      assert Belongs(s, file.digest, st.cas[file.digest]);
      if file.digest !in s.cas {
        assert Belongs(s, file.digest, file);
        BelongsOnce(s, file.digest, file, st.cas[file.digest]);
      }
    }
  }

  /** The process may die in any reachable state: what is committed is durable. */
  lemma EveryStateIsDurable(s: Setup, st: State)
    requires Static(s) && Reachable(s, st)
    ensures Durable(LiveTables(s, st), st.cas)
  {
    ReachableInv(s, st);
    LiveTablesFollow(s, st);
    MoreFilesKeepDurable(s.tables, s.cas, st.cas);
    forall r | r in st.log[..st.committed] ensures Installed(st.cas, r) {
      assert r in st.log;
      RecordsAreInstalled(s, st, r);
    }
    ApplyAllKeepsDurable(s.tables, st.cas, st.log[..st.committed]);
  }

  /** No record is ever refused: in particular a known-source update never misses its row. */
  lemma EveryRecordIsAccepted(s: Setup, st: State)
    requires Static(s) && Reachable(s, st)
    ensures ApplyAll(s.tables, st.log).Ok?
  {
    ReachableInv(s, st);
    LogApplies(s, st.order, st.log);
  }

  // ---------------------------------------------------------------------------
  // The result does not depend on the schedule
  // ---------------------------------------------------------------------------

  /** Every candidate was submitted exactly once, under its own sequence, and committed. */
  lemma FinishedIsComplete(s: Setup, st: State)
    requires Static(s) && Reachable(s, st) && st.pc.Finished?
    ensures Distinct(st.order) && |st.order| == |st.log| == st.committed == |s.scan|
    ensures forall n :: 0 <= n < |s.scan| <==> n in st.order
    ensures forall r :: r in st.log <==> exists n :: 0 <= n < |s.scan| && r == RecordOf(s, s.scan[n])
  {
    ReachableInv(s, st);
    EverythingScannedIsSubmitted(s, st);
    NothingAwaited(st.order, st.committed, st.tickets);
    CoversMeansLength(st.order, |s.scan|);
    CompleteLog(s, st.order, st.log);
  }

  lemma EverythingScannedIsSubmitted(s: Setup, st: State)
    requires Placed(s, st) && st.scannerDone && st.queue.pending == [] && st.flight == map[]
    ensures forall n :: 0 <= n < |s.scan| <==> n in st.order
  {
  }

  lemma NothingAwaited(order: seq<nat>, committed: nat, tickets: map<nat, Request>)
    requires forall k :: committed <= k < |order| ==> order[k] in tickets
    ensures committed < |order| ==> tickets != map[]
  {
    if committed < |order| {
      assert order[committed] in tickets;
    }
  }

  lemma CompleteLog(s: Setup, order: seq<nat>, log: seq<Request>)
    requires LogOf(s, order, log) && forall n :: 0 <= n < |s.scan| <==> n in order
    ensures forall r :: r in log <==> exists n :: 0 <= n < |s.scan| && r == RecordOf(s, s.scan[n])
  {
    forall n | 0 <= n < |s.scan| ensures RecordOf(s, s.scan[n]) in log {
      assert n in order;
      var k :| 0 <= k < |order| && order[k] == n;
      assert log[k] == RecordOf(s, s.scan[n]);
    }
    forall r | r in log ensures exists n :: 0 <= n < |s.scan| && r == RecordOf(s, s.scan[n]) {
      var k :| 0 <= k < |log| && log[k] == r;
      assert 0 <= order[k] < |s.scan|;
    }
  }

  lemma HasNoFirst(order: seq<nat>)
    ensures order == [] || exists k :: k in order
  {
    if order != [] {
      assert order[0] in order;
    }
  }

  lemma {:induction false} CoversMeansLength(order: seq<nat>, n: nat)
    requires Distinct(order) && forall k :: 0 <= k < n <==> k in order
    ensures |order| == n
    decreases n
  {
    if n == 0 {
      HasNoFirst(order);
    } else {
      assert n - 1 in order;
      var k :| 0 <= k < |order| && order[k] == n - 1;
      var rest := order[..k] + order[k + 1..];
      assert order == order[..k] + [n - 1] + order[k + 1..];
      assert forall j :: j in order <==> j in rest || j == n - 1;
      forall j | j in rest ensures j != n - 1 {
        var i :| 0 <= i < |rest| && rest[i] == j;
        assert rest[i] == order[if i < k then i else i + 1];
      }
      CoversMeansLength(rest, n - 1);
    }
  }

  lemma FinishedStore(s: Setup, st: State)
    requires Static(s) && Reachable(s, st) && st.pc.Finished?
    ensures st.cas == CasAfter(s, |s.scan|)
  {
    ReachableInv(s, st);
    FinishedIsComplete(s, st);
    StoreIsDetermined(s, st.cas);
  }

  lemma ClosedReport(s: Setup, st: State)
    requires st.scanned == |s.scan| && Counted(s, st) && st.tickets == map[]
    requires forall n :: 0 <= n < |s.scan| ==> n in st.order
    ensures forall m :: Value(st.report, m) == Closed(s, |s.scan|, m)
  {
    forall m ensures Value(st.report, m) == Closed(s, |s.scan|, m) {
      AllResolved(s, st.order, st.tickets, |s.scan|, m);
    }
  }

  lemma CreditedReport(s: Setup, st: State)
    requires Credited(s, st) && st.flight == map[] && st.cas == CasAfter(s, |s.scan|)
    requires forall m :: Value(st.report, m) == Closed(s, |s.scan|, m)
    ensures IsReportOf(s, st.report)
  {
    ClosedBalances(s, |s.scan|);
    assert Value(st.report, FilesSkipped) == Closed(s, |s.scan|, FilesSkipped);
    assert Value(st.report, FilesHashed) == Closed(s, |s.scan|, FilesHashed);
  }

  lemma FinishedReport(s: Setup, st: State)
    requires Static(s) && Reachable(s, st) && st.pc.Finished?
    ensures IsReportOf(s, st.report)
  {
    ReachableInv(s, st);
    FinishedIsComplete(s, st);
    FinishedStore(s, st);
    ClosedReport(s, st);
    CreditedReport(s, st);
  }

  /** Any two complete runs of one import leave the same store, the same catalog and the same
      report, and the report accounts for every file. */
  lemma ScheduleDoesNotMatter(s: Setup, a: State, b: State)
    requires Static(s) && Reachable(s, a) && Reachable(s, b) && a.pc.Finished? && b.pc.Finished?
    ensures a.cas == b.cas && LiveTables(s, a) == LiveTables(s, b) && a.report == b.report
    ensures var r := a.report;
      && r.filesSeen == |s.scan| == r.filesSkipped + r.filesHashed == r.blobsCreated + r.blobsReused
      && r.filesSeen == r.recordsInserted + r.recordsUpdated
      && r.bytesSeen == r.bytesSkipped + r.bytesHashed
  {
    FinishedStore(s, a);
    FinishedStore(s, b);
    FinishedReport(s, a);
    FinishedReport(s, b);
    OneReport(s, a.report, b.report);
    ReportBalances(s, a.report);
    SameCatalog(s, a, b);
  }

  lemma FinishedTables(s: Setup, st: State)
    requires Static(s) && Reachable(s, st) && st.pc.Finished?
    ensures TablesFollow(s, st.log, LiveTables(s, st))
  {
    ReachableInv(s, st);
    FinishedIsComplete(s, st);
    LiveTablesFollow(s, st);
    assert st.log[..st.committed] == st.log;
  }

  lemma SameCatalog(s: Setup, a: State, b: State)
    requires Static(s) && Reachable(s, a) && Reachable(s, b) && a.pc.Finished? && b.pc.Finished?
    ensures LiveTables(s, a) == LiveTables(s, b)
  {
    FinishedIsComplete(s, a);
    FinishedIsComplete(s, b);
    FinishedTables(s, a);
    FinishedTables(s, b);
    forall r ensures r in a.log <==> r in b.log {
    }
    SameRecordsSameTables(s, a.log, b.log, LiveTables(s, a), LiveTables(s, b));
  }

  // ---------------------------------------------------------------------------
  // Creation
  // ---------------------------------------------------------------------------

  /** How often a run reports having created the file of hash `h`. */
  ghost function Creations(s: Setup, st: State, actions: seq<Action>, h: Hash): nat
    requires Steps(s, st, actions)
    decreases |actions|
  {
    if actions == [] then 0
    else
      var st' := Do(s, st, actions[0]);
      Creations(s, st', actions[1..], h) +
      if actions[0].WorkerInstall? && actions[0].work.candidate.content.digest == h
         && st'.flight[actions[0].work] == Held(Created) then 1 else 0
  }

  /** A hash that the store did not hold is created exactly once, however many workers read its
      content; a hash that it held is never created again; and no file is overwritten. */
  lemma {:induction false} CreatedExactlyOnce(s: Setup, st: State, actions: seq<Action>, h: Hash)
    requires Steps(s, st, actions)
    ensures Creations(s, st, actions, h) == (if h !in st.cas && h in RunOf(s, st, actions).cas then 1 else 0)
    ensures h in st.cas ==> h in RunOf(s, st, actions).cas && RunOf(s, st, actions).cas[h] == st.cas[h]
    decreases |actions|
  {
    if actions != [] {
      CreatedExactlyOnce(s, Do(s, st, actions[0]), actions[1..], h);
    }
  }

  // ---------------------------------------------------------------------------
  // Progress and termination
  // ---------------------------------------------------------------------------

  lemma CommittedIsAnswered(s: Setup, st: State, q: nat)
    requires ApplyAll(s.tables, st.log).Ok? && st.committed == |st.log| == |st.order| && q in st.order
    ensures TicketOutcome(s, st, q).Some?
  {
    assert st.log[..st.committed] == st.log;
    var k :| 0 <= k < |st.order| && st.order[k] == q;
  }

  /** A waiting coordinator is woken: the writer can commit, or the oldest ticket is answered. */
  lemma TicketsProgress(s: Setup, st: State) returns (a: Action)
    requires Static(s) && LogOf(s, st.order, st.log) && TicketsFit(s, st) && st.tickets != map[]
    requires st.committed <= |st.log|
    requires st.pc.Draining? || (st.pc.Trimming? && |st.tickets| >= s.maxOutstanding)
    ensures Enabled(s, st, a)
  {
    if st.committed < |st.log| {
      a := WriterCommit(|st.log|);
    } else {
      assert st.tickets.Keys != {};
      var q := Least(st.tickets.Keys);
      LogApplies(s, st.order, st.log);
      CommittedIsAnswered(s, st, q);
      a := Resolve(q);
    }
  }

  /** No worker finds a file of another size in the way. */
  lemma ReadsInstall(s: Setup, st: State, w: Work)
    requires Static(s) && Placed(s, st) && Stored(s, st) && w in st.flight
    ensures Installs(st.cas, w.candidate)
  {
    var c := w.candidate;
    assert c == s.scan[w.sequence];
    if c.content.digest in st.cas {
      assert Belongs(s, c.content.digest, st.cas[c.content.digest]);
    }
  }

  /** Whatever the files in flight wait for, one of them can move. */
  lemma FlightProgress(s: Setup, st: State) returns (a: Action)
    requires Static(s) && Placed(s, st) && Stored(s, st)
    requires st.pc.Receiving? && st.flight != map[]
    ensures Enabled(s, st, a)
  {
    var w :| w in st.flight;
    if r :| r in st.flight && st.flight[r].Returned? {
      a := Receive(r);
    } else if r :| r in st.flight && st.flight[r].Held? {
      assert ReturnedJobs(st.flight) == {};
      a := WorkerReturn(r);
    } else if r :| r in st.flight && st.flight[r].Reading? {
      ReadsInstall(s, st, r);
      a := WorkerInstall(r);
    } else {
      assert BusyJobs(st.flight) == {};
      a := WorkerTake(w);
    }
  }

  /** No reachable state is stuck. */
  lemma Progress(s: Setup, st: State) returns (a: Action)
    requires Static(s) && Reachable(s, st) && !st.pc.Finished?
    ensures Enabled(s, st, a)
  {
    ReachableInv(s, st);
    match st.pc {
      case Dispatching => a := Executor.Dispatch;
      case Admitting => a := Admit;
      case Receiving => a := FlightProgress(s, st);
      case Trimming =>
        if |st.tickets| < s.maxOutstanding {
          a := Trim;
        } else {
          a := TicketsProgress(s, st);
        }
      case Draining =>
        if st.tickets == map[] {
          a := Finish;
        } else {
          a := TicketsProgress(s, st);
        }
    }
  }

  function StageWeight(w: Work, stage: Stage): nat {
    match stage
    case Queued => 25
    case Reading => 20
    case Held(_) => 15
    case Returned(_) => 10
  }

  function PcRank(pc: Pc): nat {
    match pc
    case Trimming => 4
    case Dispatching => 3
    case Admitting => 2
    case Receiving => 1
    case Draining => 1
    case Finished => 0
  }

  /** An upper bound on the steps that are left. */
  ghost function Measure(s: Setup, st: State): int {
    40 * (|s.scan| - st.scanned) + (if st.scannerDone then 0 else 40) + 30 * |st.queue.pending|
    + Sum(st.flight, StageWeight) + |st.tickets| + (|st.log| - st.committed) + PcRank(st.pc)
  }

  lemma RestageWeight(flight: map<Work, Stage>, w: Work, stage: Stage)
    requires w in flight && StageWeight(w, stage) < StageWeight(w, flight[w])
    ensures Sum(flight[w := stage], StageWeight) < Sum(flight, StageWeight)
  {
    SumChange(flight, w, stage, StageWeight);
  }

  lemma DispatchDecreases(s: Setup, st: State)
    requires Apart(s, st) && Enabled(s, st, Executor.Dispatch)
    ensures Measure(s, Do(s, st, Executor.Dispatch)) < Measure(s, st)
  {
    var choice := Choice(st.queue, s.limit);
    if choice.Some? && |QueuedJobs(st.flight)| < JOBS_CAPACITY {
      var w := st.queue.pending[choice.value];
      assert w in st.queue.pending;
      SumAdd(st.flight, w, Queued, StageWeight);
    }
  }

  lemma ReceiveDecreases(s: Setup, st: State, w: Work)
    requires Enabled(s, st, Receive(w))
    ensures Measure(s, Do(s, st, Receive(w))) < Measure(s, st)
  {
    SumSplit(st.flight, w, StageWeight);
    SubsetSize(st.tickets[w.sequence := ReadRecord(s, w)].Keys, st.tickets.Keys + {w.sequence});
  }

  lemma AdmitDecreases(s: Setup, st: State)
    requires Enabled(s, st, Admit)
    ensures Measure(s, Do(s, st, Admit)) < Measure(s, st)
  {
    if !st.scannerDone && |st.queue.pending| < SCHEDULER_CAPACITY && st.scanned < |s.scan| {
      AdmitNextDecreases(s, st);
    }
  }

  lemma AdmitNextDecreases(s: Setup, st: State)
    requires st.scanned < |s.scan| && st.pc.Admitting?
    ensures Measure(s, AdmitNext(s, st)) < Measure(s, st)
  {
    SubsetSize(AdmitNext(s, st).tickets.Keys, st.tickets.Keys + {st.scanned});
  }

  lemma ResolveDecreases(s: Setup, st: State, q: nat)
    requires Enabled(s, st, Resolve(q))
    ensures Measure(s, Do(s, st, Resolve(q))) < Measure(s, st)
  {
    assert (st.tickets - {q}).Keys == st.tickets.Keys - {q};
  }

  /** Every step, of any participant, brings the end nearer. */
  lemma StepDecreases(s: Setup, st: State, a: Action)
    requires Apart(s, st) && Enabled(s, st, a)
    ensures Measure(s, Do(s, st, a)) < Measure(s, st)
  {
    match a {
      case Dispatch => DispatchDecreases(s, st);
      case Admit => AdmitDecreases(s, st);
      case Receive(w) => ReceiveDecreases(s, st, w);
      case Resolve(q) => ResolveDecreases(s, st, q);
      case WorkerTake(w) => RestageWeight(st.flight, w, Reading);
      case WorkerInstall(w) => RestageWeight(st.flight, w, Do(s, st, a).flight[w]);
      case WorkerReturn(w) => RestageWeight(st.flight, w, Returned(st.flight[w].outcome));
      case _ =>
    }
  }

  lemma {:induction false} RunsEnd(s: Setup, st: State, actions: seq<Action>)
    requires Runnable(s) && Flow(s, st) && Steps(s, st, actions)
    ensures |actions| + Measure(s, RunOf(s, st, actions)) <= Measure(s, st)
    decreases |actions|
  {
    if actions != [] {
      StepDecreases(s, st, actions[0]);
      StepKeepsFlow(s, st, actions[0]);
      RunsEnd(s, Do(s, st, actions[0]), actions[1..]);
    }
  }

  /** A run over a finite scan ends: no run is longer than forty steps for each file and for
      the end of the scan, and three more. */
  lemma RunsAreFinite(s: Setup, actions: seq<Action>)
    requires Runnable(s) && Steps(s, Initial(s), actions)
    ensures |actions| <= 40 * (|s.scan| + 1) + 3
  {
    InitialFlow(s);
    RunsEnd(s, Initial(s), actions);
    var end := RunOf(s, Initial(s), actions);
    RunKeepsFlow(s, Initial(s), actions);
    assert Measure(s, end) >= 0;
  }
}
