/** Imports into any store, damaged ones included: what is skipped, what a finished import has
    put back, and what the next import finds. */
module ImportRepair {
  import opened Domain
  import opened Catalog
  import opened Scheduler
  import opened ImportLog
  import opened Executor
  import opened ExecutorPlaces
  import opened ExecutorReport
  import opened ExecutorRuns

  /** A scan yields every path once. */
  ghost predicate UniquePaths(s: Setup) {
    forall i, j :: 0 <= i < j < |s.scan| ==> s.scan[i].path != s.scan[j].path
  }

  /** Admission, for every catalog and every store: the file is submitted as known exactly when
      the catalog that is committed knows it unchanged and the store holds its blob at its size;
      otherwise it is queued to be read. */
  lemma AdmissionIsExact(s: Setup, st: State)
    requires st.scanned < |s.scan|
    ensures var c, t, st' := s.scan[st.scanned], LiveTables(s, st), AdmitNext(s, st);
      if KnownUnchanged(s, t, c) && HasFile(st.cas, t.sources[KeyOf(s, c)].hash, c.size)
      then
        && st'.queue == st.queue && st'.order == st.order + [st.scanned]
        && st'.log == st.log + [Known(ObservationOf(s, c, t.sources[KeyOf(s, c)].hash), c.size)]
      else
        && st'.queue == st.queue.(pending := st.queue.pending + [Work(st.scanned, c)])
        && st'.order == st.order && st'.log == st.log
  {
    DecisionIsExact(s, LiveTables(s, st), st.cas, s.scan[st.scanned]);
  }

  // ---------------------------------------------------------------------------
  // Places, without any assumption about the store
  // ---------------------------------------------------------------------------

  predicate IsScanned(s: Setup, scanned: nat, w: Work) {
    w.sequence < scanned <= |s.scan| && w == WorkAt(s, w.sequence)
  }

  /** Pending, in flight and submitted exclude each other and cover everything scanned. */
  ghost predicate Located(s: Setup, st: State) {
    && st.scanned <= |s.scan| && (st.scannerDone ==> st.scanned == |s.scan|)
    && Distinct(st.queue.pending) && Distinct(st.order)
    && (forall w :: w in st.queue.pending ==> IsScanned(s, st.scanned, w) && w !in st.flight && w.sequence !in st.order)
    && (forall w :: w in st.flight ==> IsScanned(s, st.scanned, w) && w.sequence !in st.order)
    && (forall n :: 0 <= n < st.scanned ==> n in st.order || WorkAt(s, n) in st.queue.pending || WorkAt(s, n) in st.flight)
    && (forall n :: n in st.order ==> n < st.scanned)
    && |st.order| == |st.log| && st.committed <= |st.log|
  }

  lemma SubmitLocated(s: Setup, st: State, st': State)
    requires Located(s, st) && st.scanned < |s.scan|
    requires st'.scanned == st.scanned + 1 && st'.scannerDone == st.scannerDone == false
    requires st'.queue.pending == st.queue.pending && st'.flight == st.flight && st'.committed == st.committed
    requires st'.order == st.order + [st.scanned] && |st'.log| == |st.log| + 1
    ensures Located(s, st')
  {
    assert st.scanned !in st.order;
    assert forall n :: n in st'.order <==> n in st.order || n == st.scanned;
  }

  lemma QueueLocated(s: Setup, st: State, st': State)
    requires Located(s, st) && st.scanned < |s.scan|
    requires st'.scanned == st.scanned + 1 && st'.scannerDone == st.scannerDone == false
    requires st'.queue.pending == st.queue.pending + [WorkAt(s, st.scanned)] && st'.flight == st.flight
    requires st'.order == st.order && st'.log == st.log && st'.committed == st.committed
    ensures Located(s, st')
  {
    var w := WorkAt(s, st.scanned);
    assert forall x :: x in st'.queue.pending <==> x in st.queue.pending || x == w;
    assert w !in st.queue.pending && w !in st.flight && w.sequence !in st.order;
  }

  lemma ReceiveLocated(s: Setup, st: State, w: Work, st': State)
    requires Located(s, st) && w in st.flight
    requires st'.scanned == st.scanned && st'.scannerDone == st.scannerDone && st'.committed == st.committed
    requires st'.queue.pending == st.queue.pending && st'.flight == st.flight - {w}
    requires st'.order == st.order + [w.sequence] && |st'.log| == |st.log| + 1
    ensures Located(s, st')
  {
    assert forall n :: n in st'.order <==> n in st.order || n == w.sequence;
    forall x | x in st'.flight ensures x.sequence != w.sequence {
      assert x == WorkAt(s, x.sequence) && w == WorkAt(s, w.sequence);
    }
    forall x | x in st.queue.pending ensures x.sequence != w.sequence {
      assert x == WorkAt(s, x.sequence) && w == WorkAt(s, w.sequence);
    }
  }

  lemma DispatchLocated(s: Setup, st: State, i: nat, st': State)
    requires Located(s, st) && i < |st.queue.pending|
    requires st'.scanned == st.scanned && st'.scannerDone == st.scannerDone && st'.committed == st.committed
    requires st'.queue.pending == Without(st.queue.pending, i) && st'.flight == st.flight[st.queue.pending[i] := Queued]
    requires st'.order == st.order && st'.log == st.log
    ensures Located(s, st')
  {
    var p, w := st.queue.pending, st.queue.pending[i];
    assert p == p[..i] + [w] + p[i + 1..];
    assert forall x :: x in p <==> x in st'.queue.pending || x == w;
    assert w !in st'.queue.pending;
  }

  lemma RestageLocated(s: Setup, st: State, st': State)
    requires Located(s, st)
    requires st'.scanned == st.scanned && (st'.scannerDone ==> st'.scanned == |s.scan|)
    requires st'.queue.pending == st.queue.pending && st'.flight.Keys == st.flight.Keys
    requires st'.order == st.order && st'.log == st.log && st'.committed <= |st.log|
    ensures Located(s, st')
  {
    assert forall x :: x in st'.flight <==> x in st.flight.Keys;
  }

  lemma AdmitNextLocated(s: Setup, st: State)
    requires Located(s, st) && st.scanned < |s.scan| && !st.scannerDone
    ensures Located(s, AdmitNext(s, st))
  {
    if Decide(s, LiveTables(s, st), st.cas, s.scan[st.scanned]).SkipContent? {
      SubmitLocated(s, st, AdmitNext(s, st));
    } else {
      QueueLocated(s, st, AdmitNext(s, st));
    }
  }

  lemma AdmitLocated(s: Setup, st: State)
    requires Located(s, st) && Enabled(s, st, Admit)
    ensures Located(s, Do(s, st, Admit))
  {
    if !st.scannerDone && |st.queue.pending| < SCHEDULER_CAPACITY && st.scanned < |s.scan| {
      AdmitNextLocated(s, st);
    } else {
      RestageLocated(s, st, Do(s, st, Admit));
    }
  }

  lemma DispatchKeepsLocated(s: Setup, st: State)
    requires Located(s, st) && Enabled(s, st, Executor.Dispatch)
    ensures Located(s, Do(s, st, Executor.Dispatch))
  {
    var choice := Choice(st.queue, s.limit);
    if choice.None? || |QueuedJobs(st.flight)| >= JOBS_CAPACITY {
      RestageLocated(s, st, Do(s, st, Executor.Dispatch));
    } else {
      DispatchLocated(s, st, choice.value, Do(s, st, Executor.Dispatch));
    }
  }

  lemma KeepsLocated(s: Setup, st: State, a: Action)
    requires Located(s, st) && Enabled(s, st, a)
    ensures Located(s, Do(s, st, a))
  {
    match a {
      case Dispatch => DispatchKeepsLocated(s, st);
      case Admit => AdmitLocated(s, st);
      case Receive(w) => ReceiveKeepsLocated(s, st, w);
      case WorkerTake(w) => WorkerKeepsLocated(s, st, w, Do(s, st, a));
      case WorkerInstall(w) => WorkerKeepsLocated(s, st, w, Do(s, st, a));
      case WorkerReturn(w) => WorkerKeepsLocated(s, st, w, Do(s, st, a));
      case _ => RestageLocated(s, st, Do(s, st, a));
    }
  }

  lemma ReceiveKeepsLocated(s: Setup, st: State, w: Work)
    requires Located(s, st) && Enabled(s, st, Receive(w))
    ensures Located(s, Do(s, st, Receive(w)))
  {
    ReceiveLocated(s, st, w, Do(s, st, Receive(w)));
  }

  lemma WorkerKeepsLocated(s: Setup, st: State, w: Work, st': State)
    requires Located(s, st) && w in st.flight && w in st'.flight
    requires st'.flight == st.flight[w := st'.flight[w]] && st' == st.(flight := st'.flight, cas := st'.cas)
    ensures Located(s, st')
  {
    assert st'.flight.Keys == st.flight.Keys;
    RestageLocated(s, st, st');
  }

  // ---------------------------------------------------------------------------
  // Rows that a log leaves alone, and rows that it writes
  // ---------------------------------------------------------------------------

  ghost predicate SameRow(t: Tables, u: Tables, k: SourceKey) {
    (k in t.sources <==> k in u.sources) && (k in t.sources ==> t.sources[k] == u.sources[k])
  }

  lemma {:induction false} UntouchedRow(t: Tables, log: seq<Request>, k: SourceKey)
    requires ApplyAll(t, log).Ok? && forall i :: 0 <= i < |log| ==> log[i].observation.key != k
    ensures SameRow(t, ApplyAll(t, log).value.0, k)
  {
    if log != [] {
      var n := |log| - 1;
      UntouchedRow(t, log[..n], k);
      ApplyRequestMeaning(ApplyAll(t, log[..n]).value.0, log[n]);
    }
  }

  /** Every source row still names a blob row of its size. */
  lemma {:induction false} LogKeepsRowsAgree(t: Tables, log: seq<Request>)
    requires RowsAgree(t) && ApplyAll(t, log).Ok?
    ensures RowsAgree(ApplyAll(t, log).value.0)
  {
    if log != [] {
      var n := |log| - 1;
      LogKeepsRowsAgree(t, log[..n]);
      RecordKeepsRowsAgree(ApplyAll(t, log[..n]).value.0, log[n]);
    }
  }

  lemma RecordKeepsRowsAgree(t: Tables, r: Request)
    requires RowsAgree(t) && ApplyRequest(t, r).Ok?
    ensures RowsAgree(ApplyRequest(t, r).value.0)
  {
    ApplyRequestMeaning(t, r);
  }

  /** The row of a record that no later record is about is the one the record wrote. */
  lemma {:induction false} WrittenRow(t: Tables, log: seq<Request>, i: nat)
    requires ApplyAll(t, log).Ok? && i < |log|
    requires forall k :: 0 <= k < |log| && k != i ==> log[k].observation.key != log[i].observation.key
    ensures var o, u := log[i].observation, ApplyAll(t, log).value.0;
      o.key in u.sources && u.sources[o.key].hash == o.hash && u.sources[o.key].size == o.size && u.sources[o.key].mtime == o.mtime
  {
    var n := |log| - 1;
    ApplyRequestMeaning(ApplyAll(t, log[..n]).value.0, log[n]);
    if i < n {
      WrittenRow(t, log[..n], i);
    }
  }

  lemma {:induction false} PrefixApplies(t: Tables, log: seq<Request>, n: nat, m: nat)
    requires n <= m <= |log| && ApplyAll(t, log[..m]).Ok?
    ensures ApplyAll(t, log[..n]).Ok?
    decreases m
  {
    if n < m {
      assert log[..m][..m - 1] == log[..m - 1];
      PrefixApplies(t, log, n, m - 1);
    }
  }

  // ---------------------------------------------------------------------------
  // Records and files
  // ---------------------------------------------------------------------------

  /** At the start of the run the catalog had recorded this hash for the unchanged file. */
  predicate WasRecorded(s: Setup, c: Candidate, h: Hash) {
    && s.metadataSkip && c.mtime.Some? && KeyOf(s, c) in s.tables.sources
    && var row := s.tables.sources[KeyOf(s, c)];
       row.hash == h && row.size == c.size && row.mtime == c.mtime
  }

  /** A record of this file, whose blob the store holds at its size. */
  predicate RecordFits(s: Setup, cas: Cas, c: Candidate, r: Request) {
    && r.observation.key == KeyOf(s, c) && r.observation.size == c.size && r.observation.mtime == c.mtime
    && HasFile(cas, r.observation.hash, c.size)
    && (if r.Imported? then r.observation.hash == c.content.digest else WasRecorded(s, c, r.observation.hash))
  }

  ghost predicate Recorded(s: Setup, st: State)
    requires Located(s, st)
  {
    forall k :: 0 <= k < |st.log| ==> RecordOk(s, st, k)
  }

  ghost predicate RecordOk(s: Setup, st: State, k: nat)
    requires Located(s, st) && k < |st.log|
  {
    assert st.order[k] in st.order;
    RecordFits(s, st.cas, s.scan[st.order[k]], st.log[k])
  }

  ghost predicate FilesHeld(st: State) {
    forall w :: w in st.flight && Read(st.flight[w]) ==> HasFile(st.cas, w.candidate.content.digest, w.candidate.size)
  }

  /** A record whose ticket is resolved was accepted. */
  ghost predicate Answered(s: Setup, st: State)
    requires Located(s, st)
  {
    forall k :: 0 <= k < |st.log| && st.order[k] !in st.tickets ==> ApplyAll(s.tables, st.log[..k + 1]).Ok?
  }

  ghost predicate Sound(s: Setup, st: State) {
    Located(s, st) && Recorded(s, st) && FilesHeld(st)
  }

  /** The committed catalog has not touched the row of a file that was not submitted. */
  lemma LiveRow(s: Setup, st: State, n: nat)
    requires UniquePaths(s) && Located(s, st) && Recorded(s, st) && n < |s.scan| && n !in st.order
    ensures SameRow(s.tables, LiveTables(s, st), KeyOf(s, s.scan[n]))
    ensures RowsAgree(s.tables) ==> RowsAgree(LiveTables(s, st))
  {
    var log := st.log[..st.committed];
    if ApplyAll(s.tables, log).Ok? {
      forall i | 0 <= i < |log| ensures log[i].observation.key != KeyOf(s, s.scan[n]) {
        assert RecordOk(s, st, i) && st.order[i] in st.order;
      }
      UntouchedRow(s.tables, log, KeyOf(s, s.scan[n]));
      if RowsAgree(s.tables) {
        LogKeepsRowsAgree(s.tables, log);
      }
    }
  }

  lemma SkipFits(s: Setup, st: State)
    requires UniquePaths(s) && Sound(s, st) && st.scanned < |s.scan|
    ensures var c := s.scan[st.scanned];
      var d := Decide(s, LiveTables(s, st), st.cas, c);
      d.SkipContent? ==> RecordFits(s, st.cas, c, Known(ObservationOf(s, c, d.blobHash), d.sizeBytes))
  {
    LiveRow(s, st, st.scanned);
    DecisionIsExact(s, LiveTables(s, st), st.cas, s.scan[st.scanned]);
  }

  /** Files only appear. */
  ghost predicate Grew(cas: Cas, cas': Cas) {
    forall h :: h in cas ==> h in cas' && cas'[h] == cas[h]
  }

  lemma RecordedSubmit(s: Setup, st: State, st': State, n: nat, r: Request)
    requires Located(s, st) && Recorded(s, st) && Located(s, st') && st'.cas == st.cas
    requires n < |s.scan| && RecordFits(s, st.cas, s.scan[n], r)
    requires st'.order == st.order + [n] && st'.log == st.log + [r]
    ensures Recorded(s, st')
  {
    forall k | 0 <= k < |st'.log| ensures RecordOk(s, st', k) {
      assert k < |st.log| ==> RecordOk(s, st, k);
    }
  }

  lemma RecordedKept(s: Setup, st: State, st': State)
    requires Located(s, st) && Recorded(s, st) && Located(s, st') && Grew(st.cas, st'.cas)
    requires st'.order == st.order && st'.log == st.log
    ensures Recorded(s, st')
  {
    forall k | 0 <= k < |st'.log| ensures RecordOk(s, st', k) {
      assert RecordOk(s, st, k);
    }
  }

  lemma InstallHolds(s: Setup, st: State, w: Work)
    requires FilesHeld(st) && Enabled(s, st, WorkerInstall(w))
    ensures FilesHeld(Do(s, st, WorkerInstall(w))) && Grew(st.cas, Do(s, st, WorkerInstall(w)).cas)
  {
  }

  lemma KeepsFilesHeld(s: Setup, st: State, a: Action)
    requires FilesHeld(st) && Enabled(s, st, a)
    ensures FilesHeld(Do(s, st, a)) && Grew(st.cas, Do(s, st, a).cas)
  {
    if a.WorkerInstall? {
      InstallHolds(s, st, a.work);
    }
  }

  lemma ReceiveRecorded(s: Setup, st: State, w: Work)
    requires Sound(s, st) && Enabled(s, st, Receive(w)) && Located(s, Do(s, st, Receive(w)))
    ensures Recorded(s, Do(s, st, Receive(w)))
  {
    assert w.candidate == s.scan[w.sequence] && Read(st.flight[w]);
    RecordedSubmit(s, st, Do(s, st, Receive(w)), w.sequence, ReadRecord(s, w));
  }

  lemma AdmitNextRecorded(s: Setup, st: State)
    requires UniquePaths(s) && Sound(s, st) && st.scanned < |s.scan| && Located(s, AdmitNext(s, st))
    ensures Recorded(s, AdmitNext(s, st))
  {
    var c := s.scan[st.scanned];
    var d := Decide(s, LiveTables(s, st), st.cas, c);
    if d.SkipContent? {
      SkipFits(s, st);
      RecordedSubmit(s, st, AdmitNext(s, st), st.scanned, Known(ObservationOf(s, c, d.blobHash), d.sizeBytes));
    } else {
      RecordedKept(s, st, AdmitNext(s, st));
    }
  }

  lemma AdmitRecorded(s: Setup, st: State)
    requires UniquePaths(s) && Sound(s, st) && Enabled(s, st, Admit) && Located(s, Do(s, st, Admit))
    ensures Recorded(s, Do(s, st, Admit))
  {
    if !st.scannerDone && |st.queue.pending| < SCHEDULER_CAPACITY && st.scanned < |s.scan| {
      AdmitNextRecorded(s, st);
    } else {
      RecordedKept(s, st, Do(s, st, Admit));
    }
  }

  lemma KeepsRecorded(s: Setup, st: State, a: Action)
    requires UniquePaths(s) && Sound(s, st) && Enabled(s, st, a) && Located(s, Do(s, st, a))
    requires Grew(st.cas, Do(s, st, a).cas)
    ensures Recorded(s, Do(s, st, a))
  {
    if a.Receive? {
      ReceiveRecorded(s, st, a.work);
    } else if a.Admit? {
      AdmitRecorded(s, st);
    } else {
      SameLog(s, st, a);
      RecordedKept(s, st, Do(s, st, a));
    }
  }

  lemma SameLog(s: Setup, st: State, a: Action)
    requires Enabled(s, st, a) && !a.Receive? && !a.Admit?
    ensures Do(s, st, a).order == st.order && Do(s, st, a).log == st.log
  {
  }

  lemma KeepsSound(s: Setup, st: State, a: Action)
    requires UniquePaths(s) && Sound(s, st) && Enabled(s, st, a)
    ensures Sound(s, Do(s, st, a))
  {
    KeepsLocated(s, st, a);
    KeepsFilesHeld(s, st, a);
    KeepsRecorded(s, st, a);
  }

  // ---------------------------------------------------------------------------
  // Tickets
  // ---------------------------------------------------------------------------

  lemma AnsweredSubmit(s: Setup, st: State, st': State, n: nat, r: Request)
    requires Located(s, st) && Answered(s, st) && Located(s, st')
    requires st'.order == st.order + [n] && st'.log == st.log + [r] && st'.tickets == st.tickets[n := r]
    ensures Answered(s, st')
  {
    forall k | 0 <= k < |st'.log| && st'.order[k] !in st'.tickets ensures ApplyAll(s.tables, st'.log[..k + 1]).Ok? {
      assert k < |st.log| && st.order[k] !in st.tickets;
      assert st'.log[..k + 1] == st.log[..k + 1];
    }
  }

  lemma AnsweredResolve(s: Setup, st: State, q: nat)
    requires Located(s, st) && Answered(s, st) && Enabled(s, st, Resolve(q)) && Located(s, Do(s, st, Resolve(q)))
    ensures Answered(s, Do(s, st, Resolve(q)))
  {
    var st' := Do(s, st, Resolve(q));
    forall k | 0 <= k < |st'.log| && st'.order[k] !in st'.tickets ensures ApplyAll(s.tables, st'.log[..k + 1]).Ok? {
      if st.order[k] == q {
        var i :| 0 <= i < st.committed && st.order[i] == q;
        IndexIsUnique(st.order, i, q);
        assert k == i;
        PrefixApplies(s.tables, st.log, k + 1, st.committed);
      }
    }
  }

  lemma KeepsAnswered(s: Setup, st: State, a: Action)
    requires Located(s, st) && Answered(s, st) && Enabled(s, st, a) && Located(s, Do(s, st, a))
    ensures Answered(s, Do(s, st, a))
  {
    var st' := Do(s, st, a);
    if a.Resolve? {
      AnsweredResolve(s, st, a.sequence);
    } else if a.Receive? {
      AnsweredSubmit(s, st, st', a.work.sequence, ReadRecord(s, a.work));
    } else if st'.log != st.log {
      var c := s.scan[st.scanned];
      var d := Decide(s, LiveTables(s, st), st.cas, c);
      AnsweredSubmit(s, st, st', st.scanned, Known(ObservationOf(s, c, d.blobHash), d.sizeBytes));
    }
  }

  // ---------------------------------------------------------------------------
  // Every run
  // ---------------------------------------------------------------------------

  ghost predicate Orderly(s: Setup, st: State) {
    Sound(s, st) && Answered(s, st) && Awaited(st) && Grew(s.cas, st.cas)
  }

  lemma StepKeepsOrderly(s: Setup, st: State, a: Action)
    requires UniquePaths(s) && Orderly(s, st) && Enabled(s, st, a)
    ensures Orderly(s, Do(s, st, a))
  {
    KeepsSound(s, st, a);
    KeepsAnswered(s, st, a);
    KeepsAwaited(s, st, a);
    KeepsFilesHeld(s, st, a);
  }

  lemma {:induction false} RunKeepsOrderly(s: Setup, st: State, actions: seq<Action>)
    requires UniquePaths(s) && Orderly(s, st) && Steps(s, st, actions)
    ensures Orderly(s, RunOf(s, st, actions))
    decreases |actions|
  {
    if actions != [] {
      StepKeepsOrderly(s, st, actions[0]);
      RunKeepsOrderly(s, Do(s, st, actions[0]), actions[1..]);
    }
  }

  lemma ReachableOrderly(s: Setup, st: State)
    requires UniquePaths(s) && Reachable(s, st)
    ensures Orderly(s, st)
  {
    var actions :| Steps(s, Initial(s), actions) && RunOf(s, Initial(s), actions) == st;
    assert Orderly(s, Initial(s));
    RunKeepsOrderly(s, Initial(s), actions);
  }

  lemma FinishedLog(s: Setup, st: State)
    requires Runnable(s) && UniquePaths(s) && Reachable(s, st) && st.pc.Finished?
    ensures Orderly(s, st) && ApplyAll(s.tables, st.log).Ok? && LiveTables(s, st) == ApplyAll(s.tables, st.log).value.0
    ensures forall n :: 0 <= n < |s.scan| ==> n in st.order
  {
    ReachableOrderly(s, st);
    ReachableFlow(s, st);
    NothingAwaited(st.order, st.committed, st.tickets);
    AllAnswered(s, st);
    assert st.log[..st.committed] == st.log;
  }

  lemma AllAnswered(s: Setup, st: State)
    requires Located(s, st) && Answered(s, st) && st.tickets == map[]
    ensures ApplyAll(s.tables, st.log).Ok?
  {
    if st.log != [] {
      var k := |st.log| - 1;
      assert st.order[k] !in st.tickets;
      assert st.log[..k + 1] == st.log;
    }
  }

  /** The catalog has this very observation of the file, and the store its blob at its size: the
      content that was read, or the blob recorded earlier for the unchanged file. */
  predicate Restored(s: Setup, t: Tables, cas: Cas, c: Candidate) {
    && KeyOf(s, c) in t.sources
    && var row := t.sources[KeyOf(s, c)];
       && row.size == c.size && row.mtime == c.mtime && HasFile(cas, row.hash, c.size)
       && (row.hash == c.content.digest || WasRecorded(s, c, row.hash))
  }

  lemma KeysDiffer(s: Setup, st: State, k: nat, i: nat)
    requires UniquePaths(s) && Located(s, st) && Recorded(s, st) && k < |st.log| && i < |st.log| && k != i
    ensures st.log[k].observation.key != st.log[i].observation.key
  {
    assert RecordOk(s, st, k) && RecordOk(s, st, i);
    assert st.order[k] in st.order && st.order[i] in st.order && st.order[k] != st.order[i];
  }

  /** Whatever was missing from the store before: a finished import leaves every scanned file
      recorded as it was scanned and its content in the store at its size. */
  lemma FinishedImportRestores(s: Setup, st: State, n: nat)
    requires Runnable(s) && UniquePaths(s) && Reachable(s, st) && st.pc.Finished? && n < |s.scan|
    ensures Restored(s, LiveTables(s, st), st.cas, s.scan[n])
  {
    FinishedLog(s, st);
    assert n in st.order;
    var i :| 0 <= i < |st.order| && st.order[i] == n;
    assert RecordOk(s, st, i);
    forall k | 0 <= k < |st.log| && k != i ensures st.log[k].observation.key != st.log[i].observation.key {
      KeysDiffer(s, st, k, i);
    }
    WrittenRow(s.tables, st.log, i);
  }

  /** So an import that scans every recorded file repairs the store: afterwards no recorded source
      lacks its content, however many blobs were missing. */
  lemma RescanRepairs(s: Setup, st: State)
    requires Runnable(s) && UniquePaths(s) && Reachable(s, st) && st.pc.Finished?
    requires forall k :: k in s.tables.sources ==> exists n :: 0 <= n < |s.scan| && KeyOf(s, s.scan[n]) == k
    ensures var t := LiveTables(s, st); forall k :: k in t.sources ==> HasFile(st.cas, t.sources[k].hash, t.sources[k].size)
  {
    var t := LiveTables(s, st);
    forall k | k in t.sources ensures HasFile(st.cas, t.sources[k].hash, t.sources[k].size) {
      var n := ScannedKey(s, st, k);
      FinishedImportRestores(s, st, n);
    }
  }

  lemma ScannedKey(s: Setup, st: State, k: SourceKey) returns (n: nat)
    requires Runnable(s) && UniquePaths(s) && Reachable(s, st) && st.pc.Finished? && k in LiveTables(s, st).sources
    requires forall k :: k in s.tables.sources ==> exists n :: 0 <= n < |s.scan| && KeyOf(s, s.scan[n]) == k
    ensures n < |s.scan| && KeyOf(s, s.scan[n]) == k
  {
    FinishedLog(s, st);
    if i :| 0 <= i < |st.log| && st.log[i].observation.key == k {
      assert RecordOk(s, st, i) && st.order[i] in st.order;
      n := st.order[i];
    } else {
      UntouchedRow(s.tables, st.log, k);
      n :| 0 <= n < |s.scan| && KeyOf(s, s.scan[n]) == k;
    }
  }

  // ---------------------------------------------------------------------------
  // The next import
  // ---------------------------------------------------------------------------

  /** The catalog knows every scanned file that has a modification time, and the store holds it. */
  ghost predicate AllKnown(s: Setup) {
    && RowsAgree(s.tables)
    && forall n :: 0 <= n < |s.scan| && s.scan[n].mtime.Some? ==> IsKnown(s, s.tables, s.cas, s.scan[n])
  }

  predicate IsKnown(s: Setup, t: Tables, cas: Cas, c: Candidate) {
    KnownUnchanged(s, t, c) && HasFile(cas, t.sources[KeyOf(s, c)].hash, c.size)
  }

  /** The same scan again, with skipping on, over what an import has left. */
  function Again(s: Setup, st: State): Setup {
    s.(metadataSkip := true, tables := LiveTables(s, st), cas := st.cas)
  }

  /** After a finished import the same scan is known, but for files without a modification time. */
  lemma FinishedIsKnown(s: Setup, st: State)
    requires Runnable(s) && UniquePaths(s) && RowsAgree(s.tables) && Reachable(s, st) && st.pc.Finished?
    ensures AllKnown(Again(s, st))
  {
    FinishedLog(s, st);
    LogKeepsRowsAgree(s.tables, st.log);
    var next := Again(s, st);
    forall n | 0 <= n < |next.scan| && next.scan[n].mtime.Some? ensures IsKnown(next, next.tables, next.cas, next.scan[n]) {
      FinishedImportRestores(s, st, n);
    }
  }

  /** Only files without a modification time are read: they alone are pending or in flight, every
      other record is of a known file, and no other content is added to the store. */
  ghost predicate Lazy(s: Setup, st: State)
    requires Located(s, st)
  {
    && (forall w :: w in st.queue.pending ==> w.candidate.mtime.None?)
    && (forall w :: w in st.flight ==> w.candidate.mtime.None?)
    && (forall k :: 0 <= k < |st.log| ==> KnownRecord(s, st, k))
    && (forall h :: h in st.cas && h !in s.cas ==>
          exists n :: 0 <= n < |s.scan| && s.scan[n].mtime.None? && s.scan[n].content.digest == h)
  }

  ghost predicate KnownRecord(s: Setup, st: State, k: nat)
    requires Located(s, st) && k < |st.log|
  {
    assert st.order[k] in st.order;
    s.scan[st.order[k]].mtime.Some? ==> st.log[k].Known?
  }

  lemma KnownIsSkipped(s: Setup, st: State)
    requires UniquePaths(s) && AllKnown(s) && Orderly(s, st) && st.scanned < |s.scan| && s.scan[st.scanned].mtime.Some?
    ensures Decide(s, LiveTables(s, st), st.cas, s.scan[st.scanned]).SkipContent?
  {
    var c := s.scan[st.scanned];
    assert IsKnown(s, s.tables, s.cas, c);
    LiveRow(s, st, st.scanned);
    DecisionIsExact(s, LiveTables(s, st), st.cas, c);
  }

  lemma LazySubmit(s: Setup, st: State, st': State, n: nat, r: Request)
    requires Located(s, st) && Lazy(s, st) && Located(s, st') && st'.cas == st.cas
    requires n < |s.scan| && (s.scan[n].mtime.Some? ==> r.Known?)
    requires st'.order == st.order + [n] && st'.log == st.log + [r]
    requires forall w :: w in st'.queue.pending ==> w in st.queue.pending
    requires forall w :: w in st'.flight ==> w in st.flight
    ensures Lazy(s, st')
  {
    forall k | 0 <= k < |st'.log| ensures KnownRecord(s, st', k) {
      assert k < |st.log| ==> KnownRecord(s, st, k);
    }
  }

  lemma LazyKept(s: Setup, st: State, st': State)
    requires Located(s, st) && Lazy(s, st) && Located(s, st')
    requires st'.order == st.order && st'.log == st.log
    requires forall w :: w in st'.queue.pending ==> w in st.queue.pending || w.candidate.mtime.None?
    requires forall w :: w in st'.flight ==> w in st.flight || w in st.queue.pending
    requires forall h :: h in st'.cas ==> h in st.cas || exists w :: w in st.flight && w.candidate.content.digest == h
    ensures Lazy(s, st')
  {
    forall k | 0 <= k < |st'.log| ensures KnownRecord(s, st', k) {
      assert KnownRecord(s, st, k);
    }
    forall h | h in st'.cas && h !in s.cas
      ensures exists n :: 0 <= n < |s.scan| && s.scan[n].mtime.None? && s.scan[n].content.digest == h
    {
      if h !in st.cas {
        var w :| w in st.flight && w.candidate.content.digest == h;
        assert s.scan[w.sequence] == w.candidate;
      }
    }
  }

  lemma DispatchKeepsLazy(s: Setup, st: State)
    requires Located(s, st) && Lazy(s, st) && Enabled(s, st, Executor.Dispatch) && Located(s, Do(s, st, Executor.Dispatch))
    ensures Lazy(s, Do(s, st, Executor.Dispatch))
  {
    var choice := Choice(st.queue, s.limit);
    if choice.Some? {
      TakenApart(st.queue.pending, choice.value);
      assert st.queue.pending[choice.value] in st.queue.pending;
    }
    LazyKept(s, st, Do(s, st, Executor.Dispatch));
  }

  lemma AdmitKeepsLazy(s: Setup, st: State)
    requires UniquePaths(s) && AllKnown(s) && Orderly(s, st) && Lazy(s, st)
    requires Enabled(s, st, Admit) && Located(s, Do(s, st, Admit))
    ensures Lazy(s, Do(s, st, Admit))
  {
    var st' := Do(s, st, Admit);
    if !st.scannerDone && |st.queue.pending| < SCHEDULER_CAPACITY && st.scanned < |s.scan| {
      var c := s.scan[st.scanned];
      var d := Decide(s, LiveTables(s, st), st.cas, c);
      if d.SkipContent? {
        LazySubmit(s, st, st', st.scanned, Known(ObservationOf(s, c, d.blobHash), d.sizeBytes));
      } else {
        if c.mtime.Some? {
          KnownIsSkipped(s, st);
        }
        LazyKept(s, st, st');
      }
    } else {
      LazyKept(s, st, st');
    }
  }

  lemma KeepsLazy(s: Setup, st: State, a: Action)
    requires UniquePaths(s) && AllKnown(s) && Orderly(s, st) && Lazy(s, st)
    requires Enabled(s, st, a) && Located(s, Do(s, st, a))
    ensures Lazy(s, Do(s, st, a))
  {
    match a {
      case Dispatch => DispatchKeepsLazy(s, st);
      case Admit => AdmitKeepsLazy(s, st);
      case Receive(w) => ReceiveKeepsLazy(s, st, w);
      case WorkerInstall(w) => InstallKeepsLazy(s, st, w);
      case WorkerTake(w) => WorkerKeepsLazy(s, st, w, Do(s, st, a));
      case WorkerReturn(w) => WorkerKeepsLazy(s, st, w, Do(s, st, a));
      case _ => SameFilesKeepLazy(s, st, Do(s, st, a));
    }
  }

  lemma ReceiveKeepsLazy(s: Setup, st: State, w: Work)
    requires Located(s, st) && Lazy(s, st) && Enabled(s, st, Receive(w)) && Located(s, Do(s, st, Receive(w)))
    ensures Lazy(s, Do(s, st, Receive(w)))
  {
    LazySubmit(s, st, Do(s, st, Receive(w)), w.sequence, ReadRecord(s, w));
  }

  lemma InstallKeepsLazy(s: Setup, st: State, w: Work)
    requires Located(s, st) && Lazy(s, st) && Enabled(s, st, WorkerInstall(w)) && Located(s, Do(s, st, WorkerInstall(w)))
    ensures Lazy(s, Do(s, st, WorkerInstall(w)))
  {
    LazyKept(s, st, Do(s, st, WorkerInstall(w)));
  }

  lemma WorkerKeepsLazy(s: Setup, st: State, w: Work, st': State)
    requires Located(s, st) && Lazy(s, st) && Located(s, st') && w in st.flight
    requires st'.flight.Keys == st.flight.Keys && st' == st.(flight := st'.flight)
    ensures Lazy(s, st')
  {
    assert forall x :: x in st'.flight <==> x in st'.flight.Keys;
    LazyKept(s, st, st');
  }

  lemma SameFilesKeepLazy(s: Setup, st: State, st': State)
    requires Located(s, st) && Lazy(s, st) && Located(s, st')
    requires st'.order == st.order && st'.log == st.log && st'.cas == st.cas
    requires st'.queue == st.queue && st'.flight == st.flight
    ensures Lazy(s, st')
  {
    LazyKept(s, st, st');
  }

  lemma {:induction false} RunKeepsLazy(s: Setup, st: State, actions: seq<Action>)
    requires UniquePaths(s) && AllKnown(s) && Orderly(s, st) && Lazy(s, st) && Steps(s, st, actions)
    ensures Orderly(s, RunOf(s, st, actions)) && Lazy(s, RunOf(s, st, actions))
    decreases |actions|
  {
    if actions != [] {
      StepKeepsOrderly(s, st, actions[0]);
      KeepsLazy(s, st, actions[0]);
      RunKeepsLazy(s, Do(s, st, actions[0]), actions[1..]);
    }
  }

  /** Importing an unchanged tree again reads nothing but files without a modification time: in
      every reachable state of the second run every other record is of a known file and no other
      content has been added. */
  lemma UnchangedTreeIsSkipped(s: Setup, st: State, again: State)
    requires Runnable(s) && UniquePaths(s) && RowsAgree(s.tables) && Reachable(s, st) && st.pc.Finished?
    requires Reachable(Again(s, st), again)
    ensures Located(Again(s, st), again) && Lazy(Again(s, st), again)
    ensures (forall n :: 0 <= n < |s.scan| ==> s.scan[n].mtime.Some?) ==> again.flight == map[] && again.cas == st.cas
  {
    var next := Again(s, st);
    FinishedIsKnown(s, st);
    var actions :| Steps(next, Initial(next), actions) && RunOf(next, Initial(next), actions) == again;
    assert Orderly(next, Initial(next)) && Lazy(next, Initial(next));
    RunKeepsLazy(next, Initial(next), actions);
    if forall n :: 0 <= n < |s.scan| ==> s.scan[n].mtime.Some? {
      NothingIsRead(next, again);
    }
  }

  lemma NothingIsRead(s: Setup, st: State)
    requires Orderly(s, st) && Lazy(s, st) && forall n :: 0 <= n < |s.scan| ==> s.scan[n].mtime.Some?
    ensures st.flight == map[] && st.cas == s.cas
  {
  }
}
