/** Every scanned file is in exactly one place, the books balance and every bound holds. */
module ExecutorPlaces {
  import opened Domain
  import opened Catalog
  import opened Scheduler
  import opened ImportLog
  import opened Executor

  function WorkAt(s: Setup, n: nat): Work
    requires n < |s.scan|
  {
    Work(n, s.scan[n])
  }

  /** A file that was scanned and has to be read. */
  predicate IsWork(s: Setup, st: State, w: Work) {
    w.sequence < st.scanned <= |s.scan| && w == WorkAt(s, w.sequence) && !Skips(s, w.candidate)
  }

  /** Sequences are positions in the scan; pending, in flight and submitted exclude each other
      and cover everything scanned. */
  ghost predicate Placed(s: Setup, st: State) {
    && st.scanned <= |s.scan|
    && (st.scannerDone ==> st.scanned == |s.scan|)
    && Distinct(st.queue.pending)
    && (forall w :: w in st.queue.pending ==> IsWork(s, st, w) && w !in st.flight && w.sequence !in st.order)
    && (forall w :: w in st.flight ==> IsWork(s, st, w) && w.sequence !in st.order)
    && (forall n :: 0 <= n < st.scanned ==> n in st.order || WorkAt(s, n) in st.queue.pending || WorkAt(s, n) in st.flight)
    && LogOf(s, st.order, st.log)
    && (forall n :: n in st.order ==> n < st.scanned)
    && st.committed <= |st.log|
  }

  /** Pending files and files in flight are different files, all of them scanned. */
  ghost predicate Apart(s: Setup, st: State) {
    && st.scanned <= |s.scan| && st.committed <= |st.log|
    && Distinct(st.queue.pending)
    && (forall w :: w in st.queue.pending ==> w.sequence < st.scanned && w !in st.flight)
    && (forall w :: w in st.flight ==> w.sequence < st.scanned)
  }

  /** `active` counts exactly the files in flight, per mount. */
  ghost predicate Books(active: map<Mount, nat>, flight: map<Work, Stage>, limit: nat) {
    && (forall m :: ActiveOf(active, m) == |FlightOf(flight, m)| <= limit)
    && (forall m :: m in active ==> active[m] > 0)
  }

  ghost predicate Balanced(s: Setup, st: State) {
    Books(st.queue.active, st.flight, s.limit)
  }

  /** Room in the job channel, in the hands of the workers and in the completion channel. */
  predicate Slots(flight: map<Work, Stage>) {
    && |QueuedJobs(flight)| <= JOBS_CAPACITY
    && |BusyJobs(flight)| <= WORKERS
    && |ReturnedJobs(flight)| <= COMPLETIONS_CAPACITY
  }

  /** Unresolved tickets belong to submitted records and stay within the limit. */
  ghost predicate TicketsFit(s: Setup, st: State) {
    && |st.tickets| <= s.maxOutstanding
    && (!st.pc.Trimming? ==> |st.tickets| < s.maxOutstanding)
    && (st.pc.Finished? ==> st.tickets == map[])
    && (forall q :: q in st.tickets ==> q in st.order)
  }

  /** The coordinator waits for a completion only while one can come, and stops only when
      nothing is left to do. */
  predicate Purposeful(st: State) {
    && |st.queue.pending| <= SCHEDULER_CAPACITY
    && (st.pc.Admitting? && st.flight == map[] ==> st.queue.pending == [])
    && (st.pc.Receiving? ==> st.flight != map[])
    && (st.pc.Draining? || st.pc.Finished? ==> st.scannerDone && st.queue.pending == [] && st.flight == map[])
  }

  // ---------------------------------------------------------------------------
  // Places
  // ---------------------------------------------------------------------------

  lemma LogGrows(s: Setup, order: seq<nat>, log: seq<Request>, n: nat, r: Request)
    requires LogOf(s, order, log) && n < |s.scan| && n !in order && r == RecordOf(s, s.scan[n])
    ensures LogOf(s, order + [n], log + [r])
  {
  }

  lemma LogCuts(s: Setup, order: seq<nat>, log: seq<Request>, k: nat)
    requires LogOf(s, order, log) && k <= |log|
    ensures LogOf(s, order[..k], log[..k])
  {
  }

  /** The catalog at any commit point is the one its log prefix gives. */
  lemma LiveTablesFollow(s: Setup, st: State)
    requires Static(s) && Placed(s, st)
    ensures LogOf(s, st.order[..st.committed], st.log[..st.committed])
    ensures LogHolds(s, st.log[..st.committed]) && TablesFollow(s, st.log[..st.committed], LiveTables(s, st))
  {
    LogCuts(s, st.order, st.log, st.committed);
    LogApplies(s, st.order[..st.committed], st.log[..st.committed]);
  }

  ghost predicate DecidesFor(s: Setup, cas: Cas, t: Tables, c: Candidate) {
    var d := Decide(s, t, cas, c);
    && (d.SkipContent? <==> Skips(s, c))
    && (Skips(s, c) ==> d.sizeBytes == c.size && RecordOf(s, c) == Known(ObservationOf(s, c, d.blobHash), d.sizeBytes))
  }

  lemma DecisionAt(s: Setup, cas: Cas, order: seq<nat>, log: seq<Request>, n: nat)
    requires Static(s) && LogOf(s, order, log) && n < |s.scan| && n !in order
    requires forall h :: h in s.cas ==> h in cas && cas[h] == s.cas[h]
    ensures ApplyAll(s.tables, log).Ok?
    ensures DecidesFor(s, cas, ApplyAll(s.tables, log).value.0, s.scan[n])
  {
    LogApplies(s, order, log);
    ClassificationIsStable(s, order, log, ApplyAll(s.tables, log).value.0, cas, n);
  }

  /** At admission the decision is the one made against the start of the run, and the record
      submitted for a skip is the candidate's record. */
  lemma AdmissionDecision(s: Setup, st: State)
    requires Static(s) && LogOf(s, st.order, st.log) && st.committed <= |st.log| && StoreGrew(s, st)
    requires st.scanned < |s.scan| && st.scanned !in st.order
    ensures DecidesFor(s, st.cas, LiveTables(s, st), s.scan[st.scanned])
  {
    LogCuts(s, st.order, st.log, st.committed);
    DecisionAt(s, st.cas, st.order[..st.committed], st.log[..st.committed], st.scanned);
  }

  lemma AdmitSkipPlaced(s: Setup, st: State, st': State)
    requires Placed(s, st) && st.scanned < |s.scan| && Skips(s, s.scan[st.scanned])
    requires st'.scanned == st.scanned + 1 && st'.scannerDone == st.scannerDone == false
    requires st'.queue.pending == st.queue.pending && st'.flight == st.flight && st'.committed == st.committed
    requires st'.order == st.order + [st.scanned] && st'.log == st.log + [RecordOf(s, s.scan[st.scanned])]
    ensures Placed(s, st')
  {
    LogGrows(s, st.order, st.log, st.scanned, RecordOf(s, s.scan[st.scanned]));
    assert forall n :: n in st'.order <==> n in st.order || n == st.scanned;
  }

  lemma AdmitHashPlaced(s: Setup, st: State, st': State)
    requires Placed(s, st) && st.scanned < |s.scan| && !Skips(s, s.scan[st.scanned])
    requires st'.scanned == st.scanned + 1 && st'.scannerDone == st.scannerDone == false
    requires st'.queue.pending == st.queue.pending + [WorkAt(s, st.scanned)] && st'.flight == st.flight
    requires st'.order == st.order && st'.log == st.log && st'.committed == st.committed
    ensures Placed(s, st')
  {
    var w := WorkAt(s, st.scanned);
    assert forall x :: x in st'.queue.pending <==> x in st.queue.pending || x == w;
    assert w !in st.queue.pending && w !in st.flight && w.sequence !in st.order;
  }

  lemma ReceivePlaced(s: Setup, st: State, w: Work, st': State)
    requires Placed(s, st) && w in st.flight
    requires st'.scanned == st.scanned && st'.scannerDone == st.scannerDone && st'.committed == st.committed
    requires st'.queue.pending == st.queue.pending && st'.flight == st.flight - {w}
    requires st'.order == st.order + [w.sequence] && st'.log == st.log + [RecordOf(s, w.candidate)]
    ensures Placed(s, st')
  {
    LogGrows(s, st.order, st.log, w.sequence, RecordOf(s, w.candidate));
    assert forall n :: n in st'.order <==> n in st.order || n == w.sequence;
    forall x | x in st'.flight ensures x.sequence != w.sequence {
      assert x == WorkAt(s, x.sequence) && w == WorkAt(s, w.sequence);
    }
    forall x | x in st.queue.pending ensures x.sequence != w.sequence {
      assert x == WorkAt(s, x.sequence) && w == WorkAt(s, w.sequence);
    }
  }

  lemma DispatchPlaced(s: Setup, st: State, i: nat, st': State)
    requires Placed(s, st) && i < |st.queue.pending|
    requires st'.scanned == st.scanned && st'.scannerDone == st.scannerDone && st'.committed == st.committed
    requires st'.queue.pending == Without(st.queue.pending, i) && st'.flight == st.flight[st.queue.pending[i] := Queued]
    requires st'.order == st.order && st'.log == st.log
    ensures Placed(s, st')
  {
    var p, w := st.queue.pending, st.queue.pending[i];
    assert p == p[..i] + [w] + p[i + 1..];
    assert forall x :: x in p <==> x in st'.queue.pending || x == w;
    assert w !in st'.queue.pending;
  }

  lemma RestagePlaced(s: Setup, st: State, st': State)
    requires Placed(s, st)
    requires st'.scanned == st.scanned && (st'.scannerDone ==> st'.scanned == |s.scan|)
    requires st'.queue.pending == st.queue.pending && st'.flight.Keys == st.flight.Keys
    requires st'.order == st.order && st'.log == st.log && st'.committed <= |st.log|
    ensures Placed(s, st')
  {
    assert forall x :: x in st'.flight <==> x in st.flight.Keys;
  }

  /** Files only appear in the store. */
  ghost predicate StoreGrew(s: Setup, st: State) {
    forall h :: h in s.cas ==> h in st.cas && st.cas[h] == s.cas[h]
  }

  lemma AdmitNextPlaced(s: Setup, st: State)
    requires Static(s) && Placed(s, st) && StoreGrew(s, st) && !st.scannerDone && st.scanned < |s.scan|
    ensures Placed(s, AdmitNext(s, st))
  {
    AdmissionDecision(s, st);
    if Skips(s, s.scan[st.scanned]) {
      AdmitSkipPlaced(s, st, AdmitNext(s, st));
    } else {
      AdmitHashPlaced(s, st, AdmitNext(s, st));
    }
  }

  lemma AdmitKeepsPlaced(s: Setup, st: State)
    requires Static(s) && Placed(s, st) && StoreGrew(s, st) && Enabled(s, st, Admit)
    ensures Placed(s, Do(s, st, Admit))
  {
    if !st.scannerDone && |st.queue.pending| < SCHEDULER_CAPACITY && st.scanned < |s.scan| {
      AdmitNextPlaced(s, st);
    } else {
      RestagePlaced(s, st, Do(s, st, Admit));
    }
  }

  lemma DispatchKeepsPlaced(s: Setup, st: State)
    requires Placed(s, st) && Enabled(s, st, Executor.Dispatch)
    ensures Placed(s, Do(s, st, Executor.Dispatch))
  {
    var st' := Do(s, st, Executor.Dispatch);
    var choice := Choice(st.queue, s.limit);
    if choice.None? || |QueuedJobs(st.flight)| >= JOBS_CAPACITY {
      RestagePlaced(s, st, st');
    } else {
      DispatchPlaced(s, st, choice.value, st');
    }
  }

  lemma ReceiveKeepsPlaced(s: Setup, st: State, w: Work)
    requires Placed(s, st) && Enabled(s, st, Receive(w))
    ensures Placed(s, Do(s, st, Receive(w)))
  {
    ReceivePlaced(s, st, w, Do(s, st, Receive(w)));
  }

  lemma KeepsPlaced(s: Setup, st: State, a: Action)
    requires Static(s) && Placed(s, st) && StoreGrew(s, st) && Enabled(s, st, a)
    ensures Placed(s, Do(s, st, a))
  {
    match a {
      case Dispatch => DispatchKeepsPlaced(s, st);
      case Admit => AdmitKeepsPlaced(s, st);
      case Receive(w) => ReceiveKeepsPlaced(s, st, w);
      case _ => RestagePlaced(s, st, Do(s, st, a));
    }
  }

  // ---------------------------------------------------------------------------
  // Apart, for every store and every scan
  // ---------------------------------------------------------------------------

  lemma DispatchKeepsApart(s: Setup, st: State)
    requires Apart(s, st) && Enabled(s, st, Executor.Dispatch)
    ensures Apart(s, Do(s, st, Executor.Dispatch))
  {
    var choice := Choice(st.queue, s.limit);
    if choice.Some? && |QueuedJobs(st.flight)| < JOBS_CAPACITY {
      TakenApart(st.queue.pending, choice.value);
      assert st.queue.pending[choice.value] in st.queue.pending;
    }
  }

  lemma TakenApart(pending: seq<Work>, i: nat)
    requires Distinct(pending) && i < |pending|
    ensures Distinct(Without(pending, i)) && pending[i] !in Without(pending, i)
    ensures forall w :: w in Without(pending, i) ==> w in pending
  {
  }

  lemma AdmitKeepsApart(s: Setup, st: State)
    requires Apart(s, st) && st.scanned < |s.scan|
    ensures Apart(s, AdmitNext(s, st))
  {
    var w := Work(st.scanned, s.scan[st.scanned]);
    AddedApart(st.queue.pending, w);
    assert w !in st.flight;
  }

  lemma AddedApart(pending: seq<Work>, w: Work)
    requires Distinct(pending) && forall x :: x in pending ==> x.sequence != w.sequence
    ensures Distinct(pending + [w])
    ensures forall x :: x in pending + [w] <==> x in pending || x == w
  {
  }

  lemma KeepsApart(s: Setup, st: State, a: Action)
    requires Apart(s, st) && Enabled(s, st, a)
    ensures Apart(s, Do(s, st, a))
  {
    match a {
      case Dispatch => DispatchKeepsApart(s, st);
      case Admit =>
        if !st.scannerDone && |st.queue.pending| < SCHEDULER_CAPACITY && st.scanned < |s.scan| {
          AdmitKeepsApart(s, st);
        }
      case _ =>
    }
  }

  // ---------------------------------------------------------------------------
  // Accounting
  // ---------------------------------------------------------------------------

  lemma FlightAdds(flight: map<Work, Stage>, w: Work, stage: Stage)
    requires w !in flight
    ensures forall m :: |FlightOf(flight[w := stage], m)| == |FlightOf(flight, m)| + if m == w.candidate.mount then 1 else 0
  {
    forall m ensures |FlightOf(flight[w := stage], m)| == |FlightOf(flight, m)| + if m == w.candidate.mount then 1 else 0 {
      if m == w.candidate.mount {
        assert FlightOf(flight[w := stage], m) == FlightOf(flight, m) + {w};
      } else {
        assert FlightOf(flight[w := stage], m) == FlightOf(flight, m);
      }
    }
  }

  lemma FlightRemoves(flight: map<Work, Stage>, w: Work)
    requires w in flight
    ensures forall m :: |FlightOf(flight, m)| == |FlightOf(flight - {w}, m)| + if m == w.candidate.mount then 1 else 0
  {
    FlightAdds(flight - {w}, w, flight[w]);
    assert (flight - {w})[w := flight[w]] == flight;
  }

  lemma SameKeysSameFlight(flight: map<Work, Stage>, other: map<Work, Stage>)
    requires flight.Keys == other.Keys
    ensures forall m :: FlightOf(flight, m) == FlightOf(other, m)
  {
    assert forall w :: w in flight <==> w in flight.Keys;
  }

  lemma BooksAfterTake(q: Queue, flight: map<Work, Stage>, limit: nat, i: nat)
    requires Books(q.active, flight, limit) && i < |q.pending| && q.pending[i] !in flight
    requires Eligible(q, limit, q.pending[i])
    ensures Books(Take(q, i).active, flight[q.pending[i] := Queued], limit)
  {
    var w := q.pending[i];
    FlightAdds(flight, w, Queued);
    var active, f := Take(q, i).active, flight[w := Queued];
    forall m ensures ActiveOf(active, m) == |FlightOf(f, m)| <= limit {
      assert ActiveOf(q.active, m) == |FlightOf(flight, m)|;
    }
  }

  lemma BooksAfterComplete(q: Queue, flight: map<Work, Stage>, limit: nat, w: Work)
    requires Books(q.active, flight, limit) && w in flight
    ensures Books(Complete(q, w.candidate.mount).active, flight - {w}, limit)
  {
    FlightRemoves(flight, w);
  }

  lemma BooksAfterRestage(active: map<Mount, nat>, flight: map<Work, Stage>, limit: nat, w: Work, stage: Stage)
    requires Books(active, flight, limit) && w in flight
    ensures Books(active, flight[w := stage], limit)
  {
    assert flight[w := stage].Keys == flight.Keys;
    SameKeysSameFlight(flight, flight[w := stage]);
  }

  lemma DispatchKeepsBalanced(s: Setup, st: State)
    requires Balanced(s, st) && Apart(s, st) && Enabled(s, st, Executor.Dispatch)
    ensures Balanced(s, Do(s, st, Executor.Dispatch))
  {
    var choice := Choice(st.queue, s.limit);
    if choice.Some? && |QueuedJobs(st.flight)| < JOBS_CAPACITY {
      assert st.queue.pending[choice.value] in st.queue.pending;
      BooksAfterTake(st.queue, st.flight, s.limit, choice.value);
    }
  }

  lemma KeepsBalanced(s: Setup, st: State, a: Action)
    requires Balanced(s, st) && Apart(s, st) && Enabled(s, st, a)
    ensures Balanced(s, Do(s, st, a))
  {
    match a {
      case Dispatch => DispatchKeepsBalanced(s, st);
      case Receive(w) => BooksAfterComplete(st.queue, st.flight, s.limit, w);
      case WorkerTake(w) => WorkerKeepsBalanced(s, st, a, w);
      case WorkerInstall(w) => WorkerKeepsBalanced(s, st, a, w);
      case WorkerReturn(w) => WorkerKeepsBalanced(s, st, a, w);
      case _ =>
    }
  }

  lemma WorkerKeepsBalanced(s: Setup, st: State, a: Action, w: Work)
    requires Balanced(s, st) && Enabled(s, st, a) && (a == WorkerTake(w) || a == WorkerInstall(w) || a == WorkerReturn(w))
    ensures Balanced(s, Do(s, st, a))
  {
    BooksAfterRestage(st.queue.active, st.flight, s.limit, w, Do(s, st, a).flight[w]);
  }

  // ---------------------------------------------------------------------------
  // Bounds
  // ---------------------------------------------------------------------------

  lemma SubsetSize<T>(a: set<T>, b: set<T>)
    requires a <= b
    ensures |a| <= |b|
  {
    assert b == a + (b - a);
  }

  lemma StageCounts(flight: map<Work, Stage>, w: Work, stage: Stage)
    ensures var f := flight[w := stage];
      && |QueuedJobs(f)| <= |QueuedJobs(flight)| + (if stage.Queued? then 1 else 0)
      && |BusyJobs(f)| <= |BusyJobs(flight)| + (if stage.Reading? || stage.Held? then 1 else 0)
      && |ReturnedJobs(f)| <= |ReturnedJobs(flight)| + (if stage.Returned? then 1 else 0)
  {
    var f := flight[w := stage];
    SubsetSize(QueuedJobs(f), QueuedJobs(flight) + (if stage.Queued? then {w} else {}));
    SubsetSize(BusyJobs(f), BusyJobs(flight) + (if stage.Reading? || stage.Held? then {w} else {}));
    SubsetSize(ReturnedJobs(f), ReturnedJobs(flight) + (if stage.Returned? then {w} else {}));
  }

  lemma InstallCounts(flight: map<Work, Stage>, w: Work, stage: Stage)
    requires w in flight && flight[w].Reading? && stage.Held?
    ensures BusyJobs(flight[w := stage]) == BusyJobs(flight)
  {
  }

  lemma RemovedCounts(flight: map<Work, Stage>, w: Work)
    requires Slots(flight)
    ensures Slots(flight - {w})
  {
    SubsetSize(QueuedJobs(flight - {w}), QueuedJobs(flight));
    SubsetSize(BusyJobs(flight - {w}), BusyJobs(flight));
    SubsetSize(ReturnedJobs(flight - {w}), ReturnedJobs(flight));
  }

  lemma KeepsSlots(s: Setup, st: State, a: Action)
    requires Slots(st.flight) && Enabled(s, st, a)
    ensures Slots(Do(s, st, a).flight)
  {
    match a {
      case Dispatch => DispatchKeepsSlots(s, st);
      case Receive(w) => RemovedCounts(st.flight, w);
      case WorkerTake(w) => StageCounts(st.flight, w, Reading);
      case WorkerInstall(w) =>
        var stage := Do(s, st, a).flight[w];
        StageCounts(st.flight, w, stage);
        InstallCounts(st.flight, w, stage);
      case WorkerReturn(w) => StageCounts(st.flight, w, Returned(st.flight[w].outcome));
      case _ =>
    }
  }

  lemma DispatchKeepsSlots(s: Setup, st: State)
    requires Slots(st.flight) && Enabled(s, st, Executor.Dispatch)
    ensures Slots(Do(s, st, Executor.Dispatch).flight)
  {
    var choice := Choice(st.queue, s.limit);
    if choice.Some? && |QueuedJobs(st.flight)| < JOBS_CAPACITY {
      StageCounts(st.flight, st.queue.pending[choice.value], Queued);
    }
  }

  lemma KeepsTicketsFit(s: Setup, st: State, a: Action)
    requires s.maxOutstanding > 0 && TicketsFit(s, st) && Enabled(s, st, a)
    ensures TicketsFit(s, Do(s, st, a))
  {
    match a {
      case Admit => AdmitKeepsTicketsFit(s, st);
      case Receive(w) => OneTicketMore(st.tickets, st.order, w.sequence, ReadRecord(s, w));
      case Resolve(q) => assert (st.tickets - {q}).Keys == st.tickets.Keys - {q};
      case _ =>
    }
  }

  lemma OneTicketMore(tickets: map<nat, Request>, order: seq<nat>, q: nat, r: Request)
    requires forall p :: p in tickets ==> p in order
    ensures |tickets[q := r]| <= |tickets| + 1
    ensures forall p :: p in tickets[q := r] ==> p in order + [q]
  {
    SubsetSize(tickets[q := r].Keys, tickets.Keys + {q});
  }

  lemma AdmitKeepsTicketsFit(s: Setup, st: State)
    requires TicketsFit(s, st) && Enabled(s, st, Admit)
    ensures TicketsFit(s, Do(s, st, Admit))
  {
    if !st.scannerDone && |st.queue.pending| < SCHEDULER_CAPACITY && st.scanned < |s.scan| {
      var c := s.scan[st.scanned];
      var d := Decide(s, LiveTables(s, st), st.cas, c);
      if d.SkipContent? {
        OneTicketMore(st.tickets, st.order, st.scanned, Known(ObservationOf(s, c, d.blobHash), d.sizeBytes));
      }
    }
  }

  /** With nothing in flight every pending file is eligible and the job channel has room, so the
      dispatch loop cannot end while a file is pending. */
  lemma IdleMeansDispatchable(q: Queue, limit: nat)
    requires limit > 0 && Books(q.active, map[], limit) && q.pending != []
    ensures Choice(q, limit).Some? && |QueuedJobs(map[])| < JOBS_CAPACITY
  {
    assert FlightOf(map[], q.pending[0].candidate.mount) == {};
    assert QueuedJobs(map[]) == {};
    assert Eligible(q, limit, q.pending[0]);
  }

  lemma NoActiveNoFlight(active: map<Mount, nat>, flight: map<Work, Stage>, limit: nat)
    requires Books(active, flight, limit)
    ensures active == map[] <==> flight == map[]
  {
    if flight != map[] {
      var w :| w in flight;
      var m := w.candidate.mount;
      assert w in FlightOf(flight, m);
      assert ActiveOf(active, m) > 0;
    } else {
      forall m ensures m !in active {
        assert FlightOf(flight, m) == {};
      }
    }
  }

  lemma KeepsPurposeful(s: Setup, st: State, a: Action)
    requires s.limit > 0 && Balanced(s, st) && Purposeful(st) && Enabled(s, st, a)
    ensures Purposeful(Do(s, st, a))
  {
    match a {
      case Dispatch => DispatchKeepsPurposeful(s, st);
      case Admit => AdmitKeepsPurposeful(s, st);
      case WorkerTake(w) => assert w in Do(s, st, a).flight;
      case WorkerInstall(w) => assert w in Do(s, st, a).flight;
      case WorkerReturn(w) => assert w in Do(s, st, a).flight;
      case _ =>
    }
  }

  lemma AdmitKeepsPurposeful(s: Setup, st: State)
    requires Balanced(s, st) && Purposeful(st) && Enabled(s, st, Admit)
    ensures Purposeful(Do(s, st, Admit))
  {
    NoActiveNoFlight(st.queue.active, st.flight, s.limit);
  }

  lemma DispatchKeepsPurposeful(s: Setup, st: State)
    requires s.limit > 0 && Balanced(s, st) && Purposeful(st) && Enabled(s, st, Executor.Dispatch)
    ensures Purposeful(Do(s, st, Executor.Dispatch))
  {
    if st.flight == map[] && st.queue.pending != [] {
      IdleMeansDispatchable(st.queue, s.limit);
    }
  }

  // ---------------------------------------------------------------------------
  // All of it, for every store and every scan
  // ---------------------------------------------------------------------------

  /** What the configuration guarantees. */
  predicate Runnable(s: Setup) {
    s.limit > 0 && s.maxOutstanding > 0
  }

  ghost predicate Flow(s: Setup, st: State) {
    Apart(s, st) && Balanced(s, st) && Slots(st.flight) && TicketsFit(s, st) && Purposeful(st)
  }

  lemma InitialFlow(s: Setup)
    requires Runnable(s)
    ensures Flow(s, Initial(s))
  {
    var st := Initial(s);
    assert forall m :: FlightOf(st.flight, m) == {};
    assert QueuedJobs(st.flight) == {} && BusyJobs(st.flight) == {} && ReturnedJobs(st.flight) == {};
  }

  lemma StepKeepsFlow(s: Setup, st: State, a: Action)
    requires Runnable(s) && Flow(s, st) && Enabled(s, st, a)
    ensures Flow(s, Do(s, st, a))
  {
    KeepsApart(s, st, a);
    KeepsBalanced(s, st, a);
    KeepsSlots(s, st, a);
    KeepsTicketsFit(s, st, a);
    KeepsPurposeful(s, st, a);
  }
}
