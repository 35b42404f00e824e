/** The import executor: a coordinator that scans, schedules and submits, eight workers that read
    files and install them in the store, and the catalog writer, all interleaved freely. Channels
    are modelled as bounded bags, which allow every order a queue allows. */
module Executor {
  import opened Domain
  import opened Catalog
  import opened Scheduler
  import opened ImportLog

  const SCHEDULER_CAPACITY: nat := 64
  const WORKERS: nat := 8
  const JOBS_CAPACITY: nat := 8

  datatype StoreOutcome = Created | Reused

  /** Where a dispatched file is: in the job channel, with a worker that reads it, with a worker
      that waits to report it, or in the completion channel. */
  datatype Stage = Queued | Reading | Held(outcome: StoreOutcome) | Returned(outcome: StoreOutcome)

  datatype Report = Report(
    filesSeen: nat, bytesSeen: nat, filesSkipped: nat, bytesSkipped: nat, filesHashed: nat, bytesHashed: nat,
    blobsCreated: nat, blobsReused: nat, bytesWritten: nat, recordsInserted: nat, recordsUpdated: nat)

  /** What the coordinator does next. */
  datatype Pc = Dispatching | Admitting | Receiving | Trimming | Draining | Finished

  /** `order` and `log` are the submitted records and their sequences, of which the writer has
      committed the first `committed`; `tickets` are the unresolved ones. */
  datatype State = State(
    scanned: nat, scannerDone: bool, queue: Queue, flight: map<Work, Stage>,
    order: seq<nat>, log: seq<Request>, committed: nat, tickets: map<nat, Request>,
    cas: Cas, report: Report, pc: Pc)

  datatype Action =
    | Dispatch
    | Admit
    | Receive(work: Work)
    | Trim
    | Resolve(sequence: nat)
    | Finish
    | WorkerTake(work: Work)
    | WorkerInstall(work: Work)
    | WorkerReturn(work: Work)
    | WriterCommit(upTo: nat)

  const NOTHING: Report := Report(0, 0, 0, 0, 0, 0, 0, 0, 0, 0, 0)

  function Initial(s: Setup): State {
    State(0, false, Queue([], map[], None), map[], [], [], 0, map[], s.cas, NOTHING, Dispatching)
  }

  function QueuedJobs(flight: map<Work, Stage>): set<Work> {
    set w | w in flight && flight[w].Queued?
  }

  /** Files in the hands of a worker. */
  function BusyJobs(flight: map<Work, Stage>): set<Work> {
    set w | w in flight && (flight[w].Reading? || flight[w].Held?)
  }

  function ReturnedJobs(flight: map<Work, Stage>): set<Work> {
    set w | w in flight && flight[w].Returned?
  }

  function FlightOf(flight: map<Work, Stage>, m: Mount): set<Work> {
    set w | w in flight && w.candidate.mount == m
  }

  /** The catalog a lookup sees now. */
  function LiveTables(s: Setup, st: State): Tables {
    if st.committed <= |st.log| && ApplyAll(s.tables, st.log[..st.committed]).Ok?
    then ApplyAll(s.tables, st.log[..st.committed]).value.0 else s.tables
  }

  /** The outcome on a committed record's ticket. */
  function TicketOutcome(s: Setup, st: State, sequence: nat): Option<Outcome> {
    if st.committed <= |st.log| && st.committed <= |st.order| && ApplyAll(s.tables, st.log[..st.committed]).Ok? &&
       (exists k :: 0 <= k < st.committed && st.order[k] == sequence)
    then
      var k := IndexOf(st.order[..st.committed], sequence);
      Some(ApplyAll(s.tables, st.log[..st.committed]).value.1[k])
    else None
  }

  function IndexOf(xs: seq<nat>, x: nat): (k: nat)
    requires x in xs
    ensures k < |xs| && xs[k] == x
  {
    if xs[0] == x then 0 else 1 + IndexOf(xs[1..], x)
  }

  function Submitted(st: State, sequence: nat, r: Request): State {
    st.(order := st.order + [sequence], log := st.log + [r], tickets := st.tickets[sequence := r], pc := Trimming)
  }

  function SkipReport(r: Report, size: nat): Report {
    r.(filesSkipped := r.filesSkipped + 1, bytesSkipped := r.bytesSkipped + size,
       blobsReused := r.blobsReused + 1, recordsUpdated := r.recordsUpdated + 1)
  }

  function HashReport(r: Report, size: nat, outcome: StoreOutcome): Report {
    var r1 := r.(filesHashed := r.filesHashed + 1, bytesHashed := r.bytesHashed + size);
    match outcome
    case Created => r1.(blobsCreated := r1.blobsCreated + 1, bytesWritten := r1.bytesWritten + size)
    case Reused => r1.(blobsReused := r1.blobsReused + 1)
  }

  function OutcomeReport(r: Report, o: Outcome): Report {
    if o.ObservedKnown? then r
    else if o.sourceInserted then r.(recordsInserted := r.recordsInserted + 1)
    else r.(recordsUpdated := r.recordsUpdated + 1)
  }

  function AdmitNext(s: Setup, st: State): State
    requires st.scanned < |s.scan|
  {
    var c := s.scan[st.scanned];
    var seen := st.(scanned := st.scanned + 1,
                    report := st.report.(filesSeen := st.report.filesSeen + 1, bytesSeen := st.report.bytesSeen + c.size));
    var d := Decide(s, LiveTables(s, st), st.cas, c);
    match d
    case SkipContent(h, size, _) =>
      Submitted(seen.(report := SkipReport(seen.report, size)), st.scanned, Known(ObservationOf(s, c, h), size))
    case HashContent(_) =>
      seen.(queue := st.queue.(pending := st.queue.pending + [Work(st.scanned, c)]), pc := Dispatching)
  }

  /** The record of a file that was read. */
  function ReadRecord(s: Setup, w: Work): Request {
    var file := w.candidate.content;
    Imported(file.digest, file.size, ObservationOf(s, w.candidate, file.digest))
  }

  function ReceiveWork(s: Setup, st: State, w: Work, outcome: StoreOutcome): State {
    var c := w.candidate;
    var done := st.(queue := Complete(st.queue, c.mount), flight := st.flight - {w},
                    report := HashReport(st.report, c.content.size, outcome));
    Submitted(done, w.sequence, ReadRecord(s, w))
  }

  /** A worker stops the run when the file has not the size that was scanned, or when the store
      holds a file of another size under its hash. */
  predicate Installs(cas: Cas, c: Candidate) {
    c.content.size == c.size && (c.content.digest in cas ==> cas[c.content.digest].size == c.size)
  }

  predicate Enabled(s: Setup, st: State, a: Action) {
    match a
    case Dispatch => st.pc.Dispatching?
    case Admit => st.pc.Admitting?
    case Receive(w) => st.pc.Receiving? && w in st.flight && st.flight[w].Returned?
    case Trim => st.pc.Trimming? && |st.tickets| < s.maxOutstanding
    case Resolve(q) =>
      && ((st.pc.Trimming? && |st.tickets| >= s.maxOutstanding) || st.pc.Draining?)
      && q in st.tickets && (forall p :: p in st.tickets ==> q <= p) && TicketOutcome(s, st, q).Some?
    case Finish => st.pc.Draining? && st.tickets == map[]
    case WorkerTake(w) => w in st.flight && st.flight[w].Queued? && |BusyJobs(st.flight)| < WORKERS
    case WorkerInstall(w) => w in st.flight && st.flight[w].Reading? && Installs(st.cas, w.candidate)
    case WorkerReturn(w) => w in st.flight && st.flight[w].Held? && |ReturnedJobs(st.flight)| < COMPLETIONS_CAPACITY
    case WriterCommit(n) => st.committed < n <= |st.log|
  }

  function Do(s: Setup, st: State, a: Action): State
    requires Enabled(s, st, a)
  {
    match a
    case Dispatch =>
      var choice := Choice(st.queue, s.limit);
      if choice.None? || |QueuedJobs(st.flight)| >= JOBS_CAPACITY then st.(pc := Admitting)
      else st.(queue := Take(st.queue, choice.value), flight := st.flight[st.queue.pending[choice.value] := Queued])
    case Admit =>
      if !st.scannerDone && |st.queue.pending| < SCHEDULER_CAPACITY then
        if st.scanned < |s.scan| then AdmitNext(s, st) else st.(scannerDone := true, pc := Dispatching)
      else if st.queue.active == map[] && st.queue.pending == [] && st.scannerDone then st.(pc := Draining)
      else st.(pc := Receiving)
    case Receive(w) => ReceiveWork(s, st, w, st.flight[w].outcome)
    case Trim => st.(pc := Dispatching)
    case Resolve(q) =>
      st.(tickets := st.tickets - {q}, report := OutcomeReport(st.report, TicketOutcome(s, st, q).value))
    case Finish => st.(pc := Finished)
    case WorkerTake(w) => st.(flight := st.flight[w := Reading])
    case WorkerInstall(w) =>
      var content := w.candidate.content;
      if content.digest in st.cas then st.(flight := st.flight[w := Held(Reused)])
      else st.(flight := st.flight[w := Held(Created)], cas := st.cas[content.digest := content])
    case WorkerReturn(w) => st.(flight := st.flight[w := Returned(st.flight[w].outcome)])
    case WriterCommit(n) => st.(committed := n)
  }

  ghost predicate Steps(s: Setup, st: State, actions: seq<Action>)
    decreases |actions|
  {
    actions == [] || (Enabled(s, st, actions[0]) && Steps(s, Do(s, st, actions[0]), actions[1..]))
  }

  ghost function RunOf(s: Setup, st: State, actions: seq<Action>): State
    requires Steps(s, st, actions)
    decreases |actions|
  {
    if actions == [] then st else RunOf(s, Do(s, st, actions[0]), actions[1..])
  }
}
