/** Whole histories of one store: imports and collections, one command at a time as the run lock
    demands, each stopped at any point. */
module History {
  import opened Domain
  import opened Catalog
  import opened GcPlan
  import G = GcApply
  import opened GcSafety

  /** What the running command keeps in memory; it is lost when the process dies. */
  datatype Process =
    | Idle
    | Importing(pending: seq<Request>)
    | Collecting(job: G.Job, run: G.State)

  datatype System = System(tables: Tables, cas: Cas, process: Process)

  datatype Happening =
    | BeginImport
    | Install(content: File)
    | SubmitImported(blobHash: Hash, blobSize: nat, observation: Observation)
    | SubmitKnown(known: Observation, expectedBlobSize: nat)
    | Flush(commitFails: bool)
    | EndImport
    | BeginCollection(job: G.Job)
    | Collect(event: G.Event)
    | ProcessDies

  /** No-replace install: an existing name is kept, and reused only at the same size. */
  function InstallFile(cas: Cas, content: File): Cas {
    if content.digest in cas then cas else cas[content.digest := content]
  }

  /** A collection may begin with a plan that a quiet preflight made for these tables and files. */
  ghost predicate MayCollect(y: System, job: G.Job) {
    y.process.Idle? && G.WellPlanned(job) && job.begin == y.tables && job.files == y.cas
  }

  function Submit(y: System, r: Request): System
    requires y.process.Importing?
  {
    y.(process := Importing(y.process.pending + [r]))
  }

  /** Commit the open batch, or stop with every record of it discarded. */
  function FlushBatch(y: System, commitFails: bool): System
    requires y.process.Importing?
  {
    var applied := ApplyAll(y.tables, y.process.pending);
    if applied.Err? || commitFails then y.(process := Idle)
    else System(applied.value.0, y.cas, Importing([]))
  }

  function CollectStep(y: System, e: G.Event): System
    requires y.process.Collecting? && G.InRange(y.process.job, y.process.run.stage)
  {
    var run := G.Step(y.process.job, y.process.run, e);
    System(run.tables, run.files, if run.stage.Ended? then Idle else y.process.(run := run))
  }

  /** One event; an event the current process cannot perform changes nothing. */
  ghost function Happen(y: System, e: Happening): System {
    match e
    case BeginImport => if y.process.Idle? then y.(process := Importing([])) else y
    case Install(content) =>
      if y.process.Importing? then y.(cas := InstallFile(y.cas, content)) else y
    case SubmitImported(h, size, o) =>
      if y.process.Importing? && HasFile(y.cas, h, size) then Submit(y, Imported(h, size, o)) else y
    case SubmitKnown(o, size) =>
      if y.process.Importing? then Submit(y, Known(o, size)) else y
    case Flush(fails) => if y.process.Importing? then FlushBatch(y, fails) else y
    case EndImport => if y.process == Importing([]) then y.(process := Idle) else y
    case BeginCollection(job) =>
      if MayCollect(y, job) then y.(process := Collecting(job, G.Start(job))) else y
    case Collect(event) =>
      if y.process.Collecting? && G.InRange(y.process.job, y.process.run.stage) then CollectStep(y, event) else y
    case ProcessDies => y.(process := Idle)
  }

  ghost function Live(y: System, events: seq<Happening>): System
    decreases |events|
  {
    if events == [] then y else Live(Happen(y, events[0]), events[1..])
  }

  ghost predicate Sound(y: System) {
    && Durable(y.tables, y.cas)
    && (y.process.Importing? ==> forall r :: r in y.process.pending ==> Installed(y.cas, r))
    && (y.process.Collecting? ==>
          var j, s := y.process.job, y.process.run;
          && G.WellPlanned(j) && G.Inv(j, s) && Durable(j.begin, j.files)
          && s.tables == y.tables && s.files == y.cas)
  }

  lemma CollectStepStaysSound(y: System, e: G.Event)
    requires Sound(y) && y.process.Collecting? && G.InRange(y.process.job, y.process.run.stage)
    ensures Sound(CollectStep(y, e))
  {
    var j, s := y.process.job, y.process.run;
    G.StepKeepsInv(j, s, e);
    StateIsDurable(j, G.Step(j, s, e));
  }

  lemma BeginCollectionStaysSound(y: System, job: G.Job)
    requires Sound(y) && MayCollect(y, job)
    ensures Sound(y.(process := Collecting(job, G.Start(job))))
  {
    G.StartFits(job);
  }

  lemma InstallStaysSound(y: System, content: File)
    requires Sound(y) && y.process.Importing?
    ensures Sound(y.(cas := InstallFile(y.cas, content)))
  {
    var cas := InstallFile(y.cas, content);
    MoreFilesKeepDurable(y.tables, y.cas, cas);
    assert forall r :: r in y.process.pending ==> Installed(cas, r);
  }

  lemma FlushStaysSound(y: System, commitFails: bool)
    requires Sound(y) && y.process.Importing?
    ensures Sound(FlushBatch(y, commitFails))
  {
    if ApplyAll(y.tables, y.process.pending).Ok? {
      ApplyAllKeepsDurable(y.tables, y.cas, y.process.pending);
    }
  }

  lemma HappenStaysSound(y: System, e: Happening)
    requires Sound(y)
    ensures Sound(Happen(y, e))
  {
    match e {
      case Install(content) =>
        if y.process.Importing? { InstallStaysSound(y, content); }
      case Flush(fails) =>
        if y.process.Importing? { FlushStaysSound(y, fails); }
      case BeginCollection(job) =>
        if MayCollect(y, job) { BeginCollectionStaysSound(y, job); }
      case Collect(event) =>
        if y.process.Collecting? && G.InRange(y.process.job, y.process.run.stage) { CollectStepStaysSound(y, event); }
      case _ =>
    }
  }

  /** Whole histories. From a store that satisfies the durable invariant, every mix of imports
      and collections, each failing, rolling back, committing in part or dying at any point,
      leaves a store that satisfies it. */
  lemma {:induction false} HistoriesStaySound(y: System, events: seq<Happening>)
    requires Sound(y)
    ensures Sound(Live(y, events)) && Durable(Live(y, events).tables, Live(y, events).cas)
    decreases |events|
  {
    if events != [] {
      HappenStaysSound(y, events[0]);
      HistoriesStaySound(Happen(y, events[0]), events[1..]);
    }
  }

  /** So no history ever loses the content of a recorded source file. */
  lemma NoRecordedSourceLosesItsContent(t: Tables, cas: Cas, events: seq<Happening>, k: SourceKey)
    requires Durable(t, cas)
    ensures var y := Live(System(t, cas, Idle), events);
      k in y.tables.sources ==> HasFile(y.cas, y.tables.sources[k].hash, y.tables.sources[k].size)
  {
    HistoriesStaySound(System(t, cas, Idle), events);
    var y := Live(System(t, cas, Idle), events);
    if k in y.tables.sources {
      assert Referenced(y.tables, y.tables.sources[k].hash);
    }
  }

  /** A collection that stopped midway never blocks the next one: a clean store stays free of
      orphans, wrong sizes and corrupt files through any number of interrupted collections. */
  lemma {:induction false} InterruptedCollectionsStayClean(t: Tables, cas: Cas, jobs: seq<G.Job>, accidents: seq<seq<G.Event>>)
    requires |jobs| == |accidents| && Clean(t, cas)
    requires Chained(t, cas, jobs, accidents)
    ensures Clean(LastOf(t, cas, jobs, accidents).0, LastOf(t, cas, jobs, accidents).1)
    decreases |jobs|
  {
    if jobs != [] {
      CollectionKeepsClean(jobs[0], accidents[0]);
      var s := G.After(jobs[0], accidents[0]);
      InterruptedCollectionsStayClean(s.tables, s.files, jobs[1..], accidents[1..]);
    }
  }

  /** Each job starts from what the one before it left on disk. */
  ghost predicate Chained(t: Tables, cas: Cas, jobs: seq<G.Job>, accidents: seq<seq<G.Event>>)
    requires |jobs| == |accidents|
    decreases |jobs|
  {
    jobs == [] ||
    (&& G.WellPlanned(jobs[0]) && jobs[0].begin == t && jobs[0].files == cas
     && var s := G.After(jobs[0], accidents[0]); Chained(s.tables, s.files, jobs[1..], accidents[1..]))
  }

  ghost function LastOf(t: Tables, cas: Cas, jobs: seq<G.Job>, accidents: seq<seq<G.Event>>): (Tables, Cas)
    requires |jobs| == |accidents|
    decreases |jobs|
  {
    if jobs == [] then (t, cas)
    else var s := G.After(jobs[0], accidents[0]); LastOf(s.tables, s.files, jobs[1..], accidents[1..])
  }
}
