/** Telemetry events, the counters they add to, and what coalescing turns them into. */
module TelemetryLedger {
  import opened Domain
  import opened MapSum

  const U64_MAX: nat := 0xffff_ffff_ffff_ffff

  /** The event names that the transport or the dashboard distinguish. A name outside this
      vocabulary is told apart only by whether it ends in `_delta`. */
  datatype Name =
    | FileDiscovered | FileSkipped | FileHashed | BlobHashed | CasBlobCreated | CasBlobReused
    | FileDiscoveredDelta | FileSkippedDelta | FileHashedDelta | BlobHashedDelta | CasBlobCreatedDelta
    | CasBlobReusedDelta | SourceBytesDelta | AuditBytesDelta | StagingBytesDelta
    | ActiveContentWorkers | QueueOccupancy | QueueBackpressure | OperationalFailure
    | CommandSummary | CommandFailed | BlobDiscovered | Finding
    | CatalogRecordCommitted | CatalogBatchCommitted | CatalogCheckpointCompleted
    | GcBlobHashed | GcAction | GcCatalogCommitted
    | TreeEntryPlanned | TreeLinkApplied | TreeDirectoryApplied
    | OtherDelta(text: string) | OtherEvent(text: string)

  datatype FieldName =
    | CountName | BytesName | BytesReadName | StagingBytesName | BytesUnlinkedName | OtherField(text: string)

  datatype Value = Boolean(on: bool) | Count(count: nat) | Text(text: string)

  datatype Field = Field(name: FieldName, value: Value)

  datatype Event = Event(command: string, name: Name, fields: seq<Field>)

  /** The key under which increments wait while the inbox is full. */
  datatype Key = Key(command: string, event: Name, field: FieldName)

  datatype Part = Part(key: Key, amount: nat)

  type Deltas = map<Key, nat>

  function DeltaEvent(k: Key, amount: nat): Event {
    Event(k.command, k.event, [Field(k.field, Count(amount))])
  }

  predicate IsDelta(e: Event) {
    IsDeltaName(e.name)
  }

  predicate IsDeltaName(name: Name) {
    match name
    case FileDiscoveredDelta | FileSkippedDelta | FileHashedDelta | BlobHashedDelta => true
    case CasBlobCreatedDelta | CasBlobReusedDelta | SourceBytesDelta | AuditBytesDelta | StagingBytesDelta => true
    case OtherDelta(_) => true
    case _ => false
  }

  predicate IsTerminal(e: Event) {
    e.name.CommandSummary? || e.name.CommandFailed?
  }

  predicate IsGauge(e: Event) {
    e.name.ActiveContentWorkers? || e.name.QueueOccupancy? || e.name.QueueBackpressure?
  }

  predicate IsWorkerFailure(e: Event) {
    e.name.OperationalFailure?
  }

  /** The first field of that name, if it is a count. */
  function CountField(fields: seq<Field>, name: FieldName): nat {
    if fields == [] then 0
    else if fields[0].name == name then (if fields[0].value.Count? then fields[0].value.count else 0)
    else CountField(fields[1..], name)
  }

  // ---------------------------------------------------------------------------
  // Coalescing
  // ---------------------------------------------------------------------------

  function CountParts(e: Event, fields: seq<Field>): seq<Part> {
    if fields == [] then []
    else
      var before, last := CountParts(e, fields[..|fields| - 1]), fields[|fields| - 1];
      if last.value.Count? then before + [Part(Key(e.command, e.name, last.name), last.value.count)] else before
  }

  function OneFact(e: Event, event: Name): seq<Part> {
    [Part(Key(e.command, event, CountName), 1)]
  }

  function FactParts(e: Event): seq<Part> {
    if e.name.FileDiscovered? then OneFact(e, FileDiscoveredDelta)
    else if e.name.FileSkipped? then OneFact(e, FileSkippedDelta)
    else if e.name.FileHashed? then OneFact(e, FileHashedDelta)
    else if e.name.BlobHashed? then
      var bytes := CountField(e.fields, BytesReadName);
      OneFact(e, BlobHashedDelta) +
      (if bytes == 0 then [] else [Part(Key(e.command, AuditBytesDelta, BytesName), bytes)])
    else if e.name.CasBlobCreated? then OneFact(e, CasBlobCreatedDelta)
    else if e.name.CasBlobReused? then OneFact(e, CasBlobReusedDelta)
    else []
  }

  /** The increments that stand for an event once it is coalesced; none if it cannot be. */
  function Parts(e: Event): seq<Part> {
    if IsDelta(e) then CountParts(e, e.fields) else FactParts(e)
  }

  function AddPart(d: Deltas, p: Part): Option<Deltas> {
    if p.key !in d then Some(d[p.key := p.amount])
    else if d[p.key] + p.amount > U64_MAX then None
    else Some(d[p.key := d[p.key] + p.amount])
  }

  function AddParts(d: Deltas, parts: seq<Part>): Option<Deltas> {
    if parts == [] then Some(d)
    else
      var before := AddParts(d, parts[..|parts| - 1]);
      if before.None? then None else AddPart(before.value, parts[|parts| - 1])
  }

  lemma AddPartsOneMore(d: Deltas, parts: seq<Part>, p: Part)
    requires AddParts(d, parts).Some?
    ensures AddParts(d, parts + [p]) == AddPart(AddParts(d, parts).value, p)
  {
    assert (parts + [p])[..|parts|] == parts;
  }

  lemma AddOneFact(d: Deltas, e: Event, event: Name)
    ensures AddParts(d, OneFact(e, event)) == AddPart(d, Part(Key(e.command, event, CountName), 1))
  {
    var parts := OneFact(e, event);
    assert parts[..0] == [];
    assert AddParts(d, []) == Some(d);
  }

  lemma CountPartsOneMore(e: Event, fields: seq<Field>, i: nat)
    requires i < |fields|
    ensures CountParts(e, fields[..i + 1]) == CountParts(e, fields[..i]) +
      if fields[i].value.Count? then [Part(Key(e.command, e.name, fields[i].name), fields[i].value.count)] else []
  {
    assert fields[..i + 1][..i] == fields[..i];
  }

  /** The first i fields of a delta event are added. */
  ghost predicate Coalesced(before: Deltas, e: Event, i: nat, after: Deltas, done: bool)
    requires i <= |e.fields|
  {
    && done == (CountParts(e, e.fields[..i]) != [])
    && AddParts(before, CountParts(e, e.fields[..i])) == Some(after)
  }

  lemma CoalesceStep(before: Deltas, e: Event, i: nat, after: Deltas, done: bool)
    requires i < |e.fields| && Coalesced(before, e, i, after, done)
    ensures var field := e.fields[i];
      if field.value.Count? then
        var next := AddPart(after, Part(Key(e.command, e.name, field.name), field.value.count));
        next.Some? ==> Coalesced(before, e, i + 1, next.value, true)
      else
        Coalesced(before, e, i + 1, after, done)
  {
    CountPartsOneMore(e, e.fields, i);
    var field, parts := e.fields[i], CountParts(e, e.fields[..i]);
    if field.value.Count? {
      AddPartsOneMore(before, parts, Part(Key(e.command, e.name, field.name), field.value.count));
    } else {
      assert parts + [] == parts;
    }
  }

  // ---------------------------------------------------------------------------
  // Valuations
  // ---------------------------------------------------------------------------

  /** Any way of giving events a worth that adds up over increments of one key. */
  ghost predicate Linear(v: Event -> nat) {
    forall k: Key, a: nat, b: nat :: IsDeltaName(k.event) ==>
      v(DeltaEvent(k, a + b)) == v(DeltaEvent(k, a)) + v(DeltaEvent(k, b))
  }

  ghost function SumEvents(es: seq<Event>, v: Event -> nat): nat {
    if es == [] then 0 else SumEvents(es[..|es| - 1], v) + v(es[|es| - 1])
  }

  ghost function PartsWorth(parts: seq<Part>, v: Event -> nat): nat {
    if parts == [] then 0
    else PartsWorth(parts[..|parts| - 1], v) + v(DeltaEvent(parts[|parts| - 1].key, parts[|parts| - 1].amount))
  }

  ghost function DeltaWorth(v: Event -> nat): (Key, nat) -> nat {
    (k: Key, n: nat) => v(DeltaEvent(k, n))
  }

  ghost function WorthOf(d: Deltas, v: Event -> nat): nat {
    Sum(d, DeltaWorth(v))
  }

  /** A counter: linear in the increments, and indifferent to samples. */
  ghost predicate IsCounter(v: Event -> nat) {
    Linear(v) && forall e :: IsGauge(e) ==> v(e) == 0
  }

  /** The event is worth what its increments are worth. */
  ghost predicate Fits(e: Event, v: Event -> nat) {
    Parts(e) != [] ==> v(e) == PartsWorth(Parts(e), v)
  }

  lemma {:induction false} SumEventsAppend(a: seq<Event>, b: seq<Event>, v: Event -> nat)
    ensures SumEvents(a + b, v) == SumEvents(a, v) + SumEvents(b, v)
  {
    if b == [] {
      assert a + b == a;
    } else {
      assert (a + b)[..|a + b| - 1] == a + b[..|b| - 1];
      SumEventsAppend(a, b[..|b| - 1], v);
    }
  }

  lemma SumOneMore(a: seq<Event>, e: Event, v: Event -> nat)
    ensures SumEvents(a + [e], v) == SumEvents(a, v) + v(e)
  {
    assert (a + [e])[..|a|] == a;
  }

  lemma SplitAt<T>(xs: seq<T>, i: nat)
    requires i < |xs|
    ensures xs == (xs[..i] + [xs[i]]) + xs[i + 1..]
  {
  }

  /** Taking one event out. */
  lemma SumWithout(events: seq<Event>, i: nat, v: Event -> nat)
    requires i < |events|
    ensures SumEvents(events, v) == SumEvents(events[..i] + events[i + 1..], v) + v(events[i])
  {
    SplitAt(events, i);
    SumEventsAppend(events[..i] + [events[i]], events[i + 1..], v);
    SumOneMore(events[..i], events[i], v);
    SumEventsAppend(events[..i], events[i + 1..], v);
  }

  /** How often an event occurs. */
  ghost function Occurs(e: Event): Event -> nat {
    (x: Event) => if x == e then 1 else 0
  }

  /** An event with no coalescing rule, and a failure notice, may be counted one by one. */
  lemma OccursIsCounter(e: Event)
    requires Parts(e) == [] && !IsDelta(e) && !IsGauge(e)
    ensures IsCounter(Occurs(e))
    ensures forall x :: Fits(x, Occurs(e))
  {
    forall x ensures Fits(x, Occurs(e)) {
      if Parts(x) != [] {
        PartsAreDeltas(x);
        NoPartOccurs(e, Parts(x));
      }
    }
  }

  lemma {:induction false} NoPartOccurs(e: Event, parts: seq<Part>)
    requires !IsDelta(e) && AreDeltas(parts)
    ensures PartsWorth(parts, Occurs(e)) == 0
  {
    if parts != [] {
      NoPartOccurs(e, parts[..|parts| - 1]);
    }
  }

  lemma AddPartWorth(d: Deltas, p: Part, v: Event -> nat)
    requires Linear(v) && AddPart(d, p).Some? && IsDeltaName(p.key.event)
    ensures WorthOf(AddPart(d, p).value, v) == WorthOf(d, v) + v(DeltaEvent(p.key, p.amount))
  {
    if p.key in d {
      var total: nat := d[p.key] + p.amount;
      SumChange(d, p.key, total, DeltaWorth(v));
      assert v(DeltaEvent(p.key, d[p.key] + p.amount)) == v(DeltaEvent(p.key, d[p.key])) + v(DeltaEvent(p.key, p.amount));
    } else {
      SumAdd(d, p.key, p.amount, DeltaWorth(v));
    }
  }

  predicate AreDeltas(parts: seq<Part>) {
    forall i :: 0 <= i < |parts| ==> IsDeltaName(parts[i].key.event)
  }

  lemma {:induction false} CountPartsAreDeltas(e: Event, fields: seq<Field>)
    requires IsDelta(e)
    ensures AreDeltas(CountParts(e, fields))
  {
    if fields != [] {
      CountPartsAreDeltas(e, fields[..|fields| - 1]);
    }
  }

  lemma PartsAreDeltas(e: Event)
    ensures AreDeltas(Parts(e))
  {
    if IsDelta(e) {
      CountPartsAreDeltas(e, e.fields);
    }
  }

  lemma {:induction false} AddPartsWorth(d: Deltas, parts: seq<Part>, v: Event -> nat)
    requires Linear(v) && AddParts(d, parts).Some? && AreDeltas(parts)
    ensures WorthOf(AddParts(d, parts).value, v) == WorthOf(d, v) + PartsWorth(parts, v)
  {
    if parts != [] {
      var n := |parts| - 1;
      AddPartsWorth(d, parts[..n], v);
      AddPartWorth(AddParts(d, parts[..n]).value, parts[n], v);
    }
  }

  lemma TakeDeltaWorth(d: Deltas, k: Key, v: Event -> nat)
    requires k in d
    ensures WorthOf(d, v) == v(DeltaEvent(k, d[k])) + WorthOf(d - {k}, v)
  {
    SumSplit(d, k, DeltaWorth(v));
  }

  /** An increment keeps its worth when it leaves the waiting room for the stream. */
  lemma MoveDelta(stream: seq<Event>, d: Deltas, k: Key, v: Event -> nat)
    requires k in d
    ensures SumEvents(stream + [DeltaEvent(k, d[k])], v) + WorthOf(d - {k}, v) == SumEvents(stream, v) + WorthOf(d, v)
  {
    SumOneMore(stream, DeltaEvent(k, d[k]), v);
    TakeDeltaWorth(d, k, v);
  }

  // ---------------------------------------------------------------------------
  // The dashboard
  // ---------------------------------------------------------------------------

  datatype Counter =
    | Files | Completed | Skipped | BytesRead | BytesWritten | BlobsCreated | BlobsReused
    | Committed | Batches | Checkpoints | Unlinked | TreeDirectories

  /** What an event adds to a counter of the dashboard. */
  function Adds(c: Counter, e: Event): nat {
    match c
    case Files =>
      if e.name.FileDiscovered? || e.name.BlobDiscovered? || e.name.TreeEntryPlanned? then 1
      else if e.name.FileDiscoveredDelta? then CountField(e.fields, CountName) else 0
    case Skipped =>
      if e.name.FileSkipped? || e.name.Finding? then 1
      else if e.name.FileSkippedDelta? then CountField(e.fields, CountName) else 0
    case Completed =>
      if e.name.FileSkipped? || e.name.FileHashed? || e.name.BlobHashed? || e.name.GcAction? || e.name.TreeLinkApplied? then 1
      else if e.name.FileSkippedDelta? || e.name.FileHashedDelta? || e.name.BlobHashedDelta?
      then CountField(e.fields, CountName) else 0
    case BytesRead =>
      if e.name.FileHashed? || e.name.BlobHashed? || e.name.GcBlobHashed? then CountField(e.fields, BytesReadName)
      else if e.name.SourceBytesDelta? || e.name.AuditBytesDelta? then CountField(e.fields, BytesName) else 0
    case BytesWritten =>
      if e.name.FileHashed? || e.name.BlobHashed? then CountField(e.fields, StagingBytesName)
      else if e.name.StagingBytesDelta? then CountField(e.fields, BytesName) else 0
    case BlobsCreated =>
      if e.name.CasBlobCreated? || e.name.GcBlobHashed? then 1
      else if e.name.CasBlobCreatedDelta? then CountField(e.fields, CountName) else 0
    case BlobsReused =>
      if e.name.CasBlobReused? then 1
      else if e.name.CasBlobReusedDelta? then CountField(e.fields, CountName) else 0
    case Committed => if e.name.CatalogRecordCommitted? then 1 else 0
    case Batches => if e.name.CatalogBatchCommitted? || e.name.GcCatalogCommitted? then 1 else 0
    case Checkpoints => if e.name.CatalogCheckpointCompleted? then 1 else 0
    case Unlinked => if e.name.GcCatalogCommitted? then CountField(e.fields, BytesUnlinkedName) else 0
    case TreeDirectories => if e.name.TreeDirectoryApplied? then 1 else 0
  }

  ghost function Adding(c: Counter): Event -> nat {
    e => Adds(c, e)
  }

  lemma AddsIsCounter(c: Counter)
    ensures IsCounter(Adding(c))
  {
    forall k: Key, a: nat, b: nat | IsDeltaName(k.event)
      ensures Adding(c)(DeltaEvent(k, a + b)) == Adding(c)(DeltaEvent(k, a)) + Adding(c)(DeltaEvent(k, b))
    {
      PartAdds(c, k, a);
      PartAdds(c, k, b);
      PartAdds(c, k, a + b);
    }
  }

  /** Byte counts that coalescing does not carry over. */
  predicate CarriesUncoalescedBytes(e: Event) {
    || (e.name.FileHashed? && (CountField(e.fields, BytesReadName) > 0 || CountField(e.fields, StagingBytesName) > 0))
    || (e.name.BlobHashed? && CountField(e.fields, StagingBytesName) > 0)
  }

  predicate DistinctFields(fields: seq<Field>) {
    forall i, j :: 0 <= i < j < |fields| ==> fields[i].name != fields[j].name
  }

  /** The last field of a list, seen by the lookup that starts at the first. */
  lemma {:induction false} CountFieldOfLast(fields: seq<Field>, name: FieldName)
    requires DistinctFields(fields) && fields != []
    ensures var n := |fields| - 1;
      CountField(fields, name) ==
      CountField(fields[..n], name) + if fields[n].name == name && fields[n].value.Count? then fields[n].value.count else 0
  {
    var n := |fields| - 1;
    if n > 0 {
      CountFieldOfLast(fields[1..], name);
      assert fields[1..][..n - 1] == fields[..n][1..];
      if fields[0].name == name {
        assert fields[n].name != name;
      }
    }
  }

  /** The field whose count a delta event adds to a counter. */
  function DeltaField(c: Counter): FieldName {
    if c.BytesRead? || c.BytesWritten? then BytesName else CountName
  }

  predicate CountsTo(c: Counter, name: Name) {
    match c
    case Files => name.FileDiscoveredDelta?
    case Skipped => name.FileSkippedDelta?
    case Completed => name.FileSkippedDelta? || name.FileHashedDelta? || name.BlobHashedDelta?
    case BytesRead => name.SourceBytesDelta? || name.AuditBytesDelta?
    case BytesWritten => name.StagingBytesDelta?
    case BlobsCreated => name.CasBlobCreatedDelta?
    case BlobsReused => name.CasBlobReusedDelta?
    case _ => false
  }

  lemma DeltaAdds(c: Counter, e: Event)
    requires IsDelta(e)
    ensures Adds(c, e) == if CountsTo(c, e.name) then CountField(e.fields, DeltaField(c)) else 0
  {
  }

  lemma PartAdds(c: Counter, k: Key, n: nat)
    requires IsDeltaName(k.event)
    ensures Adds(c, DeltaEvent(k, n)) == if CountsTo(c, k.event) && k.field == DeltaField(c) then n else 0
  {
    DeltaAdds(c, DeltaEvent(k, n));
    assert CountField([], DeltaField(c)) == 0;
  }

  lemma LastPartAdds(c: Counter, e: Event, fields: seq<Field>)
    requires IsDelta(e) && fields != []
    ensures var n := |fields| - 1;
      PartsWorth(CountParts(e, fields), Adding(c)) == PartsWorth(CountParts(e, fields[..n]), Adding(c)) +
      if fields[n].value.Count? && CountsTo(c, e.name) && fields[n].name == DeltaField(c) then fields[n].value.count else 0
  {
    var field := fields[|fields| - 1];
    if field.value.Count? {
      var part := Part(Key(e.command, e.name, field.name), field.value.count);
      PartAdds(c, part.key, part.amount);
      WorthOneMore(CountParts(e, fields[..|fields| - 1]), part, Adding(c));
    }
  }

  lemma {:induction false} DeltaPartsAdd(c: Counter, e: Event, fields: seq<Field>)
    requires IsDelta(e) && DistinctFields(fields)
    ensures PartsWorth(CountParts(e, fields), Adding(c)) ==
      if CountsTo(c, e.name) then CountField(fields, DeltaField(c)) else 0
  {
    if fields != [] {
      DeltaPartsAdd(c, e, fields[..|fields| - 1]);
      CountFieldOfLast(fields, DeltaField(c));
      LastPartAdds(c, e, fields);
    }
  }

  lemma WorthOneMore(parts: seq<Part>, p: Part, v: Event -> nat)
    ensures PartsWorth(parts + [p], v) == PartsWorth(parts, v) + v(DeltaEvent(p.key, p.amount))
  {
    assert (parts + [p])[..|parts|] == parts;
  }

  lemma OneFactWorth(c: Counter, e: Event, name: Name)
    requires IsDeltaName(name)
    ensures PartsWorth(OneFact(e, name), Adding(c)) == if CountsTo(c, name) && DeltaField(c) == CountName then 1 else 0
  {
    var p := Part(Key(e.command, name, CountName), 1);
    PartAdds(c, p.key, 1);
    WorthOneMore([], p, Adding(c));
    assert [] + [p] == OneFact(e, name);
  }

  lemma BlobHashedWorth(c: Counter, e: Event)
    requires e.name.BlobHashed?
    ensures PartsWorth(FactParts(e), Adding(c)) ==
      (if c.Completed? then 1 else if c.BytesRead? then CountField(e.fields, BytesReadName) else 0)
  {
    var bytes := CountField(e.fields, BytesReadName);
    OneFactWorth(c, e, BlobHashedDelta);
    if bytes == 0 {
      assert FactParts(e) == OneFact(e, BlobHashedDelta);
    } else {
      var p := Part(Key(e.command, AuditBytesDelta, BytesName), bytes);
      PartAdds(c, p.key, bytes);
      WorthOneMore(OneFact(e, BlobHashedDelta), p, Adding(c));
    }
  }

  /** What coalescing an event adds to a counter, for every event it applies to. */
  lemma CoalescedAdds(c: Counter, e: Event)
    requires DistinctFields(e.fields) && Parts(e) != []
    ensures PartsWorth(Parts(e), Adding(c)) ==
      if (e.name.FileHashed? && (c.BytesRead? || c.BytesWritten?)) || (e.name.BlobHashed? && c.BytesWritten?)
      then 0 else Adds(c, e)
  {
    if IsDelta(e) {
      DeltaPartsAdd(c, e, e.fields);
      DeltaAdds(c, e);
    } else if e.name.BlobHashed? {
      BlobHashedWorth(c, e);
    } else {
      OneFactWorth(c, e, FactParts(e)[0].key.event);
      assert FactParts(e) == OneFact(e, FactParts(e)[0].key.event);
    }
  }

  /** No dashboard total depends on whether an event is coalesced, exactly when a finished file
      does not carry byte counts of its own. */
  lemma CoalescingIsExactIff(e: Event)
    requires DistinctFields(e.fields)
    ensures (forall c :: Fits(e, Adding(c))) <==> !CarriesUncoalescedBytes(e)
  {
    if !CarriesUncoalescedBytes(e) {
      forall c ensures Fits(e, Adding(c)) {
        if Parts(e) != [] {
          CoalescedAdds(c, e);
        }
      }
    } else {
      var c := if CountField(e.fields, StagingBytesName) > 0 then BytesWritten else BytesRead;
      CoalescedAdds(c, e);
      assert !Fits(e, Adding(c));
    }
  }

  // ---------------------------------------------------------------------------
  // One key of the ledger
  // ---------------------------------------------------------------------------

  function AmountIn(parts: seq<Part>, k: Key): nat {
    if parts == [] then 0
    else
      var last := parts[|parts| - 1];
      AmountIn(parts[..|parts| - 1], k) + if last.key == k then last.amount else 0
  }

  /** What an event stands for under one key, coalesced or not. */
  ghost function Under(k: Key): Event -> nat {
    e => AmountIn(Parts(e), k)
  }

  lemma DeltaUnder(k: Key, key: Key, n: nat)
    requires IsDeltaName(key.event)
    ensures Under(k)(DeltaEvent(key, n)) == if key == k then n else 0
  {
    var e := DeltaEvent(key, n);
    assert e.fields[..0] == [] && CountParts(e, []) == [];
    assert Parts(e) == [Part(key, n)];
    assert AmountIn([], k) == 0 && Parts(e)[..0] == [];
  }

  lemma UnderIsCounter(k: Key)
    ensures IsCounter(Under(k))
  {
    forall key: Key, a: nat, b: nat | IsDeltaName(key.event)
      ensures Under(k)(DeltaEvent(key, a + b)) == Under(k)(DeltaEvent(key, a)) + Under(k)(DeltaEvent(key, b))
    {
      DeltaUnder(k, key, a);
      DeltaUnder(k, key, b);
      DeltaUnder(k, key, a + b);
    }
  }

  lemma {:induction false} PartsWorthUnder(parts: seq<Part>, k: Key)
    requires AreDeltas(parts)
    ensures PartsWorth(parts, Under(k)) == AmountIn(parts, k)
  {
    if parts != [] {
      var n := |parts| - 1;
      PartsWorthUnder(parts[..n], k);
      DeltaUnder(k, parts[n].key, parts[n].amount);
    }
  }

  /** Under every key every event is worth what its increments are worth. */
  lemma UnderFits(k: Key, e: Event)
    ensures Fits(e, Under(k))
  {
    PartsAreDeltas(e);
    PartsWorthUnder(Parts(e), k);
  }
}
