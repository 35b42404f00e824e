/** The bounded bridge between a command and its renderer. */
module Telemetry {
  import opened Domain
  import opened TelemetryLedger

  const INBOX_CAPACITY: nat := 256
  const FAILURES_CAPACITY: nat := 8

  datatype GaugeKey = GaugeKey(command: string, event: Name, stage: string)

  /** The text of the first `stage` field; other field names are told apart by their text. */
  function StageOf(fields: seq<Field>): string {
    if fields == [] then ""
    else if fields[0].name == OtherField("stage") then (if fields[0].value.Text? then fields[0].value.text else "")
    else StageOf(fields[1..])
  }

  datatype SendResult = Sent | Full | Disconnected

  /** Every waiting sample and failure notice is of its kind. */
  predicate SideEvents(failures: seq<Event>, gauges: map<GaugeKey, Event>) {
    && (forall i :: 0 <= i < |failures| ==> IsWorkerFailure(failures[i]))
    && (forall k :: k in gauges ==> IsGauge(gauges[k]))
  }

  class RendererTransport {
    /** Queued and already rendered events. */
    var inbox: seq<Event>
    var rendered: seq<Event>
    /** What waits outside the inbox. */
    var deltas: Deltas
    var failures: seq<Event>
    var gauges: map<GaugeKey, Event>
    /** The sender exists, the renderer has died, the transport has failed. */
    var open: bool
    var broken: bool
    var failed: bool

    ghost predicate Valid()
      reads this
    {
      && |inbox| <= INBOX_CAPACITY && |failures| <= FAILURES_CAPACITY
      && SideEvents(failures, gauges)
      && (forall k :: k in deltas ==> IsDeltaName(k.event))
    }

    /** Everything rendered or on its way in order. */
    ghost function Stream(): seq<Event>
      reads this
    {
      rendered + inbox
    }

    /** The worth of all events rendered, queued, coalesced and waiting. */
    ghost function Worth(v: Event -> nat): nat
      reads this
    {
      SumEvents(Stream(), v) + WorthOf(deltas, v) + SumEvents(failures, v)
    }

    ghost predicate NothingPending()
      reads this
    {
      deltas == map[] && failures == [] && gauges == map[]
    }

    constructor ()
      ensures Valid() && open && !failed && !broken && NothingPending() && Stream() == []
    {
      inbox, rendered, deltas, failures, gauges := [], [], map[], [], map[];
      open, broken, failed := true, false, false;
    }

    /** The renderer thread takes any number of events, or dies. */
    method RendererRuns()
      requires Valid()
      modifies this`inbox, this`rendered, this`broken, this`failed
      ensures Valid() && Stream() == old(Stream()) && |inbox| <= old(|inbox|)
      ensures (old(broken) ==> broken) && (old(failed) ==> failed)
    {
      var dies: bool := *;
      if dies || broken {
        var told: bool := *;
        broken, failed := true, failed || told;
      } else {
        var n :| 0 <= n <= |inbox|;
        assert rendered + inbox == (rendered + inbox[..n]) + inbox[n..];
        rendered, inbox := rendered + inbox[..n], inbox[n..];
      }
    }

    /** A send that does not wait. */
    method TrySend(e: Event) returns (r: SendResult)
      requires Valid()
      modifies this`inbox, this`rendered, this`broken, this`failed
      ensures Valid() && (old(failed) ==> failed)
      ensures r.Disconnected? ==> failed
      ensures r.Sent? ==> Stream() == old(Stream()) + [e]
      ensures !r.Sent? ==> Stream() == old(Stream())
    {
      RendererRuns();
      if broken {
        failed, r := true, Disconnected;
      } else if |inbox| < INBOX_CAPACITY {
        assert rendered + (inbox + [e]) == (rendered + inbox) + [e];
        inbox, r := inbox + [e], Sent;
      } else {
        r := Full;
      }
    }

    /** A send that waits for room. */
    method Send(e: Event)
      requires Valid()
      modifies this`inbox, this`rendered, this`broken, this`failed
      ensures Valid() && (old(failed) ==> failed)
      ensures !failed ==> Stream() == old(Stream()) + [e]
    {
      RendererRuns();
      if !broken && |inbox| == INBOX_CAPACITY {
        assert rendered + inbox == (rendered + inbox[..1]) + inbox[1..];
        rendered, inbox := rendered + inbox[..1], inbox[1..];
      }
      if broken {
        failed := true;
      } else {
        assert rendered + (inbox + [e]) == (rendered + inbox) + [e];
        inbox := inbox + [e];
      }
    }

    method Add(part: Part) returns (done: bool)
      requires Valid() && IsDeltaName(part.key.event)
      modifies this`deltas, this`failed
      ensures Valid() && (done ==> failed == old(failed)) && (!done ==> failed)
      ensures done ==> AddPart(old(deltas), part) == Some(deltas)
    {
      var next := AddPart(deltas, part);
      if next.None? {
        failed := true;
        return false;
      }
      deltas := next.value;
      return true;
    }

    /** Add the counts of a delta event to the waiting increments. */
    method CoalesceDelta(e: Event) returns (done: bool)
      requires Valid()
      modifies this`deltas, this`failed
      ensures Valid() && (old(failed) ==> failed)
      ensures !failed ==> done == (IsDelta(e) && Parts(e) != [])
      ensures !failed ==> AddParts(old(deltas), if done then Parts(e) else []) == Some(deltas)
    {
      if !IsDelta(e) {
        return false;
      }
      done := false;
      var i := 0;
      while i < |e.fields|
        invariant 0 <= i <= |e.fields| && failed == old(failed) && Valid()
        invariant Coalesced(old(deltas), e, i, deltas, done)
      {
        var field := e.fields[i];
        CoalesceStep(old(deltas), e, i, deltas, done);
        if field.value.Count? {
          done := Add(Part(Key(e.command, e.name, field.name), field.value.count));
          if !done {
            return;
          }
        }
        i := i + 1;
      }
      assert e.fields[..i] == e.fields;
    }

    /** Keep only the latest sample of a gauge. */
    method CoalesceGauge(e: Event)
      requires Valid() && IsGauge(e)
      modifies this`gauges
      ensures Valid() && gauges == old(gauges)[GaugeKey(e.command, e.name, StageOf(e.fields)) := e]
    {
      gauges := gauges[GaugeKey(e.command, e.name, StageOf(e.fields)) := e];
    }

    method CoalesceWorkerFailure(e: Event) returns (done: bool)
      requires Valid() && IsWorkerFailure(e)
      modifies this`failures, this`failed
      ensures Valid() && (old(failed) ==> failed) && (done || failed)
      ensures failures == if done then old(failures) + [e] else old(failures)
    {
      if |failures| < FAILURES_CAPACITY {
        failures, done := failures + [e], true;
      } else {
        failed, done := true, false;
      }
    }

    method AddFact(e: Event, event: Name) returns (done: bool)
      requires Valid() && IsDeltaName(event)
      modifies this`deltas, this`failed
      ensures Valid() && (done ==> failed == old(failed)) && (!done ==> failed)
      ensures done ==> AddParts(old(deltas), OneFact(e, event)) == Some(deltas)
    {
      AddOneFact(deltas, e, event);
      done := Add(Part(Key(e.command, event, CountName), 1));
    }

    method AddBlobHashed(e: Event) returns (done: bool)
      requires Valid() && e.name.BlobHashed?
      modifies this`deltas, this`failed
      ensures Valid() && (done ==> failed == old(failed)) && (!done ==> failed)
      ensures done ==> AddParts(old(deltas), FactParts(e)) == Some(deltas)
    {
      var bytes := CountField(e.fields, BytesReadName);
      done := AddFact(e, BlobHashedDelta);
      if done && bytes != 0 {
        var part := Part(Key(e.command, AuditBytesDelta, BytesName), bytes);
        AddPartsOneMore(old(deltas), OneFact(e, BlobHashedDelta), part);
        done := Add(part);
      } else {
        assert bytes == 0 ==> FactParts(e) == OneFact(e, BlobHashedDelta);
      }
    }

    /** Turn a worker's fact into increments, a sample or a waiting failure notice. */
    method CoalesceWorkerFact(e: Event) returns (done: bool)
      requires Valid()
      modifies this`deltas, this`gauges, this`failures, this`failed
      ensures Valid() && (old(failed) ==> failed)
      ensures !failed && done && !IsGauge(e) && !IsWorkerFailure(e) ==>
        Parts(e) != [] && AddParts(old(deltas), Parts(e)) == Some(deltas)
      ensures !failed && (!done || IsGauge(e) || IsWorkerFailure(e)) ==> deltas == old(deltas)
      ensures !failed ==> failures == if done && IsWorkerFailure(e) then old(failures) + [e] else old(failures)
    {
      match e.name {
        case FileDiscovered => done := AddFact(e, FileDiscoveredDelta);
        case FileSkipped => done := AddFact(e, FileSkippedDelta);
        case FileHashed => done := AddFact(e, FileHashedDelta);
        case BlobHashed => done := AddBlobHashed(e);
        case CasBlobCreated => done := AddFact(e, CasBlobCreatedDelta);
        case CasBlobReused => done := AddFact(e, CasBlobReusedDelta);
        case ActiveContentWorkers | QueueOccupancy | QueueBackpressure =>
          CoalesceGauge(e);
          done := true;
        case OperationalFailure => done := CoalesceWorkerFailure(e);
        case SourceBytesDelta | StagingBytesDelta => done := CoalesceDelta(e);
        case _ => done := false;
      }
    }

    /** Move waiting increments into the inbox while there is room. */
    method FlushDeltas(ghost v: Event -> nat)
      requires Valid()
      modifies this`inbox, this`rendered, this`broken, this`failed, this`deltas
      ensures Valid() && (old(failed) ==> failed)
      ensures !failed ==> Worth(v) == old(Worth(v))
    {
      while deltas != map[]
        invariant Valid() && (old(failed) ==> failed)
        invariant !failed ==> Worth(v) == old(Worth(v))
        decreases |deltas|
      {
        var k :| k in deltas;
        MoveDelta(Stream(), deltas, k, v);
        var n, waiting := deltas[k], deltas;
        assert (deltas - {k}).Keys == deltas.Keys - {k};
        deltas := deltas - {k};
        var r := TrySend(DeltaEvent(k, n));
        if r.Full? {
          deltas := deltas[k := n];
          assert deltas == waiting;
          break;
        } else if r.Disconnected? {
          break;
        }
      }
    }

    method FlushFailures(ghost v: Event -> nat) returns (full: bool)
      requires Valid() && IsCounter(v)
      modifies this`inbox, this`rendered, this`broken, this`failed, this`failures
      ensures Valid() && (old(failed) ==> failed)
      ensures !failed ==> Worth(v) == old(Worth(v))
    {
      full := false;
      while failures != [] && !full
        invariant Valid() && (old(failed) ==> failed)
        invariant !failed ==> Worth(v) == old(Worth(v))
        decreases |failures|, if full then 0 else 1
      {
        var e := failures[0];
        FirstOut(failures, v);
        ghost var waiting := failures;
        failures := failures[1..];
        SumOneMore(Stream(), e, v);
        var r := TrySend(e);
        if r.Full? {
          failures, full := [e] + failures, true;
          assert failures == waiting;
        } else if r.Disconnected? {
          full := true;
        }
      }
    }

    method FlushGauges(ghost v: Event -> nat)
      requires Valid() && IsCounter(v)
      modifies this`inbox, this`rendered, this`broken, this`failed, this`gauges
      ensures Valid() && (old(failed) ==> failed)
      ensures !failed ==> Worth(v) == old(Worth(v))
    {
      while gauges != map[]
        invariant Valid() && (old(failed) ==> failed)
        invariant !failed ==> Worth(v) == old(Worth(v))
        decreases |gauges|
      {
        var k :| k in gauges;
        var e := gauges[k];
        assert (gauges - {k}).Keys == gauges.Keys - {k};
        gauges := gauges - {k};
        SumOneMore(Stream(), e, v);
        var r := TrySend(e);
        if r.Full? {
          gauges := gauges[k := e];
          return;
        } else if r.Disconnected? {
          return;
        }
      }
    }

    method FlushPending(ghost v: Event -> nat)
      requires Valid() && IsCounter(v)
      modifies this`inbox, this`rendered, this`broken, this`failed, this`deltas, this`failures, this`gauges
      ensures Valid() && (old(failed) ==> failed)
      ensures !failed ==> Worth(v) == old(Worth(v))
    {
      FlushDeltas(v);
      if failed {
        return;
      }
      var full := FlushFailures(v);
      if full {
        return;
      }
      FlushGauges(v);
    }

    /** Send everything that waits, waiting for room. */
    method DrainPending(ghost v: Event -> nat)
      requires Valid() && IsCounter(v)
      modifies this`inbox, this`rendered, this`broken, this`failed, this`deltas, this`failures, this`gauges
      ensures Valid() && (old(failed) ==> failed)
      ensures !failed ==> Worth(v) == old(Worth(v)) && NothingPending()
      ensures !failed && old(NothingPending()) ==> Stream() == old(Stream())
    {
      DrainDeltas(v);
      if !failed {
        DrainSide(v);
      }
    }

    method DrainDeltas(ghost v: Event -> nat)
      requires Valid()
      modifies this`inbox, this`rendered, this`broken, this`failed, this`deltas
      ensures Valid() && (old(failed) ==> failed)
      ensures !failed ==> Worth(v) == old(Worth(v)) && deltas == map[]
      ensures !failed && old(deltas) == map[] ==> Stream() == old(Stream())
    {
      while deltas != map[]
        invariant Valid() && (old(failed) ==> failed)
        invariant !failed ==> Worth(v) == old(Worth(v))
        invariant old(deltas) == map[] ==> Stream() == old(Stream()) && deltas == map[]
        decreases |deltas|
      {
        var k :| k in deltas;
        MoveDelta(Stream(), deltas, k, v);
        var n := deltas[k];
        assert (deltas - {k}).Keys == deltas.Keys - {k};
        deltas := deltas - {k};
        Send(DeltaEvent(k, n));
        if failed {
          return;
        }
      }
    }

    method DrainSide(ghost v: Event -> nat)
      requires Valid() && IsCounter(v)
      modifies this`inbox, this`rendered, this`broken, this`failed, this`failures, this`gauges
      ensures Valid() && (old(failed) ==> failed)
      ensures !failed ==> Worth(v) == old(Worth(v)) && failures == [] && gauges == map[]
      ensures !failed && old(failures) == [] && old(gauges) == map[] ==> Stream() == old(Stream())
    {
      while failures != []
        invariant Valid() && (old(failed) ==> failed) && gauges == old(gauges)
        invariant !failed ==> Worth(v) == old(Worth(v))
        invariant old(failures) == [] ==> Stream() == old(Stream()) && failures == []
        decreases |failures|
      {
        var e := failures[0];
        FirstOut(failures, v);
        failures := failures[1..];
        SumOneMore(Stream(), e, v);
        Send(e);
        if failed {
          return;
        }
      }
      while gauges != map[]
        invariant Valid() && (old(failed) ==> failed) && failures == []
        invariant !failed ==> Worth(v) == old(Worth(v))
        invariant old(failures) == [] && old(gauges) == map[] ==> Stream() == old(Stream()) && gauges == map[]
        decreases |gauges|
      {
        var k :| k in gauges;
        var e := gauges[k];
        assert (gauges - {k}).Keys == gauges.Keys - {k};
        gauges := gauges - {k};
        SumOneMore(Stream(), e, v);
        Send(e);
        if failed {
          return;
        }
      }
    }

    /** A full inbox: increments, samples and failure notices wait outside, anything else waits
        for room. */
    method EmitFull(e: Event, ghost v: Event -> nat)
      requires Valid() && IsCounter(v)
      modifies this`inbox, this`rendered, this`broken, this`failed, this`deltas, this`failures, this`gauges
      ensures Valid() && (old(failed) ==> failed)
      ensures !failed && Fits(e, v) ==> Worth(v) == old(Worth(v)) + v(e)
    {
      var done := CoalesceDelta(e);
      PartsAreDeltas(e);
      if done {
        if !failed {
          AddPartsWorth(old(deltas), Parts(e), v);
        }
        return;
      }
      done := CoalesceWorkerFact(e);
      if done {
        SumOneMore(old(failures), e, v);
        if !failed && !IsGauge(e) && !IsWorkerFailure(e) {
          AddPartsWorth(old(deltas), Parts(e), v);
        }
        return;
      }
      SumOneMore(Stream(), e, v);
      Send(e);
    }

    /** Every emitted event is accounted for: for any counter it fits, the worth of everything
        rendered, queued and coalesced grows by exactly its own. A terminal event is put after
        everything that was waiting. */
    method Emit(e: Event, ghost v: Event -> nat)
      requires Valid() && IsCounter(v)
      modifies this`inbox, this`rendered, this`broken, this`failed, this`deltas, this`failures, this`gauges
      ensures Valid() && (old(failed) ==> failed)
      ensures !failed && open && Fits(e, v) ==> Worth(v) == old(Worth(v)) + v(e)
      ensures !failed && open && IsTerminal(e) ==>
        NothingPending() && Stream() != [] && Stream()[|Stream()| - 1] == e
      ensures !open ==> Stream() == old(Stream()) && deltas == old(deltas)
    {
      if failed || !open {
        return;
      }
      if IsTerminal(e) {
        DrainPending(v);
        if !failed {
          SumOneMore(Stream(), e, v);
          Send(e);
        }
        return;
      }
      FlushPending(v);
      SumOneMore(Stream(), e, v);
      var r := TrySend(e);
      if r.Full? {
        EmitFull(e, v);
      }
    }

    /** Drain, drop the sender and join the renderer. */
    method Close(ghost v: Event -> nat)
      requires Valid() && IsCounter(v)
      modifies this
      ensures Valid() && !open && (old(failed) ==> failed)
      ensures !failed && old(open) ==>
        NothingPending() && inbox == [] && SumEvents(rendered, v) == old(Worth(v))
      ensures !failed && old(open) && old(NothingPending()) ==> rendered == old(Stream())
    {
      if open {
        DrainPending(v);
      }
      open := false;
      RendererRuns();
      if broken {
        failed := true;
      } else {
        assert rendered + inbox + [] == rendered + inbox;
        rendered, inbox := rendered + inbox, [];
        assert rendered + inbox == rendered;
        EmptyIsWorthless(v);
      }
    }

    /** The end of a command: the terminal event, then the transport is closed. */
    method Finish(terminal: Event, ghost v: Event -> nat)
      requires Valid() && open && IsTerminal(terminal) && IsCounter(v)
      modifies this
      ensures Valid() && (old(failed) ==> failed)
      ensures !failed ==>
        && SumEvents(rendered, v) == old(Worth(v)) + v(terminal)
        && rendered != [] && rendered[|rendered| - 1] == terminal
    {
      Emit(terminal, v);
      Close(v);
    }
  }

  lemma FirstOut(events: seq<Event>, v: Event -> nat)
    requires events != []
    ensures SumEvents(events, v) == v(events[0]) + SumEvents(events[1..], v)
  {
    SumWithout(events, 0, v);
    assert events[..0] + events[1..] == events[1..];
  }

  lemma EmptyIsWorthless(v: Event -> nat)
    ensures WorthOf(map[], v) == 0
  {
  }

  lemma SumSoFar(events: seq<Event>, i: nat, v: Event -> nat)
    requires i < |events|
    ensures SumEvents(events[..i + 1], v) == SumEvents(events[..i], v) + v(events[i])
  {
    assert events[..i + 1] == events[..i] + [events[i]];
    SumOneMore(events[..i], events[i], v);
  }

  /** A whole command: however the renderer keeps up, and whatever was coalesced, it has in the
      end rendered the worth of everything emitted, and the terminal event last. */
  method RunCommand(events: seq<Event>, terminal: Event, ghost v: Event -> nat) returns (t: RendererTransport)
    requires IsTerminal(terminal) && IsCounter(v) && forall i :: 0 <= i < |events| ==> Fits(events[i], v)
    ensures fresh(t)
    ensures !t.failed ==>
      && SumEvents(t.rendered, v) == SumEvents(events, v) + v(terminal)
      && t.rendered != [] && t.rendered[|t.rendered| - 1] == terminal
  {
    t := new RendererTransport();
    EmptyIsWorthless(v);
    var i := 0;
    while i < |events|
      invariant 0 <= i <= |events| && fresh(t) && t.Valid() && t.open
      invariant !t.failed ==> t.Worth(v) == SumEvents(events[..i], v)
    {
      SumSoFar(events, i, v);
      t.Emit(events[i], v);
      i := i + 1;
    }
    assert events[..i] == events;
    t.Finish(terminal, v);
  }

  /** The same for every coalescing key, with no condition on the events. */
  method RunCommandForKey(events: seq<Event>, terminal: Event, ghost k: Key) returns (t: RendererTransport)
    requires IsTerminal(terminal)
    ensures fresh(t)
    ensures !t.failed ==> SumEvents(t.rendered, Under(k)) == SumEvents(events, Under(k))
  {
    UnderIsCounter(k);
    forall i | 0 <= i < |events| ensures Fits(events[i], Under(k)) {
      UnderFits(k, events[i]);
    }
    t := RunCommand(events, terminal, Under(k));
  }

  /** No fact is lost or doubled: an event that no rule coalesces, and a failure notice, is
      rendered exactly as often as it was emitted. */
  method RunCommandForFact(events: seq<Event>, terminal: Event, ghost e: Event) returns (t: RendererTransport)
    requires IsTerminal(terminal) && Parts(e) == [] && !IsDelta(e) && !IsGauge(e)
    ensures fresh(t)
    ensures !t.failed ==>
      SumEvents(t.rendered, Occurs(e)) == SumEvents(events, Occurs(e)) + if e == terminal then 1 else 0
  {
    OccursIsCounter(e);
    t := RunCommand(events, terminal, Occurs(e));
  }
}
