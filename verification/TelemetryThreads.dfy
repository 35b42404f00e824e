/** Several threads emit at once. Each lock section and each channel operation of the transport
    is one atomic step; between two of them any other thread or the renderer may run. */
module TelemetryThreads {
  import opened Domain
  import opened MapSum
  import opened TelemetryLedger

  /** `hands` are the events that threads have begun to emit and not yet placed. */
  datatype State = State(
    hands: map<nat, Event>, inbox: seq<Event>, rendered: seq<Event>, deltas: Deltas, side: seq<Event>)

  datatype Action =
    | Begin(thread: nat, event: Event)
    | Enqueue(thread: nat)
    | Coalesce(thread: nat)
    | Shelve(thread: nat)
    | FlushDelta(key: Key)
    | FlushSide(position: nat)
    | ReplaceSample(position: nat)
    | Render

  predicate Enabled(st: State, a: Action) {
    match a
    case Begin(t, _) => t !in st.hands
    case Enqueue(t) => t in st.hands
    case Coalesce(t) => t in st.hands && Parts(st.hands[t]) != [] && AddParts(st.deltas, Parts(st.hands[t])).Some?
    case Shelve(t) => t in st.hands && (IsGauge(st.hands[t]) || IsWorkerFailure(st.hands[t]))
    case FlushDelta(k) => k in st.deltas
    case FlushSide(i) => i < |st.side|
    case ReplaceSample(i) => i < |st.side| && IsGauge(st.side[i])
    case Render => st.inbox != []
  }

  function Do(st: State, a: Action): State
    requires Enabled(st, a)
  {
    match a
    case Begin(t, e) => st.(hands := st.hands[t := e])
    case Enqueue(t) => st.(hands := st.hands - {t}, inbox := st.inbox + [st.hands[t]])
    case Coalesce(t) => st.(hands := st.hands - {t}, deltas := AddParts(st.deltas, Parts(st.hands[t])).value)
    case Shelve(t) => st.(hands := st.hands - {t}, side := st.side + [st.hands[t]])
    case FlushDelta(k) => st.(deltas := st.deltas - {k}, inbox := st.inbox + [DeltaEvent(k, st.deltas[k])])
    case FlushSide(i) => st.(side := st.side[..i] + st.side[i + 1..], inbox := st.inbox + [st.side[i]])
    case ReplaceSample(i) => st.(side := st.side[..i] + st.side[i + 1..])
    case Render => st.(inbox := st.inbox[1..], rendered := st.rendered + [st.inbox[0]])
  }

  ghost predicate Steps(st: State, actions: seq<Action>)
    decreases |actions|
  {
    actions == [] || (Enabled(st, actions[0]) && Steps(Do(st, actions[0]), actions[1..]))
  }

  ghost function RunOf(st: State, actions: seq<Action>): State
    requires Steps(st, actions)
    decreases |actions|
  {
    if actions == [] then st else RunOf(Do(st, actions[0]), actions[1..])
  }

  ghost function Emitted(actions: seq<Action>, v: Event -> nat): nat {
    if actions == [] then 0
    else (if actions[0].Begin? then v(actions[0].event) else 0) + Emitted(actions[1..], v)
  }

  ghost function HandWorth(v: Event -> nat): (nat, Event) -> nat {
    (t: nat, e: Event) => v(e)
  }

  ghost function Worth(st: State, v: Event -> nat): nat {
    Sum(st.hands, HandWorth(v)) + SumEvents(st.rendered + st.inbox, v) + WorthOf(st.deltas, v) + SumEvents(st.side, v)
  }

  ghost predicate Fair(st: State, v: Event -> nat) {
    && (forall t :: t in st.hands ==> Fits(st.hands[t], v))
    && (forall i :: 0 <= i < |st.side| ==> IsGauge(st.side[i]) || IsWorkerFailure(st.side[i]))
  }

  lemma FairStep(st: State, a: Action, v: Event -> nat)
    requires Fair(st, v) && Enabled(st, a) && (a.Begin? ==> Fits(a.event, v))
    ensures Fair(Do(st, a), v)
  {
  }

  /** One event or increment reaches the inbox. */
  lemma Queued(st: State, e: Event, v: Event -> nat)
    ensures SumEvents(st.rendered + (st.inbox + [e]), v) == SumEvents(st.rendered + st.inbox, v) + v(e)
  {
    assert st.rendered + (st.inbox + [e]) == (st.rendered + st.inbox) + [e];
    SumOneMore(st.rendered + st.inbox, e, v);
  }

  lemma StepConserves(st: State, a: Action, v: Event -> nat)
    requires IsCounter(v) && Fair(st, v) && Enabled(st, a)
    ensures Worth(Do(st, a), v) == Worth(st, v) + if a.Begin? then v(a.event) else 0
  {
    match a {
      case Begin(t, e) => SumAdd(st.hands, t, e, HandWorth(v));
      case Enqueue(t) =>
        SumSplit(st.hands, t, HandWorth(v));
        Queued(st, st.hands[t], v);
      case Coalesce(t) =>
        SumSplit(st.hands, t, HandWorth(v));
        PartsAreDeltas(st.hands[t]);
        AddPartsWorth(st.deltas, Parts(st.hands[t]), v);
      case Shelve(t) =>
        SumSplit(st.hands, t, HandWorth(v));
        SumOneMore(st.side, st.hands[t], v);
      case FlushDelta(k) =>
        TakeDeltaWorth(st.deltas, k, v);
        Queued(st, DeltaEvent(k, st.deltas[k]), v);
      case FlushSide(i) =>
        SumWithout(st.side, i, v);
        Queued(st, st.side[i], v);
      case ReplaceSample(i) => SumWithout(st.side, i, v);
      case Render => assert (st.rendered + [st.inbox[0]]) + st.inbox[1..] == st.rendered + st.inbox;
    }
  }

  /** Per coalescing key, and so without any condition on the events: in every interleaving from an
      empty transport, what all places hold under the key is what was emitted under it. */
  lemma EveryKeyIsConserved(st: State, actions: seq<Action>, k: Key)
    requires st == State(map[], [], [], map[], []) && Steps(st, actions)
    ensures Worth(RunOf(st, actions), Under(k)) == Emitted(actions, Under(k))
  {
    UnderIsCounter(k);
    forall i | 0 <= i < |actions| && actions[i].Begin? ensures Fits(actions[i].event, Under(k)) {
      UnderFits(k, actions[i].event);
    }
    InterleavingsConserve(st, actions, Under(k));
  }

  /** No fact is lost or doubled in any interleaving: an event that no rule coalesces, and a
      failure notice, is in all places together as often as it was emitted. */
  lemma EveryFactIsConserved(st: State, actions: seq<Action>, e: Event)
    requires st == State(map[], [], [], map[], []) && Steps(st, actions)
    requires Parts(e) == [] && !IsDelta(e) && !IsGauge(e)
    ensures Worth(RunOf(st, actions), Occurs(e)) == Emitted(actions, Occurs(e))
  {
    OccursIsCounter(e);
    InterleavingsConserve(st, actions, Occurs(e));
  }

  /** In every interleaving of emitting threads and renderer, each counter summed over rendered,
      queued, coalesced and half-emitted events is the total emitted. */
  lemma {:induction false} InterleavingsConserve(st: State, actions: seq<Action>, v: Event -> nat)
    requires IsCounter(v) && Fair(st, v) && Steps(st, actions)
    requires forall i :: 0 <= i < |actions| && actions[i].Begin? ==> Fits(actions[i].event, v)
    ensures Worth(RunOf(st, actions), v) == Worth(st, v) + Emitted(actions, v)
    decreases |actions|
  {
    if actions != [] {
      StepConserves(st, actions[0], v);
      FairStep(st, actions[0], v);
      InterleavingsConserve(Do(st, actions[0]), actions[1..], v);
    }
  }
}
