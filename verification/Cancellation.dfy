/** How source workers and the coordinator stop each other: one cancellation flag, set by
    compare-and-exchange or by the coordinator's own store, and a failure channel with one slot. */
module Cancellation {
  import opened Domain
  import opened MapSum

  type Job = nat

  /** Where a dispatched job is. `Lost` jobs were dropped by a worker without a completion. */
  datatype Place = Queued | Held(worker: nat) | Done | Received | Lost

  /** What a worker does after it has signalled: take the next job or end its thread. */
  datatype Then = Continue | Exit

  /** One worker between two of its atomic steps. `late` records that the cancellation flag was
      already set when the job was taken from the queue. */
  datatype Worker =
    | Idle
    | Dequeued(job: Job, late: bool)
    | Checking(job: Job, late: bool)
    | Reading(job: Job, late: bool)
    | Completing(job: Job)
    | Signalling(held: Option<Job>, next: Then)
    | Sending(held: Option<Job>, next: Then)
    | Noting
    | Ended

  datatype Pc = Running | Waiting | Stopping | Closed

  /** `slot` is the failure channel; `sent` counts the messages ever put into it; `ownCancel` is
      set once the coordinator itself has cancelled. */
  datatype State = State(
    cancelled: bool, rendererFailed: bool, place: map<Job, Place>, workers: map<nat, Worker>,
    slot: bool, sent: nat, ownCancel: bool, pc: Pc)

  /** One atomic step of a worker. */
  datatype Move =
    | Take(job: Job) | LoadFlag | CheckRenderer | EndRead(ok: bool) | CompareExchange | Send
    | Deliver | GiveUp | Note | Panic | Leave

  datatype Step =
    | Work(worker: nat, move: Move)
    | Submit(job: Job)
    | Wait
    | ReceiveCompletion(job: Job)
    | ReceiveFailure
    | Abort
    | Cancel
    | RendererFails

  function HeldJob(w: Worker): Option<Job> {
    match w
    case Dequeued(j, _) => Some(j)
    case Checking(j, _) => Some(j)
    case Reading(j, _) => Some(j)
    case Completing(j) => Some(j)
    case Signalling(h, _) => h
    case Sending(h, _) => h
    case _ => None
  }

  function DoneJobs(place: map<Job, Place>): set<Job> {
    set j | j in place && place[j].Done?
  }

  predicate Unreceived(place: map<Job, Place>) {
    exists j :: j in place && !place[j].Received?
  }

  function With(st: State, i: nat, w: Worker): State {
    st.(workers := st.workers[i := w])
  }

  /** The job is dropped; a worker that goes on first tells the observer. */
  function Dropped(st: State, i: nat, held: Option<Job>, next: Then): State {
    With(if held.Some? then st.(place := st.place[held.value := Lost]) else st,
         i, if next.Exit? then Ended else if held.Some? then Noting else Idle)
  }

  predicate CanMove(st: State, w: Worker, m: Move) {
    match m
    case Take(j) => w.Idle? && j in st.place && st.place[j].Queued?
    case LoadFlag => w.Dequeued?
    case CheckRenderer => w.Checking?
    case EndRead(_) => w.Reading?
    case CompareExchange => w.Signalling?
    case Send => w.Sending? && !st.slot
    case Deliver => w.Completing? && |DoneJobs(st.place)| < COMPLETIONS_CAPACITY
    case GiveUp => w.Completing? && st.cancelled
    case Note => w.Noting?
    case Panic => w.Noting? || w.Dequeued? || w.Checking? || w.Reading? || w.Completing?
    case Leave => w.Idle? && st.pc.Closed? && (forall j :: j in st.place ==> !st.place[j].Queued?)
  }

  predicate Enabled(st: State, e: Step) {
    match e
    case Work(i, m) => i in st.workers && CanMove(st, st.workers[i], m)
    case Submit(j) => st.pc.Running? && j !in st.place
    case Wait => st.pc.Running? && Unreceived(st.place)
    case ReceiveCompletion(j) => st.pc.Waiting? && j in st.place && st.place[j].Done?
    case ReceiveFailure => (st.pc.Running? || st.pc.Waiting?) && st.slot
    case Abort => st.pc.Running? || st.pc.Waiting?
    case Cancel => st.pc.Stopping?
    case RendererFails => true
  }

  function Moved(st: State, i: nat, w: Worker, m: Move): State
    requires CanMove(st, w, m)
  {
    match m
    case Take(j) => With(st.(place := st.place[j := Held(i)]), i, Dequeued(j, st.cancelled))
    case LoadFlag => With(st, i, if st.cancelled then Signalling(Some(w.job), Continue) else Checking(w.job, w.late))
    case CheckRenderer => With(st, i, if st.rendererFailed then Signalling(Some(w.job), Continue) else Reading(w.job, w.late))
    case EndRead(ok) => With(st, i, if ok then Completing(w.job) else Signalling(Some(w.job), Exit))
    case CompareExchange =>
      if st.cancelled then Dropped(st, i, w.held, w.next)
      else With(st.(cancelled := true), i, Sending(w.held, w.next))
    case Send => Dropped(st.(slot := true, sent := st.sent + 1), i, w.held, w.next)
    case Deliver => With(st.(place := st.place[w.job := Done]), i, Idle)
    case GiveUp => With(st.(place := st.place[w.job := Lost]), i, Noting)
    case Note => With(st, i, Idle)
    case Panic => With(st, i, Signalling(HeldJob(w), Exit))
    case Leave => With(st, i, Ended)
  }

  function Do(st: State, e: Step): State
    requires Enabled(st, e)
  {
    match e
    case Work(i, m) => Moved(st, i, st.workers[i], m)
    case Submit(j) => st.(place := st.place[j := Queued])
    case Wait => st.(pc := Waiting)
    case ReceiveCompletion(j) => st.(place := st.place[j := Received], pc := Running)
    case ReceiveFailure => st.(slot := false, pc := Stopping)
    case Abort => st.(pc := Stopping)
    case Cancel => st.(cancelled := true, ownCancel := true, pc := Closed)
    case RendererFails => st.(rendererFailed := true)
  }

  /** Nothing dispatched, every worker idle. */
  predicate Initial(st: State) {
    && !st.cancelled && !st.rendererFailed && st.place == map[] && !st.slot && st.sent == 0
    && !st.ownCancel && st.pc.Running?
    && st.workers != map[] && (forall i :: i in st.workers ==> st.workers[i].Idle?)
  }

  ghost predicate Steps(st: State, es: seq<Step>)
    decreases |es|
  {
    es == [] || (Enabled(st, es[0]) && Steps(Do(st, es[0]), es[1..]))
  }

  ghost function RunOf(st: State, es: seq<Step>): State
    requires Steps(st, es)
    decreases |es|
  {
    if es == [] then st else RunOf(Do(st, es[0]), es[1..])
  }

  ghost predicate Reachable(st: State) {
    exists from, es :: Initial(from) && Steps(from, es) && RunOf(from, es) == st
  }

  // ---------------------------------------------------------------------------
  // Invariant
  // ---------------------------------------------------------------------------

  /** The flag has exactly one owner: a worker about to send, the message it sent, or the
      coordinator. */
  ghost predicate OneOwner(st: State) {
    && st.sent <= 1
    && (forall i :: i in st.workers && st.workers[i].Sending? ==> st.cancelled && st.sent == 0)
    && (forall i, j :: i in st.workers && j in st.workers && st.workers[i].Sending? && st.workers[j].Sending? ==> i == j)
    && (st.sent == 1 ==> st.cancelled)
    && (st.cancelled ==> st.sent == 1 || st.ownCancel || SomeoneSends(st))
    && (st.ownCancel ==> st.cancelled)
    && (st.ownCancel <==> st.pc.Closed?)
    && (st.slot ==> st.sent == 1)
    && (st.sent == 1 && !st.slot ==> st.pc.Stopping? || st.pc.Closed?)
  }

  predicate SomeoneSends(st: State) {
    exists i :: i in st.workers && st.workers[i].Sending?
  }

  predicate KnowsOfCancellation(w: Worker) {
    || w.Ended? || w.Noting?
    || ((w.Dequeued? || w.Checking? || w.Reading?) && w.late)
  }

  /** Whoever dropped a job, ended, or took a job late did so after the flag was set. */
  ghost predicate Ordered(st: State) {
    && (forall i :: i in st.workers && KnowsOfCancellation(st.workers[i]) ==> st.cancelled)
    && (forall i :: i in st.workers && (st.workers[i].Checking? || st.workers[i].Reading?) ==> !st.workers[i].late)
    && (forall j :: j in st.place && st.place[j].Lost? ==> st.cancelled)
    && st.workers != map[]
  }

  predicate EmptyHanded(w: Worker) {
    (w.Signalling? || w.Sending?) && w.held.None?
  }

  /** Each job a worker holds is held by that worker and by no other. */
  ghost predicate InHand(st: State) {
    && (forall i :: i in st.workers && HeldJob(st.workers[i]).Some? ==>
          HeldJob(st.workers[i]).value in st.place && st.place[HeldJob(st.workers[i]).value] == Held(i))
    && (forall j :: j in st.place && st.place[j].Held? ==>
          st.place[j].worker in st.workers && HeldJob(st.workers[st.place[j].worker]) == Some(j))
    && (st.pc.Waiting? ==> Unreceived(st.place))
    && (forall i :: i in st.workers && EmptyHanded(st.workers[i]) ==> st.workers[i].next.Exit?)
  }

  ghost predicate Inv(st: State) {
    OneOwner(st) && Ordered(st) && InHand(st)
  }

  lemma OthersKeepOneOwner(st: State, e: Step)
    requires OneOwner(st) && Enabled(st, e) && !e.Work?
    ensures OneOwner(Do(st, e))
  {
    if SomeoneSends(st) {
      var i :| i in st.workers && st.workers[i].Sending?;
      assert Do(st, e).workers[i].Sending?;
    }
  }

  lemma WorkerKeepsOneOwner(st: State, i: nat, m: Move)
    requires OneOwner(st) && Enabled(st, Work(i, m))
    ensures OneOwner(Do(st, Work(i, m)))
  {
    var st' := Do(st, Work(i, m));
    if SomeoneSends(st) {
      var k :| k in st.workers && st.workers[k].Sending?;
      if k != i {
        assert st'.workers[k].Sending?;
      }
    }
    if st'.workers[i].Sending? {
      assert SomeoneSends(st');
    }
  }

  lemma OthersKeepOrdered(st: State, e: Step)
    requires Ordered(st) && Enabled(st, e) && !e.Work?
    ensures Ordered(Do(st, e))
  {
  }

  lemma NewOrder(st: State, st': State, i: nat, w: Worker)
    requires Ordered(st) && st'.workers == st.workers[i := w] && (st.cancelled ==> st'.cancelled)
    requires KnowsOfCancellation(w) ==> st'.cancelled
    requires w.Checking? || w.Reading? ==> !w.late
    requires forall j :: j in st'.place && st'.place[j].Lost? ==> st'.cancelled || (j in st.place && st.place[j].Lost?)
    ensures Ordered(st')
  {
    assert i in st'.workers;
  }

  lemma WorkerKeepsOrdered(st: State, i: nat, m: Move)
    requires OneOwner(st) && Ordered(st) && Enabled(st, Work(i, m))
    ensures Ordered(Do(st, Work(i, m)))
  {
    var st' := Do(st, Work(i, m));
    NewOrder(st, st', i, st'.workers[i]);
  }

  lemma OthersKeepInHand(st: State, e: Step)
    requires InHand(st) && Enabled(st, e) && !e.Work?
    ensures InHand(Do(st, e))
  {
    var st' := Do(st, e);
    assert st'.workers == st.workers;
    if Unreceived(st.place) {
      var j :| j in st.place && !st.place[j].Received?;
      assert e.ReceiveCompletion? || (j in st'.place && !st'.place[j].Received?);
    }
  }

  lemma NewHand(st: State, i: nat, w: Worker)
    requires InHand(st) && i in st.workers && HeldJob(w) == HeldJob(st.workers[i]) && (EmptyHanded(w) ==> w.next.Exit?)
    ensures InHand(With(st, i, w))
  {
  }

  lemma EmptiedHand(st: State, i: nat, w: Worker, to: Place)
    requires InHand(st) && i in st.workers && HeldJob(st.workers[i]).Some? && (w.Idle? || w.Noting? || w.Ended?) && (to.Done? || to.Lost?)
    ensures InHand(With(st.(place := st.place[HeldJob(st.workers[i]).value := to]), i, w))
  {
    var j := HeldJob(st.workers[i]).value;
    assert st.place[j := to][j] == to;
  }

  lemma FilledHand(st: State, i: nat, j: Job)
    requires InHand(st) && i in st.workers && st.workers[i].Idle? && j in st.place && st.place[j].Queued?
    ensures InHand(With(st.(place := st.place[j := Held(i)]), i, Dequeued(j, st.cancelled)))
  {
    assert st.place[j := Held(i)][j] == Held(i);
  }

  lemma DroppedHand(st: State, i: nat, held: Option<Job>, next: Then)
    requires InHand(st) && i in st.workers && HeldJob(st.workers[i]) == held
    ensures InHand(Dropped(st, i, held, next))
  {
    var w := if next.Exit? then Ended else if held.Some? then Noting else Idle;
    if held.Some? {
      EmptiedHand(st, i, w, Lost);
    } else {
      NewHand(st, i, w);
    }
  }

  lemma SignalKeepsInHand(st: State, i: nat, m: Move)
    requires InHand(st) && Enabled(st, Work(i, m)) && (m.CompareExchange? || m.Send?)
    ensures InHand(Do(st, Work(i, m)))
  {
    var w := st.workers[i];
    if m.Send? {
      DroppedHand(st.(slot := true, sent := st.sent + 1), i, w.held, w.next);
    } else if st.cancelled {
      DroppedHand(st, i, w.held, w.next);
    } else {
      NewHand(st.(cancelled := true), i, Sending(w.held, w.next));
    }
  }

  lemma WorkerKeepsInHand(st: State, i: nat, m: Move)
    requires InHand(st) && Enabled(st, Work(i, m))
    ensures InHand(Do(st, Work(i, m)))
  {
    match m {
      case Take(j) => FilledHand(st, i, j);
      case CompareExchange => SignalKeepsInHand(st, i, m);
      case Send => SignalKeepsInHand(st, i, m);
      case Deliver => EmptiedHand(st, i, Idle, Done);
      case GiveUp => EmptiedHand(st, i, Noting, Lost);
      case _ => NewHand(st, i, Moved(st, i, st.workers[i], m).workers[i]);
    }
  }

  lemma StepKeepsInv(st: State, e: Step)
    requires Inv(st) && Enabled(st, e)
    ensures Inv(Do(st, e))
  {
    if e.Work? {
      WorkerKeepsOrdered(st, e.worker, e.move);
      WorkerKeepsOneOwner(st, e.worker, e.move);
      WorkerKeepsInHand(st, e.worker, e.move);
    } else {
      OthersKeepOrdered(st, e);
      OthersKeepOneOwner(st, e);
      OthersKeepInHand(st, e);
    }
  }

  lemma {:induction false} RunKeepsInv(st: State, es: seq<Step>)
    requires Inv(st) && Steps(st, es)
    ensures Inv(RunOf(st, es))
    decreases |es|
  {
    if es != [] {
      StepKeepsInv(st, es[0]);
      RunKeepsInv(Do(st, es[0]), es[1..]);
    }
  }

  lemma ReachableInv(st: State)
    requires Reachable(st)
    ensures Inv(st)
  {
    var from, es :| Initial(from) && Steps(from, es) && RunOf(from, es) == st;
    RunKeepsInv(from, es);
  }

  // ---------------------------------------------------------------------------
  // What it guarantees
  // ---------------------------------------------------------------------------

  /** In every interleaving at most one message is ever sent, and the worker that is to send it
      never finds the slot taken. */
  lemma OneMessage(st: State, i: nat)
    requires Reachable(st)
    ensures st.sent <= 1
    ensures i in st.workers && st.workers[i].Sending? ==> Enabled(st, Work(i, Send))
  {
    ReachableInv(st);
  }

  /** A job is dropped only once the message is sent, its sender is past the point of no return,
      or the coordinator has itself cancelled. */
  lemma DropsAreAnnounced(st: State, j: Job)
    requires Reachable(st) && j in st.place && st.place[j].Lost?
    ensures st.sent == 1 || st.ownCancel || SomeoneSends(st)
  {
    ReachableInv(st);
  }

  /** A job taken from the queue after the flag was set is never read. */
  lemma LateJobsAreNotRead(st: State, i: nat)
    requires Reachable(st) && i in st.workers && st.workers[i].Reading?
    ensures !st.workers[i].late
  {
    ReachableInv(st);
  }

  // ---------------------------------------------------------------------------
  // The coordinator is woken
  // ---------------------------------------------------------------------------

  predicate Moveable(w: Worker) {
    !w.Idle? && !w.Ended?
  }

  /** A worker between two steps can take the next one, or the completion channel is full. */
  lemma WorkerMoves(st: State, i: nat) returns (m: Move)
    requires OneOwner(st) && i in st.workers && Moveable(st.workers[i])
    ensures CanMove(st, st.workers[i], m) || |DoneJobs(st.place)| >= COMPLETIONS_CAPACITY
  {
    match st.workers[i] {
      case Dequeued(_, _) => m := LoadFlag;
      case Checking(_, _) => m := CheckRenderer;
      case Reading(_, _) => m := EndRead(true);
      case Completing(_) => m := Deliver;
      case Signalling(_, _) => m := CompareExchange;
      case Sending(_, _) => m := Send;
      case Noting => m := Note;
    }
  }

  ghost predicate WorkersStuck(st: State) {
    forall i, m :: !Enabled(st, Work(i, m))
  }

  predicate CanReceive(st: State) {
    || (st.pc.Waiting? && st.slot)
    || (st.pc.Waiting? && exists j :: j in st.place && st.place[j].Done?)
  }

  lemma FullMeansDone(st: State)
    requires st.pc.Waiting? && |DoneJobs(st.place)| >= COMPLETIONS_CAPACITY
    ensures CanReceive(st)
  {
    var j :| j in DoneJobs(st.place);
    assert j in st.place && st.place[j].Done?;
  }

  lemma CancelledMeansMessage(st: State)
    requires OneOwner(st) && st.pc.Waiting? && st.cancelled
    ensures st.slot || SomeoneSends(st)
  {
  }

  /** No wake-up is lost: when the coordinator waits and no worker can take another step, there is
      a completion or a failure message for it. */
  lemma NoLostWakeup(st: State)
    requires Inv(st) && st.pc.Waiting? && WorkersStuck(st)
    ensures CanReceive(st)
  {
    if i :| i in st.workers && Moveable(st.workers[i]) {
      var m := WorkerMoves(st, i);
      assert !Enabled(st, Work(i, m));
      FullMeansDone(st);
    } else if st.cancelled {
      CancelledMeansMessage(st);
    } else {
      UncancelledWaitEnds(st);
    }
  }

  lemma QueuedJobCanBeTaken(st: State, j: Job) returns (i: nat)
    requires Ordered(st) && !st.cancelled && (forall i :: i in st.workers ==> !Moveable(st.workers[i]))
    requires j in st.place && st.place[j].Queued?
    ensures Enabled(st, Work(i, Take(j)))
  {
    i :| i in st.workers;
    assert !KnowsOfCancellation(st.workers[i]);
  }

  lemma UncancelledWaitEnds(st: State)
    requires Inv(st) && st.pc.Waiting? && !st.cancelled && WorkersStuck(st)
    requires forall i :: i in st.workers ==> !Moveable(st.workers[i])
    ensures CanReceive(st)
  {
    var j :| j in st.place && !st.place[j].Received?;
    if st.place[j].Queued? {
      var i := QueuedJobCanBeTaken(st, j);
    }
  }

  // ---------------------------------------------------------------------------
  // Waiting is bounded
  // ---------------------------------------------------------------------------

  function WorkerWeight(i: nat, w: Worker): nat {
    match w
    case Dequeued(_, _) => 9
    case Checking(_, _) => 8
    case Reading(_, _) => 7
    case Completing(_) => 6
    case Signalling(h, _) => if h.Some? then 5 else 2
    case Sending(h, _) => if h.Some? then 4 else 1
    case Noting => 3
    case Idle => 1
    case Ended => 0
  }

  function PlaceWeight(j: Job, p: Place): nat {
    if p.Queued? then 10 else 0
  }

  ghost function Measure(st: State): nat {
    Sum(st.workers, WorkerWeight) + Sum(st.place, PlaceWeight)
  }

  lemma Lighter(st: State, i: nat, w: Worker)
    requires i in st.workers && WorkerWeight(i, w) < WorkerWeight(i, st.workers[i])
    ensures Measure(With(st, i, w)) < Measure(st)
  {
    SumChange(st.workers, i, w, WorkerWeight);
  }

  lemma LighterAndPlaced(st: State, i: nat, w: Worker, j: Job, p: Place)
    requires i in st.workers && j in st.place
    requires WorkerWeight(i, w) + PlaceWeight(j, p) < WorkerWeight(i, st.workers[i]) + PlaceWeight(j, st.place[j])
    ensures Measure(With(st.(place := st.place[j := p]), i, w)) < Measure(st)
  {
    SumChange(st.workers, i, w, WorkerWeight);
    SumChange(st.place, j, p, PlaceWeight);
  }

  lemma DropLightens(st: State, i: nat)
    requires InHand(st) && i in st.workers && (st.workers[i].Signalling? || st.workers[i].Sending?)
    ensures Measure(Dropped(st, i, st.workers[i].held, st.workers[i].next)) < Measure(st)
  {
    var w := st.workers[i];
    var after := if w.next.Exit? then Ended else if w.held.Some? then Noting else Idle;
    if w.held.Some? {
      LighterAndPlaced(st, i, after, w.held.value, Lost);
    } else {
      Lighter(st, i, after);
    }
  }

  lemma MoveLightens(st: State, i: nat, m: Move)
    requires InHand(st) && Enabled(st, Work(i, m))
    ensures Measure(Do(st, Work(i, m))) < Measure(st)
  {
    var w := st.workers[i];
    match m {
      case Take(j) => LighterAndPlaced(st, i, Dequeued(j, st.cancelled), j, Held(i));
      case CompareExchange => ExchangeLightens(st, i);
      case Send => DropLightens(st.(slot := true, sent := st.sent + 1), i);
      case Deliver => LighterAndPlaced(st, i, Idle, w.job, Done);
      case GiveUp => LighterAndPlaced(st, i, Noting, w.job, Lost);
      case _ => PlainMoveLightens(st, i, m);
    }
  }

  lemma PlainMoveLightens(st: State, i: nat, m: Move)
    requires Enabled(st, Work(i, m))
    requires m.LoadFlag? || m.CheckRenderer? || m.EndRead? || m.Note? || m.Panic? || m.Leave?
    ensures Measure(Do(st, Work(i, m))) < Measure(st)
  {
    Lighter(st, i, Moved(st, i, st.workers[i], m).workers[i]);
  }

  lemma ExchangeLightens(st: State, i: nat)
    requires InHand(st) && Enabled(st, Work(i, CompareExchange))
    ensures Measure(Do(st, Work(i, CompareExchange))) < Measure(st)
  {
    if st.cancelled {
      DropLightens(st, i);
    } else {
      Lighter(st.(cancelled := true), i, Sending(st.workers[i].held, st.workers[i].next));
    }
  }

  lemma {:induction false} MovesAreBounded(st: State, es: seq<Step>)
    requires Inv(st) && Steps(st, es) && forall k :: 0 <= k < |es| ==> es[k].Work?
    ensures |es| + Measure(RunOf(st, es)) <= Measure(st) && RunOf(st, es).pc == st.pc
    decreases |es|
  {
    if es != [] {
      StepKeepsInv(st, es[0]);
      MoveLightens(st, es[0].worker, es[0].move);
      MovesAreBounded(Do(st, es[0]), es[1..]);
    }
  }

  /** The coordinator never waits in vain. While it waits the workers take a bounded number of
      steps, panics included, and once they can take no more it has a completion or a failure
      message to receive. */
  lemma WaitingIsAnswered(st: State, es: seq<Step>)
    requires Reachable(st) && st.pc.Waiting? && Steps(st, es) && forall k :: 0 <= k < |es| ==> es[k].Work?
    ensures |es| <= Measure(st)
    ensures WorkersStuck(RunOf(st, es)) ==> CanReceive(RunOf(st, es))
  {
    ReachableInv(st);
    MovesAreBounded(st, es);
    RunKeepsInv(st, es);
    if WorkersStuck(RunOf(st, es)) {
      NoLostWakeup(RunOf(st, es));
    }
  }
}
