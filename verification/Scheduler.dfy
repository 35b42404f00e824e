/** The import scheduler: a queue of files waiting to be read and the rule that picks the next. */
module Scheduler {
  import opened Domain

  type Mount = nat

  /** A file found by the scan. `content` is what reading it yields. */
  datatype Candidate = Candidate(path: string, mount: Mount, size: nat, mtime: Option<int>, content: File)

  datatype Work = Work(sequence: nat, candidate: Candidate)

  /** `active` counts the dispatched, uncompleted files of each mount; `last` is the mount of
      the most recent dispatch. */
  datatype Queue = Queue(pending: seq<Work>, active: map<Mount, nat>, last: Option<Mount>)

  function ActiveOf(active: map<Mount, nat>, m: Mount): nat {
    if m in active then active[m] else 0
  }

  predicate Eligible(q: Queue, limit: nat, w: Work) {
    ActiveOf(q.active, w.candidate.mount) < limit
  }

  predicate Preferred(q: Queue, limit: nat, w: Work) {
    Eligible(q, limit, w) && Some(w.candidate.mount) != q.last
  }

  /** The first queue position holding a preferred item, else the first holding an eligible one. */
  function Choice(q: Queue, limit: nat): (i: Option<nat>)
    ensures i.None? <==> forall k :: 0 <= k < |q.pending| ==> !Eligible(q, limit, q.pending[k])
    ensures i.Some? ==> i.value < |q.pending| && Eligible(q, limit, q.pending[i.value])
    ensures i.Some? && Preferred(q, limit, q.pending[i.value]) ==>
      forall k :: 0 <= k < i.value ==> !Preferred(q, limit, q.pending[k])
    ensures i.Some? && !Preferred(q, limit, q.pending[i.value]) ==>
      && (forall k :: 0 <= k < |q.pending| ==> !Preferred(q, limit, q.pending[k]))
      && (forall k :: 0 <= k < i.value ==> !Eligible(q, limit, q.pending[k]))
  {
    var preferred := FirstPreferred(q, limit, 0);
    if preferred.Some? then preferred else FirstEligible(q, limit, 0)
  }

  function FirstPreferred(q: Queue, limit: nat, from: nat): (i: Option<nat>)
    requires from <= |q.pending|
    ensures i.None? ==> forall k :: from <= k < |q.pending| ==> !Preferred(q, limit, q.pending[k])
    ensures i.Some? ==> from <= i.value < |q.pending| && Preferred(q, limit, q.pending[i.value])
    ensures i.Some? ==> forall k :: from <= k < i.value ==> !Preferred(q, limit, q.pending[k])
    decreases |q.pending| - from
  {
    if from == |q.pending| then None
    else if Preferred(q, limit, q.pending[from]) then Some(from)
    else FirstPreferred(q, limit, from + 1)
  }

  function FirstEligible(q: Queue, limit: nat, from: nat): (i: Option<nat>)
    requires from <= |q.pending|
    ensures i.None? ==> forall k :: from <= k < |q.pending| ==> !Eligible(q, limit, q.pending[k])
    ensures i.Some? ==> from <= i.value < |q.pending| && Eligible(q, limit, q.pending[i.value])
    ensures i.Some? ==> forall k :: from <= k < i.value ==> !Eligible(q, limit, q.pending[k])
    decreases |q.pending| - from
  {
    if from == |q.pending| then None
    else if Eligible(q, limit, q.pending[from]) then Some(from)
    else FirstEligible(q, limit, from + 1)
  }

  function Without(ws: seq<Work>, i: nat): seq<Work>
    requires i < |ws|
  {
    ws[..i] + ws[i + 1..]
  }

  /** Hand the item at position `i` to the workers. */
  function Take(q: Queue, i: nat): Queue
    requires i < |q.pending|
  {
    var m := q.pending[i].candidate.mount;
    Queue(Without(q.pending, i), q.active[m := ActiveOf(q.active, m) + 1], Some(m))
  }

  /** One completion of a mount: the count falls, and an idle mount is forgotten. */
  function Complete(q: Queue, m: Mount): Queue {
    if ActiveOf(q.active, m) == 0 then q
    else if q.active[m] == 1 then q.(active := q.active - {m})
    else q.(active := q.active[m := q.active[m] - 1])
  }

  // ---------------------------------------------------------------------------
  // Bounded bypass
  // ---------------------------------------------------------------------------

  datatype SchedulerEvent = Arrive(work: Work) | Dispatch | Completed(mount: Mount)

  function Next(q: Queue, limit: nat, e: SchedulerEvent): Queue {
    match e
    case Arrive(w) => q.(pending := q.pending + [w])
    case Dispatch => var c := Choice(q, limit); if c.None? then q else Take(q, c.value)
    case Completed(m) => Complete(q, m)
  }

  function Run(q: Queue, limit: nat, events: seq<SchedulerEvent>): Queue
    decreases |events|
  {
    if events == [] then q else Run(Next(q, limit, events[0]), limit, events[1..])
  }

  predicate Succeeds(q: Queue, limit: nat, e: SchedulerEvent) {
    e.Dispatch? && Choice(q, limit).Some?
  }

  function Successes(q: Queue, limit: nat, events: seq<SchedulerEvent>): nat
    decreases |events|
  {
    if events == [] then 0
    else (if Succeeds(q, limit, events[0]) then 1 else 0) + Successes(Next(q, limit, events[0]), limit, events[1..])
  }

  /** Where the item at position `i` is after one event; `None` once it is dispatched. */
  function Moved(q: Queue, limit: nat, i: nat, e: SchedulerEvent): (k: Option<nat>)
    requires i < |q.pending|
    ensures k.Some? ==> k.value < |Next(q, limit, e).pending| && Next(q, limit, e).pending[k.value] == q.pending[i]
  {
    if !Succeeds(q, limit, e) then Some(i)
    else
      var c := Choice(q, limit).value;
      if c == i then None else if c < i then Some(i - 1) else Some(i)
  }

  function Tracked(q: Queue, limit: nat, i: nat, events: seq<SchedulerEvent>): (k: Option<nat>)
    requires i < |q.pending|
    ensures k.Some? ==> k.value < |Run(q, limit, events).pending| && Run(q, limit, events).pending[k.value] == q.pending[i]
    decreases |events|
  {
    if events == [] then Some(i)
    else
      var k := Moved(q, limit, i, events[0]);
      if k.None? then None else Tracked(Next(q, limit, events[0]), limit, k.value, events[1..])
  }

  /** The mount stays below its limit at every dispatch until the item is taken. */
  predicate StaysBelow(q: Queue, limit: nat, i: nat, events: seq<SchedulerEvent>)
    requires i < |q.pending|
    decreases |events|
  {
    events == [] ||
    (&& (events[0].Dispatch? ==> Eligible(q, limit, q.pending[i]))
     && var k := Moved(q, limit, i, events[0]);
        k.Some? ==> StaysBelow(Next(q, limit, events[0]), limit, k.value, events[1..]))
  }

  /** An upper bound on the dispatches that can still pass the item by, plus its own. */
  function Patience(q: Queue, i: nat): nat
    requires i < |q.pending|
  {
    2 * i + if q.last == Some(q.pending[i].candidate.mount) then 2 else 1
  }

  lemma EveryDispatchCosts(q: Queue, limit: nat, i: nat, e: SchedulerEvent)
    requires i < |q.pending| && (e.Dispatch? ==> Eligible(q, limit, q.pending[i]))
    ensures var k := Moved(q, limit, i, e);
      k.Some? ==> Patience(Next(q, limit, e), k.value) + (if Succeeds(q, limit, e) then 1 else 0) <= Patience(q, i)
  {
  }

  lemma {:induction false} WaitingIsPaid(q: Queue, limit: nat, i: nat, events: seq<SchedulerEvent>)
    requires i < |q.pending| && StaysBelow(q, limit, i, events)
    ensures var k := Tracked(q, limit, i, events);
      k.Some? ==> Successes(q, limit, events) + Patience(Run(q, limit, events), k.value) <= Patience(q, i)
    decreases |events|
  {
    if events != [] {
      EveryDispatchCosts(q, limit, i, events[0]);
      var k := Moved(q, limit, i, events[0]);
      if k.Some? {
        WaitingIsPaid(Next(q, limit, events[0]), limit, k.value, events[1..]);
      }
    }
  }

  /** Bounded bypass: an item at position `i` whose mount stays below its limit is dispatched
      within 2(i+1) successful dispatches, whatever arrives later and however many mounts. */
  lemma BoundedBypass(q: Queue, limit: nat, i: nat, events: seq<SchedulerEvent>)
    requires i < |q.pending| && StaysBelow(q, limit, i, events)
    requires Successes(q, limit, events) >= 2 * (i + 1)
    ensures Tracked(q, limit, i, events).None?
  {
    WaitingIsPaid(q, limit, i, events);
  }

  function Dispatches(n: nat): (r: seq<SchedulerEvent>)
    ensures |r| == n && forall i :: 0 <= i < n ==> r[i] == Dispatch
  {
    seq(n, i => Dispatch)
  }

  // ---------------------------------------------------------------------------
  // The bound is tight
  // ---------------------------------------------------------------------------

  /** `k + 1` files of mount `a`, then `n` files of mount `b`, all eligible for `spare` dispatches. */
  ghost predicate TwoMounts(q: Queue, limit: nat, a: Mount, b: Mount, k: nat, n: nat, spare: nat) {
    && a != b && |q.pending| == k + 1 + n
    && (forall i :: 0 <= i <= k ==> q.pending[i].candidate.mount == a)
    && (forall i :: k < i < |q.pending| ==> q.pending[i].candidate.mount == b)
    && ActiveOf(q.active, a) + spare <= limit && ActiveOf(q.active, b) + spare <= limit
  }

  /** A dispatch succeeds, and the eligible item at position `i` is then waiting at `k`. */
  predicate GoesOn(q: Queue, limit: nat, i: nat, k: nat)
    requires i < |q.pending|
  {
    Succeeds(q, limit, Dispatch) && Moved(q, limit, i, Dispatch) == Some(k) && Eligible(q, limit, q.pending[i])
  }

  /** Just after its own mount, the first group is passed over for the second. */
  lemma PassedByLater(q: Queue, limit: nat, a: Mount, b: Mount, k: nat, n: nat, spare: nat)
    requires TwoMounts(q, limit, a, b, k, n, spare) && n > 0 && spare > 0 && q.last == Some(a)
    ensures GoesOn(q, limit, k, k)
    ensures var q' := Next(q, limit, Dispatch); TwoMounts(q', limit, a, b, k, n - 1, spare - 1) && q'.last == Some(b)
  {
    assert Preferred(q, limit, q.pending[k + 1]);
    assert Choice(q, limit) == Some(k + 1);
  }

  /** Just after the other mount, the head of the first group goes. */
  lemma PassedByEarlier(q: Queue, limit: nat, a: Mount, b: Mount, k: nat, n: nat, spare: nat)
    requires TwoMounts(q, limit, a, b, k, n, spare) && k > 0 && spare > 0 && q.last == Some(b)
    ensures GoesOn(q, limit, k, k - 1)
    ensures var q' := Next(q, limit, Dispatch); TwoMounts(q', limit, a, b, k - 1, n, spare - 1) && q'.last == Some(a)
  {
    assert Preferred(q, limit, q.pending[0]);
    assert Choice(q, limit) == Some(0);
  }

  /** Dispatch after dispatch, the queues and where the waiting item is in them. */
  ghost predicate Chain(qs: seq<Queue>, at: seq<nat>, limit: nat) {
    && |qs| == |at| > 0
    && (forall t :: 0 <= t < |qs| ==> at[t] < |qs[t].pending|)
    && (forall t :: 0 <= t < |qs| - 1 ==>
          GoesOn(qs[t], limit, at[t], at[t + 1]) && qs[t + 1] == Next(qs[t], limit, Dispatch))
  }

  lemma OneDispatchMore(q: Queue, limit: nat, i: nat, k: nat, m: nat)
    requires i < |q.pending| && GoesOn(q, limit, i, k)
    ensures var q', events := Next(q, limit, Dispatch), Dispatches(m + 1);
      && Successes(q, limit, events) == 1 + Successes(q', limit, Dispatches(m))
      && Tracked(q, limit, i, events) == Tracked(q', limit, k, Dispatches(m))
      && (StaysBelow(q, limit, i, events) <==> StaysBelow(q', limit, k, Dispatches(m)))
  {
    assert Dispatches(m + 1)[1..] == Dispatches(m);
  }

  /** m dispatches in a row all succeed, and the item at `i` goes on waiting at its place or below. */
  ghost predicate KeepsWaiting(q: Queue, limit: nat, i: nat, m: nat)
    requires i < |q.pending|
  {
    var events := Dispatches(m);
    StaysBelow(q, limit, i, events) && Successes(q, limit, events) == m && Tracked(q, limit, i, events).Some?
  }

  lemma WaitsOneMore(q: Queue, limit: nat, i: nat, k: nat, m: nat)
    requires i < |q.pending| && GoesOn(q, limit, i, k) && KeepsWaiting(Next(q, limit, Dispatch), limit, k, m)
    ensures KeepsWaiting(q, limit, i, m + 1)
  {
    OneDispatchMore(q, limit, i, k, m);
  }

  lemma {:induction false} ChainMeaning(qs: seq<Queue>, at: seq<nat>, limit: nat)
    requires Chain(qs, at, limit)
    ensures KeepsWaiting(qs[0], limit, at[0], |qs| - 1)
    decreases |qs|
  {
    if |qs| == 1 {
      assert Dispatches(0) == [];
    } else {
      ChainMeaning(qs[1..], at[1..], limit);
      WaitsOneMore(qs[0], limit, at[0], at[1], |qs| - 2);
    }
  }

  lemma ChainGrows(qs: seq<Queue>, at: seq<nat>, limit: nat, k: nat)
    requires Chain(qs, at, limit) && GoesOn(qs[|qs| - 1], limit, at[|qs| - 1], k)
    ensures Chain(qs + [Next(qs[|qs| - 1], limit, Dispatch)], at + [k], limit)
  {
  }

  /** A chain from `q`, where the item waited at `i`, to a queue of two mounts where it waits at
      `k` and its own mount has just been served. */
  ghost predicate Reaches(qs: seq<Queue>, at: seq<nat>, limit: nat, q: Queue, i: nat, k: nat) {
    && Chain(qs, at, limit) && qs[0] == q && at[0] == i && at[|at| - 1] == k
    && TwoMounts(qs[|qs| - 1], limit, 1, 2, k, k + 1, 2 * k + 1) && qs[|qs| - 1].last == Some(1)
  }

  lemma TwoMore(qs: seq<Queue>, at: seq<nat>, limit: nat, q: Queue, i: nat, k: nat) returns (qs': seq<Queue>, at': seq<nat>)
    requires Reaches(qs, at, limit, q, i, k) && k > 0
    ensures Reaches(qs', at', limit, q, i, k - 1) && |qs'| == |qs| + 2
  {
    var q0 := qs[|qs| - 1];
    PassedByLater(q0, limit, 1, 2, k, k + 1, 2 * k + 1);
    ChainGrows(qs, at, limit, k);
    var q1 := Next(q0, limit, Dispatch);
    PassedByEarlier(q1, limit, 1, 2, k, k, 2 * k);
    ChainGrows(qs + [q1], at + [k], limit, k - 1);
    qs', at' := qs + [q1] + [Next(q1, limit, Dispatch)], at + [k] + [k - 1];
  }

  lemma TightStart(i: nat) returns (q: Queue)
    ensures TwoMounts(q, 2 * i + 1, 1, 2, i, i + 1, 2 * i + 1) && q.last == Some(1)
  {
    var pending := seq(2 * i + 2, (j: nat) => Work(j, Candidate("", if j <= i then 1 else 2, 0, None, File(0, 0))));
    q := Queue(pending, map[], Some(1));
  }

  /** The bound is reached at every position: some queue and run let `2 * i + 1` dispatches
      succeed while the item at position `i` stays eligible and keeps waiting. The first mount's
      files are passed over for the second's each time one of their own has just gone. */
  lemma BypassBoundIsTight(i: nat) returns (q: Queue, limit: nat, events: seq<SchedulerEvent>)
    ensures i < |q.pending| && StaysBelow(q, limit, i, events)
    ensures Successes(q, limit, events) == 2 * i + 1 && Tracked(q, limit, i, events).Some?
  {
    q := TightStart(i);
    limit := 2 * i + 1;
    var qs, at := LongChain(q, limit, i);
    LastMore(qs, at, limit, q, i);
    events := Dispatches(|qs|);
  }

  lemma LongChain(q: Queue, limit: nat, i: nat) returns (qs: seq<Queue>, at: seq<nat>)
    requires TwoMounts(q, limit, 1, 2, i, i + 1, 2 * i + 1) && q.last == Some(1)
    ensures Reaches(qs, at, limit, q, i, 0) && |qs| == 2 * i + 1
  {
    qs, at := [q], [i];
    var k: nat := i;
    while k > 0
      invariant k <= i && Reaches(qs, at, limit, q, i, k) && |qs| == 2 * (i - k) + 1
    {
      qs, at := TwoMore(qs, at, limit, q, i, k);
      k := k - 1;
    }
  }

  lemma LastMore(qs: seq<Queue>, at: seq<nat>, limit: nat, q: Queue, i: nat)
    requires Reaches(qs, at, limit, q, i, 0)
    ensures i < |q.pending|
    ensures var events := Dispatches(|qs|);
      StaysBelow(q, limit, i, events) && Successes(q, limit, events) == |qs| && Tracked(q, limit, i, events).Some?
  {
    var last := qs[|qs| - 1];
    PassedByLater(last, limit, 1, 2, 0, 1, 1);
    ChainGrows(qs, at, limit, 0);
    ChainMeaning(qs + [Next(last, limit, Dispatch)], at + [0], limit);
  }

  // ---------------------------------------------------------------------------
  // The dispatch loop
  // ---------------------------------------------------------------------------

  function CountMount(ws: seq<Work>, m: Mount): nat {
    if ws == [] then 0 else CountMount(ws[..|ws| - 1], m) + if ws[|ws| - 1].candidate.mount == m then 1 else 0
  }

  /** `sent` left the queue for the workers: nothing lost or doubled, every mount's count raised
      by exactly its files, and no mount pushed past the limit. */
  ghost predicate Handed(q: Queue, limit: nat, sent: seq<Work>, q': Queue) {
    && multiset(q.pending) == multiset(q'.pending) + multiset(sent)
    && (forall m :: ActiveOf(q'.active, m) == ActiveOf(q.active, m) + CountMount(sent, m))
    && (forall m :: ActiveOf(q.active, m) <= limit ==> ActiveOf(q'.active, m) <= limit)
  }

  lemma RemoveOne(ws: seq<Work>, i: nat)
    requires i < |ws|
    ensures multiset(ws) == multiset(Without(ws, i)) + multiset{ws[i]}
  {
    assert ws == ws[..i] + [ws[i]] + ws[i + 1..];
  }

  lemma HandOneMore(q: Queue, limit: nat, sent: seq<Work>, now: Queue, i: nat)
    requires Handed(q, limit, sent, now) && i < |now.pending| && Eligible(now, limit, now.pending[i])
    ensures Handed(q, limit, sent + [now.pending[i]], Take(now, i))
  {
    RemoveOne(now.pending, i);
    assert (sent + [now.pending[i]])[..|sent|] == sent;
  }

  /** The items that `n` dispatches in a row hand over. */
  function SentBy(q: Queue, limit: nat, n: nat): seq<Work> {
    if n == 0 then []
    else
      var before := Run(q, limit, Dispatches(n - 1));
      var choice := Choice(before, limit);
      SentBy(q, limit, n - 1) + if choice.Some? then [before.pending[choice.value]] else []
  }

  lemma {:induction false} DispatchesHand(q: Queue, limit: nat, n: nat)
    requires Successes(q, limit, Dispatches(n)) == n
    ensures Handed(q, limit, SentBy(q, limit, n), Run(q, limit, Dispatches(n)))
  {
    if n == 0 {
      assert Dispatches(0) == [];
    } else {
      var before := Run(q, limit, Dispatches(n - 1));
      DispatchOneMore(q, limit, n - 1);
      SuccessesAtMost(q, limit, n - 1);
      DispatchesHand(q, limit, n - 1);
      HandOneMore(q, limit, SentBy(q, limit, n - 1), before, Choice(before, limit).value);
    }
  }

  lemma {:induction false} SuccessesAtMost(q: Queue, limit: nat, n: nat)
    ensures Successes(q, limit, Dispatches(n)) <= n
    decreases n
  {
    if n > 0 {
      assert Dispatches(n)[1..] == Dispatches(n - 1);
      SuccessesAtMost(Next(q, limit, Dispatch), limit, n - 1);
    }
  }

  class Coordinator {
    var pending: seq<Work>
    var active: map<Mount, nat>
    var last: Option<Mount>

    ghost function View(): Queue
      reads this
    {
      Queue(pending, active, last)
    }

    constructor ()
      ensures View() == Queue([], map[], None)
    {
      pending, active, last := [], map[], None;
    }

    /** Dispatch until nothing is eligible or the worker queue, which has room for `room` more,
        is full. */
    method DispatchReady(limit: nat, room: nat) returns (sent: seq<Work>, full: bool)
      modifies this
      ensures View() == Run(old(View()), limit, Dispatches(|sent|)) && Successes(old(View()), limit, Dispatches(|sent|)) == |sent|
      ensures Handed(old(View()), limit, sent, View())
      ensures !full ==> forall k :: 0 <= k < |pending| ==> !Eligible(View(), limit, pending[k])
      ensures |sent| <= room && (full ==> |sent| == room)
    {
      sent := [];
      ghost var q := View();
      while true
        invariant |sent| <= room
        invariant Queue(pending, active, last) == Run(q, limit, Dispatches(|sent|))
        invariant Successes(q, limit, Dispatches(|sent|)) == |sent|
        invariant sent == SentBy(q, limit, |sent|)
        decreases |pending|
      {
        var choice := Choice(Queue(pending, active, last), limit);
        if choice.None? || |sent| == room {
          DispatchesHand(q, limit, |sent|);
          return sent, choice.Some?;
        }
        var index := choice.value;
        var work := pending[index];
        var mount := work.candidate.mount;
        DispatchOneMore(q, limit, |sent|);
        pending := Without(pending, index);
        active := active[mount := ActiveOf(active, mount) + 1];
        last := Some(mount);
        sent := sent + [work];
      }
    }

    /** A completion of a mount that has one outstanding. */
    method CompleteWork(mount: Mount) returns (ok: bool)
      modifies this
      ensures ok <==> ActiveOf(old(active), mount) > 0
      ensures View() == Complete(old(View()), mount)
    {
      if mount !in active || active[mount] == 0 {
        return false;
      }
      active := active[mount := active[mount] - 1];
      if active[mount] == 0 {
        active := active - {mount};
        assert active == old(active) - {mount};
      }
      return true;
    }
  }


  lemma {:induction false} DispatchOneMore(q: Queue, limit: nat, n: nat)
    ensures Run(q, limit, Dispatches(n + 1)) == Next(Run(q, limit, Dispatches(n)), limit, Dispatch)
    ensures Successes(q, limit, Dispatches(n + 1))
         == Successes(q, limit, Dispatches(n)) + if Succeeds(Run(q, limit, Dispatches(n)), limit, Dispatch) then 1 else 0
    decreases n
  {
    assert Dispatches(n + 1)[1..] == Dispatches(n);
    if n > 0 {
      assert Dispatches(n)[1..] == Dispatches(n - 1);
      DispatchOneMore(Next(q, limit, Dispatch), limit, n - 1);
    }
  }
}
