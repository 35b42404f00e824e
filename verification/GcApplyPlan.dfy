/** The apply loops as the command runs them, shown to be the step machine of `GcApply`. */
module GcApplyPlan {
  import opened Domain
  import opened Catalog
  import opened GcPlan
  import opened GcApply

  function Script(fate: nat -> Event, n: nat): (r: seq<Event>)
    ensures |r| == n
  {
    seq(n, i requires 0 <= i < n => fate(i))
  }

  /** `s` is where the machine stands after the first `n` operations of the script. */
  ghost predicate At(j: Job, fate: nat -> Event, n: nat, s: State) {
    s == After(j, Script(fate, n))
  }

  lemma {:induction false} RunAppend(j: Job, s: State, events: seq<Event>, e: Event)
    requires InRange(j, s.stage)
    ensures Run(j, s, events + [e]) == Step(j, Run(j, s, events), e)
    decreases |events|
  {
    if events == [] {
      assert [e][1..] == [];
    } else {
      assert (events + [e])[1..] == events[1..] + [e];
      RunAppend(j, Step(j, s, events[0]), events[1..], e);
    }
  }

  lemma Advance(j: Job, fate: nat -> Event, n: nat, s: State)
    requires At(j, fate, n, s) && InRange(j, s.stage)
    ensures At(j, fate, n + 1, Step(j, s, fate(n)))
  {
    assert Script(fate, n + 1) == Script(fate, n) + [fate(n)];
    RunAppend(j, Start(j), Script(fate, n), fate(n));
  }

  /** Roll back, or commit what is staged once a sweep mutation has started. */
  method AbortApply(j: Job, fate: nat -> Event, n: nat, s: State) returns (end: State, ghost steps: nat)
    requires At(j, fate, n, s) && s.stage == (if s.started then PartialCommitAt else RollbackAt)
    ensures end.stage.Ended? && At(j, fate, steps, end)
  {
    if s.started {
      end, steps := FinishCommit(j, fate, n, s, Incomplete);
    } else {
      var e := fate(n);
      Advance(j, fate, n, s);
      end := s.(stage := Ended(if e.Crash? then Crashed else if e.Fault? then RollbackFailed else Incomplete),
                staged := s.tables);
      steps := n + 1;
    }
  }

  method FinishCommit(j: Job, fate: nat -> Event, n: nat, s: State, ending: Ending) returns (end: State, ghost steps: nat)
    requires At(j, fate, n, s)
    requires (s.stage == CommitAt && ending == Complete) || (s.stage == PartialCommitAt && ending == Incomplete)
    ensures end.stage.Ended? && At(j, fate, steps, end)
  {
    var e := fate(n);
    Advance(j, fate, n, s);
    if e.Crash? {
      end := Discard(s, Crashed);
    } else if e.Fault? {
      end := Discard(s, Incomplete);
    } else if e.CheckpointFault? && j.cadence == 1 {
      end := s.(stage := Ended(Incomplete), tables := s.staged);
    } else {
      var report := s.report.(completed := s.progress, actions := s.actions);
      end := s.(stage := Ended(ending), tables := s.staged, report := report);
    }
    steps := n + 1;
  }

  /** One candidate: check, unlink and sync its file when it has one, then delete its row. */
  method SweepOne(j: Job, fate: nat -> Event, n: nat, s: State) returns (s': State, n': nat)
    requires s.stage.CheckSweepAt? && InRange(j, s.stage) && At(j, fate, n, s)
    ensures At(j, fate, n', s')
    ensures s'.stage == FromSweep(j, s.stage.i + 1) || s'.stage == Ended(Crashed)
         || s'.stage == (if s'.started then PartialCommitAt else RollbackAt)
  {
    var i := s.stage.i;
    var candidate := j.candidates[i];
    s', n' := s, n;

    Advance(j, fate, n', s');
    var e := fate(n');
    n' := n' + 1;
    if e.Crash? { s' := Discard(s', Crashed); return; }
    if e.Fault? || (candidate.present && candidate.identity.None?) { s' := Abort(s'); return; }
    if candidate.present {
      s' := s'.(stage := UnlinkAt(i));
      Advance(j, fate, n', s');
      e := fate(n');
      n' := n' + 1;
      if e.Crash? { s' := Discard(s', Crashed); return; }
      if e.Fault? { s' := Abort(s'); return; }
      s' := s'.(stage := SyncAt(i), files := s'.files - {candidate.blob.hash}, physical := i + 1, started := true,
                report := s'.report.(filesRemoved := s'.report.filesRemoved + 1,
                                     bytesUnlinked := s'.report.bytesUnlinked + candidate.blob.size));
      Advance(j, fate, n', s');
      e := fate(n');
      n' := n' + 1;
      if e.Crash? { s' := Discard(s', Crashed); return; }
      if e.Fault? { s' := s'.(stage := PartialCommitAt); return; }
      s' := s'.(stage := DeleteRowAt(i));
    } else {
      s' := s'.(stage := DeleteRowAt(i), physical := i + 1);
    }

    Advance(j, fate, n', s');
    e := fate(n');
    n' := n' + 1;
    if e.Crash? { s' := Discard(s', Crashed); return; }
    s' := DeleteRowStep(j, s', i, e.Fault?);
  }

  /** Apply a plan whose every operation goes as the script says, until it ends. */
  method ApplyPlan(j: Job, fate: nat -> Event) returns (end: State, ghost steps: nat)
    ensures end.stage.Ended? && At(j, fate, steps, end)
  {
    var n := 0;
    var s := Start(j);
    assert Script(fate, 0) == [];
    for i := 0 to |j.marks|
      invariant At(j, fate, n, s) && s.stage == FromMark(j, i) && !s.started
    {
      Advance(j, fate, n, s);
      var e := fate(n);
      n := n + 1;
      if e.Crash? { return Discard(s, Crashed), n; }
      var blob := j.marks[i];
      var (staged, affected) := GcMark(s.staged, blob.hash, blob.size, j.now);
      if e.Fault? || affected != 1 {
        end, steps := AbortApply(j, fate, n, Abort(s));
        return;
      }
      s := s.(stage := FromMark(j, i + 1), staged := staged, actions := s.actions + [ActionFor(Mark, blob, None)],
              progress := s.progress.(marks := s.progress.marks + 1));
    }
    for i := 0 to |j.resurrections|
      invariant At(j, fate, n, s) && s.stage == FromResurrect(j, i) && !s.started
    {
      Advance(j, fate, n, s);
      var e := fate(n);
      n := n + 1;
      if e.Crash? { return Discard(s, Crashed), n; }
      var blob := j.resurrections[i];
      var (staged, affected) := GcResurrect(s.staged, blob.hash, blob.size);
      if e.Fault? || affected != 1 {
        end, steps := AbortApply(j, fate, n, Abort(s));
        return;
      }
      s := s.(stage := FromResurrect(j, i + 1), staged := staged,
              actions := s.actions + [ActionFor(Resurrect, blob, None)],
              progress := s.progress.(resurrections := s.progress.resurrections + 1));
    }
    for i := 0 to |j.candidates|
      invariant At(j, fate, n, s) && s.stage == FromSweep(j, i)
    {
      s, n := SweepOne(j, fate, n, s);
      if s.stage == Ended(Crashed) { return s, n; }
      if s.stage.PartialCommitAt? || s.stage.RollbackAt? {
        end, steps := AbortApply(j, fate, n, s);
        return;
      }
    }
    end, steps := FinishCommit(j, fate, n, s, Complete);
  }
}
