/** Building a browse tree over and over, with any number of interrupted attempts. */
module BuildRuns {
  import opened Domain
  import opened Paths
  import opened BrowseTree
  import opened BuildTree
  import opened TreeApply

  /** One command: plan against the tree as it is, then apply. `done` tells that it succeeded. */
  method Build(disk: Disk, at: Place, entries: seq<Entry>, digits: nat, prune: seq<Path>) returns (done: bool)
    requires WellFormed(disk.tree) && GoodEntries(entries, digits) && [] !in prune
    modifies disk
    ensures WellFormed(disk.tree) && SameForeign(at, old(disk.tree), disk.tree)
    ensures done ==>
      var desired := DesiredOf(at, entries, digits);
      desired.Ok? && [] in disk.tree && Converged(at, disk.tree, desired.value)
  {
    var plan := PlanTree(at, disk.tree, entries, digits);
    if plan.Err? {
      return false;
    }
    DesiredIsDesirable(at, entries, digits);
    done := disk.Apply(at, plan.value, prune);
  }

  /** However often the command was interrupted before, and whatever tree it started from: a
      command that succeeds leaves exactly the desired links, so that every entry is shown at its
      place by a link that leads to its blob, the user's entries are untouched throughout, and
      planning once more succeeds and finds every link in place. */
  method BuildAfterInterruptions(disk: Disk, at: Place, entries: seq<Entry>, digits: nat, attempts: nat)
    returns (done: bool, again: Result<Plan>)
    requires WellFormed(disk.tree) && GoodEntries(entries, digits)
    modifies disk
    ensures WellFormed(disk.tree) && SameForeign(at, old(disk.tree), disk.tree)
    ensures done ==> DesiredOf(at, entries, digits).Ok?
    ensures done ==> Converged(at, disk.tree, DesiredOf(at, entries, digits).value)
    ensures done ==> forall i :: 0 <= i < |entries| ==> Shows(at, disk.tree, entries[i], digits)
    ensures done ==> again.Ok? && again.value.kept == |again.value.desired|
    ensures done ==> again.value.created == again.value.replaced == 0 && again.value.stale == again.value.create == {}
  {
    done, again := false, Err;
    var i := 0;
    while i <= attempts && !done
      invariant WellFormed(disk.tree) && SameForeign(at, old(disk.tree), disk.tree)
      invariant done ==>
        var desired := DesiredOf(at, entries, digits);
        desired.Ok? && [] in disk.tree && Converged(at, disk.tree, desired.value)
      decreases attempts + 1 - i
    {
      ghost var before := disk.tree;
      var prune: seq<Path> :| [] !in prune;
      done := Build(disk, at, entries, digits, prune);
      SameForeignChains(at, old(disk.tree), before, disk.tree);
      i := i + 1;
    }
    if done {
      DesiredIsDesirable(at, entries, digits);
      ghost var desired := DesiredOf(at, entries, digits).value;
      ConvergedIsPlannable(at, disk.tree, desired);
      again := PlanTree(at, disk.tree, entries, digits);
      ConvergedPlansNothing(at, disk.tree, desired, again.value);
      ConvergedShows(at, disk.tree, entries, digits);
    }
  }
}
