/** Planning and applying a browse tree. */
module BuildTree {
  import opened Domain
  import opened Paths
  import opened BrowseTree

  // ---------------------------------------------------------------------------
  // Planning
  // ---------------------------------------------------------------------------

  lemma LinkTextExists(at: Place, e: Entry, digits: nat)
    requires GoodEntry(e, digits)
    ensures RelativeTarget(AbsoluteText(at.root + Parent(Output(e, digits))), AbsoluteText(at.blobs + BlobPath(e.hash)))
      == Ok(LinkText(at, e, digits))
  {
    OwnLinkIsRecognised(at.root + Parent(Output(e, digits)), at.blobs, BlobPath(e.hash));
  }

  method PlanEntry(at: Place, e: Entry, digits: nat) returns (w: Wanted<Path, Text>)
    requires GoodEntry(e, digits)
    ensures w == WantedOf(at, e, digits)
  {
    var output := Output(e, digits);
    var text := RelativeSymlinkTarget(AbsoluteText(at.root + Parent(output)), AbsoluteText(at.blobs + BlobPath(e.hash)));
    LinkTextExists(at, e, digits);
    return Wanted(output, text.value, e.present);
  }

  /** Take in one more wanted link. */
  method Include<K(==), V>(desired: map<K, V>, w: Wanted<K, V>, ghost ws: seq<Wanted<K, V>>, ghost k: nat)
    returns (r: Result<map<K, V>>)
    requires k < |ws| && ws[k] == w && Collect(ws, k) == Ok(desired)
    ensures r == Collect(ws, k + 1)
    ensures r.Err? ==> Collect(ws, |ws|).Err?
  {
    if !w.present || w.output in desired {
      CollectErrStays(ws, k + 1, |ws|);
      return Err;
    }
    return Ok(desired[w.output := w.text]);
  }

  method PlanDesired(at: Place, entries: seq<Entry>, digits: nat) returns (r: Result<map<Path, Text>>)
    requires GoodEntries(entries, digits)
    ensures r == DesiredOf(at, entries, digits)
  {
    ghost var ws := AllWanted(at, entries, digits);
    r := Ok(map[]);
    var k := 0;
    while k < |entries|
      invariant 0 <= k <= |entries| && r.Ok? && r == Collect(ws, k)
    {
      var w := PlanEntry(at, entries[k], digits);
      r := Include(r.value, w, ws, k);
      if r.Err? {
        return;
      }
      k := k + 1;
    }
  }

  /** One desired path: blocked, missing, as desired, or the tool's own but different. */
  datatype Status = Blocked | Missing | Kept | Replaced

  function StatusOf(at: Place, t: Tree, p: Path, text: Text): Status
    requires p != []
  {
    if p !in t then Missing
    else if !t[p].Link? || !OwnText(at, p, t[p].text) then Blocked
    else if t[p].text == text then Kept else Replaced
  }

  function Having<K>(status: map<K, Status>, s: Status): set<K> {
    set p | p in status && status[p] == s
  }

  function Among<K>(status: map<K, Status>, done: set<K>, s: Status): set<K> {
    set p | p in done && p in status && status[p] == s
  }

  lemma OneMore<K>(status: map<K, Status>, done: set<K>, p: K, s: Status)
    requires p in status && p !in done
    ensures |Among(status, done + {p}, s)| == |Among(status, done, s)| + if status[p] == s then 1 else 0
  {
    if status[p] == s {
      assert Among(status, done + {p}, s) == Among(status, done, s) + {p};
    } else {
      assert Among(status, done + {p}, s) == Among(status, done, s);
    }
  }

  /** Count what stands at the desired paths, unless one is blocked. */
  method CountLinks<K(==)>(status: map<K, Status>) returns (free: bool, created: nat, kept: nat, replaced: nat)
    ensures free <==> forall p :: p in status ==> status[p] != Blocked
    ensures free ==> created == |Having(status, Missing)| && kept == |Having(status, Kept)|
    ensures free ==> created + kept + replaced == |status.Keys|
  {
    created, kept, replaced := 0, 0, 0;
    var done: set<K> := {};
    assert Among(status, done, Missing) == {} && Among(status, done, Kept) == {};
    while done != status.Keys
      invariant done <= status.Keys && forall p :: p in done ==> status[p] != Blocked
      invariant created == |Among(status, done, Missing)| && kept == |Among(status, done, Kept)|
      invariant created + kept + replaced == |done|
      decreases |status.Keys - done|
    {
      var p :| p in status.Keys - done;
      if status[p] == Blocked {
        return false, 0, 0, 0;
      }
      OneMore(status, done, p, Missing);
      OneMore(status, done, p, Kept);
      created := created + if status[p] == Missing then 1 else 0;
      kept := kept + if status[p] == Kept then 1 else 0;
      replaced := replaced + if status[p] == Replaced then 1 else 0;
      assert status.Keys - (done + {p}) == (status.Keys - done) - {p};
      done := done + {p};
    }
    assert Among(status, done, Missing) == Having(status, Missing) && Among(status, done, Kept) == Having(status, Kept);
    free := true;
  }

  lemma StatusMeaning(at: Place, t: Tree, desired: map<Path, Text>, status: map<Path, Status>)
    requires Desirable(at, desired) && status.Keys == desired.Keys
    requires forall p :: p in desired ==> status[p] == StatusOf(at, t, p, desired[p])
    ensures Unblocked(at, t, desired) <==> forall p :: p in status ==> status[p] != Blocked
    ensures Unblocked(at, t, desired) ==>
      Having(status, Missing) == Absent(t, desired) && Having(status, Kept) == AsDesired(t, desired)
    ensures |status.Keys| == |desired|
  {
  }

  /** Look at what stands at every desired path. */
  method PlanLinks(at: Place, t: Tree, desired: map<Path, Text>) returns (free: bool, created: nat, kept: nat, replaced: nat)
    requires Desirable(at, desired)
    ensures free <==> Unblocked(at, t, desired)
    ensures free ==> created == |Absent(t, desired)| && kept == |AsDesired(t, desired)|
    ensures free ==> created + kept + replaced == |desired|
  {
    var status := map p | p in desired :: StatusOf(at, t, p, desired[p]);
    StatusMeaning(at, t, desired, status);
    free, created, kept, replaced := CountLinks(status);
  }

  /** The missing directories above one desired path. */
  method MissingAncestors(t: Tree, p: Path) returns (free: bool, missing: set<Path>)
    ensures free <==> forall k :: 0 < k < |p| && p[..k] in t ==> t[p[..k]].Dir?
    ensures free ==> forall d :: d in missing <==> MissingAbove(t, p, d)
  {
    missing := {};
    var k := 1;
    while k < |p|
      invariant 1 <= k && (k <= |p| || |p| == 0)
      invariant forall j :: 0 < j < k && j < |p| && p[..j] in t ==> t[p[..j]].Dir?
      invariant forall d :: d in missing <==> MissingAbove(t, p, d) && |d| < k
    {
      var d := p[..k];
      if d !in t {
        missing := missing + {d};
      } else if !t[d].Dir? {
        return false, {};
      }
      k := k + 1;
    }
    free := true;
  }

  method PlanDirectories(t: Tree, desired: map<Path, Text>) returns (free: bool, create: set<Path>)
    ensures free <==> ParentsFree(t, desired)
    ensures free ==> IsMissing(t, desired, create)
  {
    create := if [] in t then {} else {[]};
    var todo := desired.Keys;
    while todo != {}
      invariant todo <= desired.Keys
      invariant forall p, k :: p in desired && p !in todo && 0 < k < |p| && p[..k] in t ==> t[p[..k]].Dir?
      invariant forall d :: d in create <==>
        (d == [] && [] !in t) || (exists p :: p in desired && p !in todo && MissingAbove(t, p, d))
      decreases |todo|
    {
      var p :| p in todo;
      var clear, missing := MissingAncestors(t, p);
      if !clear {
        return false, {};
      }
      ghost var before := create;
      create := create + missing;
      todo := todo - {p};
      forall d ensures d in create <==>
        (d == [] && [] !in t) || (exists q :: q in desired && q !in todo && MissingAbove(t, q, d))
      {
        if d in missing {
          assert p in desired && p !in todo && MissingAbove(t, p, d);
        } else if d in before && d != [] {
          var q :| q in desired && q !in todo + {p} && MissingAbove(t, q, d);
          assert q !in todo;
        }
      }
    }
    free := true;
  }

  /** A plan exists exactly when outputs do not coincide, every blob is present and nothing of the
      user's stands in the way; it says what is there now and what has to change. */
  method PlanTree(at: Place, t: Tree, entries: seq<Entry>, digits: nat) returns (r: Result<Plan>)
    requires GoodEntries(entries, digits)
    ensures r.Ok? <==>
      var desired := DesiredOf(at, entries, digits);
      desired.Ok? && Unblocked(at, t, desired.value) && ParentsFree(t, desired.value)
    ensures r.Ok? ==> IsPlan(at, t, DesiredOf(at, entries, digits).value, r.value)
  {
    var desired := PlanDesired(at, entries, digits);
    if desired.Err? {
      return Err;
    }
    DesiredIsDesirable(at, entries, digits);
    var free, created, kept, replaced := PlanLinks(at, t, desired.value);
    if !free {
      return Err;
    }
    var clear, create := PlanDirectories(t, desired.value);
    if !clear {
      return Err;
    }
    var stale := set p | p in t && Owned(at, t, p) && p !in desired.value;
    return Ok(Plan(desired.value, stale, create, created, kept, replaced));
  }
}
