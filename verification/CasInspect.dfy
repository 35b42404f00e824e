/** Walking the blob directory of the store. */
module CasInspect {
  import opened Paths

  /** A directory that can be listed, or one that cannot. */
  datatype Directory = Readable(entries: seq<Item>) | Unreadable

  datatype Item = Item(name: string, kind: Kind)

  /** What `symlink_metadata` says of an entry. */
  datatype Kind = File | Dir(content: Directory) | Symlink | Other | StatFails

  datatype Reason =
    | IsSymlink | NonRegular | MalformedAncestor | DirectoryAtBlobDepth | InvalidShard
    | FileAtInvalidDepth | InvalidBlobName | ShardMismatch

  datatype Finding = InvalidCasEntry(place: seq<string>, reason: Reason) | CasIoError(where: seq<string>)

  datatype Classification = ValidDirectory | ValidBlob(hash: string) | Invalid(reason: Reason)

  predicate ValidShard(name: string) {
    |name| == 2 && LowerHex(name[0]) && LowerHex(name[1])
  }

  predicate ValidShards(components: seq<string>) {
    forall i :: 0 <= i < |components| ==> ValidShard(components[i])
  }

  function ClassifyEntry(components: seq<string>, kind: Kind, ancestorsValid: bool): Classification
    requires components != []
  {
    if kind.Symlink? then Invalid(IsSymlink)
    else if kind.Other? || kind.StatFails? then Invalid(NonRegular)
    else if !ancestorsValid then Invalid(MalformedAncestor)
    else if kind.Dir? then
      if |components| <= 2 && ValidShards(components) then ValidDirectory
      else if |components| >= 3 then Invalid(DirectoryAtBlobDepth)
      else Invalid(InvalidShard)
    else if |components| != 3 then Invalid(FileAtInvalidDepth)
    else if !ValidShard(components[0]) || !ValidShard(components[1]) then Invalid(InvalidShard)
    else if !IsHash(components[2]) then Invalid(InvalidBlobName)
    else if components[0] != components[2][..2] || components[1] != components[2][2..4] then Invalid(ShardMismatch)
    else ValidBlob(components[2])
  }

  /** A regular file at this path, reached through real directories only. */
  predicate FileAt(d: Directory, path: seq<string>)
    requires path != []
    decreases |path|
  {
    && d.Readable?
    && exists i ::
         && 0 <= i < |d.entries| && d.entries[i].name == path[0]
         && if |path| == 1 then d.entries[i].kind.File?
            else d.entries[i].kind.Dir? && FileAt(d.entries[i].kind.content, path[1..])
  }

  // ---------------------------------------------------------------------------
  // What a walk collects
  // ---------------------------------------------------------------------------

  datatype Inspected = Inspected(valid: set<string>, findings: set<Finding>, complete: bool)

  function Both(a: Inspected, b: Inspected): Inspected {
    Inspected(a.valid + b.valid, a.findings + b.findings, a.complete && b.complete)
  }

  function InspectDirectory(prefix: seq<string>, d: Directory, ancestorsValid: bool): Inspected
    decreases d, 1, 0
  {
    if d.Unreadable? then Inspected({}, {CasIoError(prefix)}, false)
    else InspectItems(prefix, d, |d.entries|, ancestorsValid)
  }

  function InspectItems(prefix: seq<string>, d: Directory, k: nat, ancestorsValid: bool): Inspected
    requires d.Readable? && k <= |d.entries|
    decreases d, 0, k
  {
    if k == 0 then Inspected({}, {}, true)
    else Both(InspectItems(prefix, d, k - 1, ancestorsValid), InspectItem(prefix, d.entries[k - 1], ancestorsValid))
  }

  function InspectItem(prefix: seq<string>, item: Item, ancestorsValid: bool): Inspected
    decreases item, 2, 0
  {
    var components := prefix + [item.name];
    if item.kind.StatFails? then Inspected({}, {CasIoError(components)}, false)
    else
      match ClassifyEntry(components, item.kind, ancestorsValid)
      case ValidDirectory => InspectDirectory(components, item.kind.content, true)
      case ValidBlob(h) => Inspected({h}, {}, true)
      case Invalid(reason) =>
        var here := Inspected({}, {InvalidCasEntry(components, reason)}, true);
        if item.kind.Dir? then Both(here, InspectDirectory(components, item.kind.content, false)) else here
  }

  class CasInspection {
    var valid: set<string>
    var findings: set<Finding>
    var complete: bool

    constructor ()
      ensures valid == {} && findings == {} && complete
    {
      valid, findings, complete := {}, {}, true;
    }

    /** List a directory and descend; a directory that cannot be listed is reported by the caller. */
    method Walk(prefix: seq<string>, d: Directory, ancestorsValid: bool) returns (listed: bool)
      modifies this
      ensures listed == d.Readable?
      ensures !listed ==> valid == old(valid) && findings == old(findings) && complete == old(complete)
      ensures listed ==>
        var r := InspectItems(prefix, d, |d.entries|, ancestorsValid);
        valid == old(valid) + r.valid && findings == old(findings) + r.findings && complete == (old(complete) && r.complete)
      decreases d, 1
    {
      if d.Unreadable? {
        return false;
      }
      for k := 0 to |d.entries|
        invariant
          var r := InspectItems(prefix, d, k, ancestorsValid);
          valid == old(valid) + r.valid && findings == old(findings) + r.findings && complete == (old(complete) && r.complete)
      {
        WalkEntry(prefix, d.entries[k], ancestorsValid);
      }
      return true;
    }

    method WalkEntry(prefix: seq<string>, item: Item, ancestorsValid: bool)
      modifies this
      ensures
        var r := InspectItem(prefix, item, ancestorsValid);
        valid == old(valid) + r.valid && findings == old(findings) + r.findings && complete == (old(complete) && r.complete)
      decreases item, 2
    {
      var components := prefix + [item.name];
      if item.kind.StatFails? {
        complete, findings := false, findings + {CasIoError(components)};
        return;
      }
      match ClassifyEntry(components, item.kind, ancestorsValid) {
        case ValidBlob(h) => valid := valid + {h};
        case ValidDirectory => Descend(components, item.kind.content, true);
        case Invalid(reason) =>
          findings := findings + {InvalidCasEntry(components, reason)};
          if item.kind.Dir? {
            Descend(components, item.kind.content, false);
          }
      }
    }

    method Descend(components: seq<string>, d: Directory, ancestorsValid: bool)
      modifies this
      ensures
        var r := InspectDirectory(components, d, ancestorsValid);
        valid == old(valid) + r.valid && findings == old(findings) + r.findings && complete == (old(complete) && r.complete)
      decreases d, 2
    {
      var listed := Walk(components, d, ancestorsValid);
      if !listed {
        complete, findings := false, findings + {CasIoError(components)};
      }
    }
  }

  /** The walk from the blob directory itself. */
  method InspectCas(blobs: Directory) returns (inspection: CasInspection)
    ensures fresh(inspection)
    ensures Inspected(inspection.valid, inspection.findings, inspection.complete) == InspectDirectory([], blobs, true)
    ensures forall h :: h in inspection.valid ==> IsHash(h) && FileAt(blobs, BlobPath(h))
    ensures inspection.complete ==> forall h :: IsHash(h) && FileAt(blobs, BlobPath(h)) ==> h in inspection.valid
    ensures !inspection.complete ==> exists f :: f in inspection.findings && f.CasIoError?
    ensures forall f :: f in inspection.findings <==> Deserved(blobs, f)
    ensures inspection.findings == {} <==> LaidOut(blobs)
  {
    inspection := new CasInspection();
    inspection.Descend([], blobs, true);
    forall h { InspectionIsExact(blobs, h); }
    InspectionIsExact(blobs, "");
    forall f { FindingsAreExact(blobs, f); }
    QuietIffLaidOut(blobs);
  }

  // ---------------------------------------------------------------------------
  // Exactness
  // ---------------------------------------------------------------------------

  /** The walk of the valid part of the store has come to this directory. */
  predicate OnTheWay(prefix: seq<string>, h: string) {
    IsHash(h) && |prefix| < 3 && prefix == BlobPath(h)[..|prefix|]
  }

  /** Nothing below a malformed ancestor is accepted. */
  lemma {:induction false} NothingBelowMalformed(prefix: seq<string>, d: Directory, k: nat)
    requires d.Readable? && k <= |d.entries|
    ensures InspectItems(prefix, d, k, false).valid == {}
    decreases d, k
  {
    if k > 0 {
      NothingBelowMalformed(prefix, d, k - 1);
      NothingAtMalformed(prefix, d.entries[k - 1]);
    }
  }

  lemma {:induction false} NothingAtMalformed(prefix: seq<string>, item: Item)
    ensures InspectItem(prefix, item, false).valid == {}
    decreases item, 0
  {
    if item.kind.Dir? {
      var below := item.kind.content;
      if below.Readable? {
        NothingBelowMalformed(prefix + [item.name], below, |below.entries|);
      }
      assert InspectDirectory(prefix + [item.name], below, false).valid == {};
    }
  }

  /** Every accepted hash is a regular file at its blob path, under real directories. */
  lemma {:induction false} AcceptedIsThere(prefix: seq<string>, d: Directory, k: nat, h: string)
    requires d.Readable? && k <= |d.entries| && |prefix| < 3 && h in InspectItems(prefix, d, k, true).valid
    ensures OnTheWay(prefix, h) && FileAt(d, BlobPath(h)[|prefix|..])
    decreases d, k
  {
    var item := d.entries[k - 1];
    if h in InspectItems(prefix, d, k - 1, true).valid {
      AcceptedIsThere(prefix, d, k - 1, h);
    } else {
      AcceptedItem(prefix, item, h);
      assert d.entries[k - 1].name == BlobPath(h)[|prefix|..][0];
    }
  }

  lemma {:induction false} AcceptedItem(prefix: seq<string>, item: Item, h: string)
    requires |prefix| < 3 && h in InspectItem(prefix, item, true).valid
    ensures OnTheWay(prefix, h) && item.name == BlobPath(h)[|prefix|]
    ensures if |prefix| == 2 then item.kind.File? else item.kind.Dir? && FileAt(item.kind.content, BlobPath(h)[|prefix| + 1..])
    decreases item, 0
  {
    var components := prefix + [item.name];
    match ClassifyEntry(components, item.kind, true) {
      case ValidBlob(_) =>
        assert components == BlobPath(h);
        assert prefix == components[..2];
      case ValidDirectory =>
        AcceptedIsThere(components, item.kind.content, |item.kind.content.entries|, h);
        assert prefix == components[..|prefix|];
      case Invalid(_) =>
        var below := item.kind.content;
        NothingBelowMalformed(components, below, |below.entries|);
    }
  }

  /** A complete walk misses no file. */
  lemma {:induction false} ThereIsAccepted(prefix: seq<string>, d: Directory, k: nat, i: nat, h: string)
    requires d.Readable? && i < k <= |d.entries| && OnTheWay(prefix, h) && InspectItems(prefix, d, k, true).complete
    requires d.entries[i].name == BlobPath(h)[|prefix|]
    requires if |prefix| == 2 then d.entries[i].kind.File?
      else d.entries[i].kind.Dir? && FileAt(d.entries[i].kind.content, BlobPath(h)[|prefix| + 1..])
    ensures h in InspectItems(prefix, d, k, true).valid
    decreases d, k
  {
    if i < k - 1 {
      ThereIsAccepted(prefix, d, k - 1, i, h);
    } else {
      ItemIsAccepted(prefix, d.entries[i], h);
    }
  }

  lemma OnTheWayGoesOn(prefix: seq<string>, h: string)
    requires OnTheWay(prefix, h)
    ensures var components := prefix + [BlobPath(h)[|prefix|]];
      && components == BlobPath(h)[..|prefix| + 1]
      && (|prefix| < 2 ==> ValidShards(components) && OnTheWay(components, h))
  {
  }

  lemma {:induction false} ItemIsAccepted(prefix: seq<string>, item: Item, h: string)
    requires OnTheWay(prefix, h) && InspectItem(prefix, item, true).complete && item.name == BlobPath(h)[|prefix|]
    requires if |prefix| == 2 then item.kind.File?
      else item.kind.Dir? && FileAt(item.kind.content, BlobPath(h)[|prefix| + 1..])
    ensures h in InspectItem(prefix, item, true).valid
    decreases item, 0
  {
    OnTheWayGoesOn(prefix, h);
    var components := prefix + [item.name];
    if |prefix| == 2 {
      assert components == BlobPath(h);
    } else {
      var below, path := item.kind.content, BlobPath(h)[|prefix| + 1..];
      var i :| 0 <= i < |below.entries| && below.entries[i].name == path[0] &&
        if |path| == 1 then below.entries[i].kind.File?
        else below.entries[i].kind.Dir? && FileAt(below.entries[i].kind.content, path[1..]);
      assert path[1..] == BlobPath(h)[|components| + 1..];
      ThereIsAccepted(components, below, |below.entries|, i, h);
    }
  }

  /** An incomplete walk says so. */
  lemma {:induction false} IncompleteIsReported(prefix: seq<string>, d: Directory, k: nat, av: bool)
    requires d.Readable? && k <= |d.entries| && !InspectItems(prefix, d, k, av).complete
    ensures exists f :: f in InspectItems(prefix, d, k, av).findings && f.CasIoError?
    decreases d, 0, k
  {
    if !InspectItems(prefix, d, k - 1, av).complete {
      IncompleteIsReported(prefix, d, k - 1, av);
    } else {
      IncompleteItemIsReported(prefix, d.entries[k - 1], av);
    }
  }

  lemma {:induction false} IncompleteItemIsReported(prefix: seq<string>, item: Item, av: bool)
    requires !InspectItem(prefix, item, av).complete
    ensures exists f :: f in InspectItem(prefix, item, av).findings && f.CasIoError?
    decreases item, 0, 0
  {
    var components := prefix + [item.name];
    if item.kind.StatFails? {
      assert CasIoError(components) in InspectItem(prefix, item, av).findings;
    } else {
      var below := item.kind.content;
      var valid := ClassifyEntry(components, item.kind, av).ValidDirectory?;
      IncompleteDirectoryIsReported(components, below, valid);
      var f :| f in InspectDirectory(components, below, valid).findings && f.CasIoError?;
      assert f in InspectItem(prefix, item, av).findings;
    }
  }

  lemma IncompleteDirectoryIsReported(prefix: seq<string>, d: Directory, av: bool)
    requires !InspectDirectory(prefix, d, av).complete
    ensures exists f :: f in InspectDirectory(prefix, d, av).findings && f.CasIoError?
    decreases d, 1, 0
  {
    if d.Readable? {
      IncompleteIsReported(prefix, d, |d.entries|, av);
    } else {
      assert CasIoError(prefix) in InspectDirectory(prefix, d, av).findings;
    }
  }

  /** The inspection is exact: it accepts only hashes whose regular file lies at their blob path
      under real directories; when complete it accepts all of them; otherwise it carries a
      finding. */
  lemma InspectionIsExact(blobs: Directory, h: string)
    ensures var r := InspectDirectory([], blobs, true);
      && (h in r.valid ==> IsHash(h) && FileAt(blobs, BlobPath(h)))
      && (r.complete && IsHash(h) && FileAt(blobs, BlobPath(h)) ==> h in r.valid)
      && (!r.complete ==> exists f :: f in r.findings && f.CasIoError?)
  {
    var r := InspectDirectory([], blobs, true);
    if h in r.valid {
      AcceptedIsThere([], blobs, |blobs.entries|, h);
      assert BlobPath(h)[0..] == BlobPath(h);
    }
    if r.complete && IsHash(h) && FileAt(blobs, BlobPath(h)) {
      var path := BlobPath(h);
      var i :| 0 <= i < |blobs.entries| && blobs.entries[i].name == path[0] &&
        blobs.entries[i].kind.Dir? && FileAt(blobs.entries[i].kind.content, path[1..]);
      assert OnTheWay([], h);
      ThereIsAccepted([], blobs, |blobs.entries|, i, h);
    }
    if !r.complete {
      IncompleteDirectoryIsReported([], blobs, true);
    }
  }

  // ---------------------------------------------------------------------------
  // Layout
  // ---------------------------------------------------------------------------

  /** `item` stands at `path` below `d`, reached through directories that can be listed. */
  ghost predicate Reached(d: Directory, path: seq<string>, item: Item)
    decreases |path|, 0
  {
    && path != [] && d.Readable?
    && exists i ::
         0 <= i < |d.entries| && d.entries[i].name == path[0] && LeadsOn(d.entries[i], path[1..], item)
  }

  /** `item` is the entry itself, or stands at `rest` below it. */
  ghost predicate LeadsOn(entry: Item, rest: seq<string>, item: Item)
    decreases |rest|, 1
  {
    if rest == [] then entry == item else entry.kind.Dir? && Reached(entry.kind.content, rest, item)
  }

  /** A directory where blobs are kept: the root, a shard, or a shard in a shard. */
  predicate ShardPlace(path: seq<string>) {
    |path| <= 2 && ValidShards(path)
  }

  /** A shard directory, or a regular file at the blob path of its own name. */
  predicate InPlace(path: seq<string>, kind: Kind) {
    || (kind.Dir? && ShardPlace(path))
    || (kind.File? && |path| == 3 && IsHash(path[2]) && path == BlobPath(path[2]))
  }

  /** What is wrong with an entry, reason by reason. */
  predicate Wrong(path: seq<string>, kind: Kind, reason: Reason)
    requires path != []
  {
    var n := |path| - 1;
    match reason
    case IsSymlink => kind.Symlink?
    case NonRegular => kind.Other?
    case MalformedAncestor => (kind.Dir? || kind.File?) && !ShardPlace(path[..n])
    case DirectoryAtBlobDepth => kind.Dir? && n == 2 && ShardPlace(path[..n])
    case InvalidShard => kind.Dir? && n < 2 && ShardPlace(path[..n]) && !ValidShard(path[n])
    case FileAtInvalidDepth => kind.File? && n < 2 && ShardPlace(path[..n])
    case InvalidBlobName => kind.File? && n == 2 && ShardPlace(path[..n]) && !IsHash(path[n])
    case ShardMismatch =>
      kind.File? && n == 2 && ShardPlace(path[..n]) && IsHash(path[n]) && path != BlobPath(path[n])
  }

  lemma ShardPlaceGrows(path: seq<string>)
    requires path != []
    ensures var n := |path| - 1; ShardPlace(path) <==> n < 2 && ShardPlace(path[..n]) && ValidShard(path[n])
  {
    var n := |path| - 1;
    if ShardPlace(path[..n]) && ValidShard(path[n]) {
      forall i | 0 <= i < |path| ensures ValidShard(path[i]) {
        assert i < n ==> path[i] == path[..n][i];
      }
    }
  }

  lemma BlobIsInShards(path: seq<string>)
    requires |path| == 3 && IsHash(path[2]) && path == BlobPath(path[2])
    ensures ShardPlace(path[..2])
  {
    forall i | 0 <= i < 2 ensures ValidShard(path[..2][i]) {
      assert path[..2][i] == path[i];
    }
  }

  /** An entry that can be stat'ed is in place exactly when nothing is wrong with it. */
  lemma WrongIff(path: seq<string>, kind: Kind)
    requires path != [] && !kind.StatFails?
    ensures InPlace(path, kind) <==> forall reason :: !Wrong(path, kind, reason)
  {
    if kind.Dir? {
      ShardPlaceGrows(path);
      assert InPlace(path, kind) || Wrong(path, kind, MalformedAncestor) || Wrong(path, kind, DirectoryAtBlobDepth) ||
        Wrong(path, kind, InvalidShard);
    } else if kind.File? {
      if InPlace(path, kind) {
        BlobIsInShards(path);
      } else {
        assert Wrong(path, kind, MalformedAncestor) || Wrong(path, kind, FileAtInvalidDepth) ||
          Wrong(path, kind, InvalidBlobName) || Wrong(path, kind, ShardMismatch);
      }
    } else {
      assert Wrong(path, kind, IsSymlink) || Wrong(path, kind, NonRegular);
    }
  }

  lemma PathOfShards(path: seq<string>)
    requires |path| == 3 && IsHash(path[2])
    ensures path == BlobPath(path[2]) <==> path[0] == path[2][..2] && path[1] == path[2][2..4]
  {
  }

  lemma ClassifiedWrong(path: seq<string>, kind: Kind, reason: Reason)
    requires path != [] && !kind.StatFails?
    ensures ClassifyEntry(path, kind, ShardPlace(path[..|path| - 1])) == Invalid(reason) <==> Wrong(path, kind, reason)
  {
    var n := |path| - 1;
    ShardPlaceGrows(path);
    if n == 2 {
      assert path[..n][0] == path[0] && path[..n][1] == path[1];
      if IsHash(path[2]) {
        PathOfShards(path);
      }
    }
  }

  /** Below a directory entry the walk knows whether it is still among the shards. */
  lemma WalkKnowsPlace(path: seq<string>, kind: Kind)
    requires path != [] && kind.Dir?
    ensures ClassifyEntry(path, kind, ShardPlace(path[..|path| - 1])).ValidDirectory? <==> ShardPlace(path)
    ensures !ClassifyEntry(path, kind, ShardPlace(path[..|path| - 1])).ValidBlob?
  {
    ShardPlaceGrows(path);
  }

  /** The findings that an entry deserves. */
  predicate Deserves(path: seq<string>, kind: Kind, f: Finding)
    requires path != []
  {
    match f
    case InvalidCasEntry(place, reason) => place == path && Wrong(path, kind, reason)
    case CasIoError(where) => where == path && (kind.StatFails? || (kind.Dir? && kind.content.Unreadable?))
  }

  lemma FindingsOfItem(prefix: seq<string>, entry: Item, f: Finding)
    ensures var path := prefix + [entry.name];
      f in InspectItem(prefix, entry, ShardPlace(prefix)).findings <==>
      || Deserves(path, entry.kind, f)
      || (&& entry.kind.Dir? && entry.kind.content.Readable?
          && f in InspectItems(path, entry.kind.content, |entry.kind.content.entries|, ShardPlace(path)).findings)
  {
    var path := prefix + [entry.name];
    assert path[..|path| - 1] == prefix;
    if !entry.kind.StatFails? {
      if f.InvalidCasEntry? {
        ClassifiedWrong(path, entry.kind, f.reason);
      }
      var verdict := ClassifyEntry(path, entry.kind, ShardPlace(prefix));
      if verdict.Invalid? {
        ClassifiedWrong(path, entry.kind, verdict.reason);
      }
      if entry.kind.Dir? {
        WalkKnowsPlace(path, entry.kind);
      }
    }
  }

  lemma Regroup<T>(a: seq<T>, x: T, b: seq<T>)
    ensures (a + [x]) + b == a + ([x] + b)
  {
  }

  /** Every finding of a walk is deserved by an entry that it reached. */
  lemma {:induction false} FoundIsThere(prefix: seq<string>, d: Directory, k: nat, f: Finding) returns (path: seq<string>, item: Item)
    requires d.Readable? && k <= |d.entries| && f in InspectItems(prefix, d, k, ShardPlace(prefix)).findings
    ensures Reached(d, path, item) && Deserves(prefix + path, item.kind, f)
    decreases d, k
  {
    var before := InspectItems(prefix, d, k - 1, ShardPlace(prefix)).findings;
    if f in before {
      path, item := FoundIsThere(prefix, d, k - 1, f);
    } else {
      var entry := d.entries[k - 1];
      var rest: seq<string>;
      rest, item := FoundAtItem(prefix, entry, f);
      path := [entry.name] + rest;
      Regroup(prefix, entry.name, rest);
      assert path[1..] == rest;
      assert d.entries[k - 1].name == path[0] && LeadsOn(d.entries[k - 1], path[1..], item);
    }
  }

  lemma {:induction false} FoundAtItem(prefix: seq<string>, entry: Item, f: Finding) returns (rest: seq<string>, item: Item)
    requires f in InspectItem(prefix, entry, ShardPlace(prefix)).findings
    ensures LeadsOn(entry, rest, item) && Deserves((prefix + [entry.name]) + rest, item.kind, f)
    decreases entry, 0
  {
    var path := prefix + [entry.name];
    FindingsOfItem(prefix, entry, f);
    if Deserves(path, entry.kind, f) {
      rest, item := [], entry;
      assert path + [] == path;
    } else {
      rest, item := FoundIsThere(path, entry.kind.content, |entry.kind.content.entries|, f);
    }
  }

  /** Every finding that a reached entry deserves is made. */
  lemma {:induction false} ThereIsFound(prefix: seq<string>, d: Directory, k: nat, i: nat, rest: seq<string>, item: Item, f: Finding)
    requires d.Readable? && i < k <= |d.entries| && LeadsOn(d.entries[i], rest, item)
    requires Deserves((prefix + [d.entries[i].name]) + rest, item.kind, f)
    ensures f in InspectItems(prefix, d, k, ShardPlace(prefix)).findings
    decreases d, k
  {
    if i < k - 1 {
      ThereIsFound(prefix, d, k - 1, i, rest, item, f);
    } else {
      ItemIsFound(prefix, d.entries[i], rest, item, f);
    }
  }

  lemma {:induction false} ItemIsFound(prefix: seq<string>, entry: Item, rest: seq<string>, item: Item, f: Finding)
    requires LeadsOn(entry, rest, item) && Deserves((prefix + [entry.name]) + rest, item.kind, f)
    ensures f in InspectItem(prefix, entry, ShardPlace(prefix)).findings
    decreases entry, 0
  {
    var path := prefix + [entry.name];
    FindingsOfItem(prefix, entry, f);
    if rest == [] {
      assert path + rest == path;
    } else {
      var below := entry.kind.content;
      var i :| 0 <= i < |below.entries| && below.entries[i].name == rest[0] && LeadsOn(below.entries[i], rest[1..], item);
      Regroup(path, rest[0], rest[1..]);
      assert [rest[0]] + rest[1..] == rest;
      ThereIsFound(path, below, |below.entries|, i, rest[1..], item, f);
    }
  }

  /** A finding that the store deserves: something is wrong with an entry that can be reached, or
      an entry, or the blob directory itself, cannot be read. */
  ghost predicate Deserved(blobs: Directory, f: Finding) {
    || (blobs.Unreadable? && f == CasIoError([]))
    || exists path, item :: Reached(blobs, path, item) && Deserves(path, item.kind, f)
  }

  /** The findings of an inspection are exactly those that the store deserves. */
  lemma FindingsAreExact(blobs: Directory, f: Finding)
    ensures f in InspectDirectory([], blobs, true).findings <==> Deserved(blobs, f)
  {
    assert ShardPlace([]);
    if blobs.Readable? {
      if f in InspectDirectory([], blobs, true).findings {
        var path, item := FoundIsThere([], blobs, |blobs.entries|, f);
        assert [] + path == path;
      }
      if Deserved(blobs, f) {
        var path, item :| Reached(blobs, path, item) && Deserves(path, item.kind, f);
        var i :| 0 <= i < |blobs.entries| && blobs.entries[i].name == path[0] && LeadsOn(blobs.entries[i], path[1..], item);
        assert ([] + [path[0]]) + path[1..] == path;
        ThereIsFound([], blobs, |blobs.entries|, i, path[1..], item, f);
      }
    }
  }

  /** A store is laid out properly: everything that can be reached is in place and readable. */
  ghost predicate LaidOut(blobs: Directory) {
    && blobs.Readable?
    && forall path, item :: Reached(blobs, path, item) ==>
         InPlace(path, item.kind) && (item.kind.Dir? ==> item.kind.content.Readable?)
  }

  /** An inspection finds nothing if and only if the store is laid out properly, and it is then
      complete. */
  lemma QuietIffLaidOut(blobs: Directory)
    ensures InspectDirectory([], blobs, true).findings == {} <==> LaidOut(blobs)
    ensures LaidOut(blobs) ==> InspectDirectory([], blobs, true).complete
  {
    var r := InspectDirectory([], blobs, true);
    forall f ensures f in r.findings <==> Deserved(blobs, f) {
      FindingsAreExact(blobs, f);
    }
    if r.findings == {} {
      assert !Deserved(blobs, CasIoError([]));
      forall path, item | Reached(blobs, path, item)
        ensures InPlace(path, item.kind) && (item.kind.Dir? ==> item.kind.content.Readable?)
      {
        assert !Deserved(blobs, CasIoError(path)) && !Deserves(path, item.kind, CasIoError(path));
        WrongIff(path, item.kind);
        forall reason ensures !Wrong(path, item.kind, reason) {
          assert !Deserved(blobs, InvalidCasEntry(path, reason));
          assert !Deserves(path, item.kind, InvalidCasEntry(path, reason));
        }
      }
    }
    if LaidOut(blobs) {
      forall f ensures !Deserved(blobs, f) {
        if Deserved(blobs, f) {
          var path, item :| Reached(blobs, path, item) && Deserves(path, item.kind, f);
          WrongIff(path, item.kind);
        }
      }
      if !r.complete {
        InspectionIsExact(blobs, "");
      }
    }
  }
}
