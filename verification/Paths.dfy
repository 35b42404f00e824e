/** Link texts, lexical paths and the names of browse-tree entries. */
module Paths {
  import opened Domain

  /** A path component other than the root; a file name is neither empty, `.` nor `..`. */
  datatype Component = CurDir | ParentDir | Normal(name: string)

  /** The text of a path, component by component. */
  datatype Text = Text(absolute: bool, parts: seq<Component>)

  /** The absolute path with these names. */
  type Names = seq<string>

  function Normals(names: Names): (parts: seq<Component>)
    ensures |parts| == |names| && forall i :: 0 <= i < |names| ==> parts[i] == Normal(names[i])
  {
    seq(|names|, i requires 0 <= i < |names| => Normal(names[i]))
  }

  function AbsoluteText(names: Names): Text {
    Text(true, Normals(names))
  }

  // ---------------------------------------------------------------------------
  // Names of a path without `..`
  // ---------------------------------------------------------------------------

  function NamesOf(parts: seq<Component>): Result<Names> {
    if parts == [] then Ok([])
    else
      var before, last := NamesOf(parts[..|parts| - 1]), parts[|parts| - 1];
      if before.Err? then Err
      else match last
        case CurDir => before
        case ParentDir => Err
        case Normal(name) => Ok(before.value + [name])
  }

  /** One component further: `.` stays, `..` goes up unless this is the root, a name goes down. */
  function Onward(at: Names, c: Component): Names {
    match c
    case CurDir => at
    case ParentDir => if at == [] then [] else at[..|at| - 1]
    case Normal(name) => at + [name]
  }

  /** The directory or file that a path leads to from a directory. */
  function Walk(from: Names, parts: seq<Component>): Names {
    if parts == [] then from else Onward(Walk(from, parts[..|parts| - 1]), parts[|parts| - 1])
  }

  lemma WalkOneMore(from: Names, parts: seq<Component>, c: Component)
    ensures Walk(from, parts + [c]) == Onward(Walk(from, parts), c)
  {
    assert (parts + [c])[..|parts|] == parts;
  }

  /** The names of a path are where it leads from the root; only `..` is refused. */
  lemma {:induction false} NamesOfMeaning(parts: seq<Component>)
    ensures NamesOf(parts).Err? <==> exists i :: 0 <= i < |parts| && parts[i].ParentDir?
    ensures NamesOf(parts).Ok? ==> NamesOf(parts).value == Walk([], parts)
  {
    if parts != [] {
      var n := |parts| - 1;
      NamesOfMeaning(parts[..n]);
      if i :| 0 <= i < n && parts[i].ParentDir? {
        assert parts[..n][i].ParentDir?;
      }
    }
  }

  method PathComponentsWithoutRoot(path: Text) returns (r: Result<Names>)
    ensures r == NamesOf(path.parts)
    ensures r.Err? <==> exists i :: 0 <= i < |path.parts| && path.parts[i].ParentDir?
    ensures r.Ok? ==> r.value == Walk([], path.parts)
  {
    NamesOfMeaning(path.parts);
    var parts: Names := [];
    var i := 0;
    while i < |path.parts|
      invariant 0 <= i <= |path.parts| && NamesOf(path.parts[..i]) == Ok(parts)
    {
      assert path.parts[..i + 1][..i] == path.parts[..i];
      match path.parts[i] {
        case CurDir =>
        case ParentDir =>
          ParentIsRefused(path.parts, i);
          return Err;
        case Normal(name) => parts := parts + [name];
      }
      i := i + 1;
    }
    assert path.parts[..i] == path.parts;
    return Ok(parts);
  }

  lemma {:induction false} ParentIsRefused(parts: seq<Component>, i: nat)
    requires i < |parts| && parts[i].ParentDir?
    ensures NamesOf(parts).Err?
  {
    if i < |parts| - 1 {
      ParentIsRefused(parts[..|parts| - 1], i);
    }
  }

  lemma {:induction false} NamesOfNormals(names: Names)
    ensures NamesOf(Normals(names)) == Ok(names)
  {
    if names != [] {
      var n := |names| - 1;
      NamesOfNormals(names[..n]);
      assert Normals(names)[..n] == Normals(names[..n]);
      assert names == names[..n] + [names[n]];
    }
  }

  // ---------------------------------------------------------------------------
  // Lexical normalisation
  // ---------------------------------------------------------------------------

  /** One component on top of the normalised components before it. */
  function NormalizeOne(absolute: bool, parts: seq<Component>, c: Component): seq<Component> {
    match c
    case CurDir => parts
    case Normal(_) => parts + [c]
    case ParentDir =>
      if parts != [] && !parts[|parts| - 1].ParentDir? then parts[..|parts| - 1]
      else if absolute then parts else parts + [ParentDir]
  }

  function Normalize(absolute: bool, base: seq<Component>, parts: seq<Component>): seq<Component> {
    if parts == [] then base
    else NormalizeOne(absolute, Normalize(absolute, base, parts[..|parts| - 1]), parts[|parts| - 1])
  }

  /** Names only, after any leading `..` of a relative path. */
  ghost predicate NormalForm(absolute: bool, parts: seq<Component>) {
    && (forall i :: 0 <= i < |parts| ==> !parts[i].CurDir?)
    && (absolute ==> forall i :: 0 <= i < |parts| ==> parts[i].Normal?)
    && (forall i, j :: 0 <= i < j < |parts| && parts[j].ParentDir? ==> parts[i].ParentDir?)
  }

  lemma NormalizeOneIsNormal(absolute: bool, parts: seq<Component>, c: Component)
    requires NormalForm(absolute, parts)
    ensures NormalForm(absolute, NormalizeOne(absolute, parts, c))
  {
  }

  lemma {:induction false} NormalizeIsNormal(absolute: bool, parts: seq<Component>)
    ensures NormalForm(absolute, Normalize(absolute, [], parts))
  {
    if parts != [] {
      NormalizeIsNormal(absolute, parts[..|parts| - 1]);
      NormalizeOneIsNormal(absolute, Normalize(absolute, [], parts[..|parts| - 1]), parts[|parts| - 1]);
    }
  }

  /** Normalising changes a path exactly when it is not in normal form. */
  lemma {:induction false} NormalizeFixesNormalForms(absolute: bool, parts: seq<Component>)
    ensures Normalize(absolute, [], parts) == parts <==> NormalForm(absolute, parts)
  {
    NormalizeIsNormal(absolute, parts);
    if NormalForm(absolute, parts) {
      NormalFormStays(absolute, parts);
    }
  }

  lemma {:induction false} NormalFormStays(absolute: bool, parts: seq<Component>)
    requires NormalForm(absolute, parts)
    ensures Normalize(absolute, [], parts) == parts
  {
    if parts != [] {
      var n := |parts| - 1;
      NormalFormStays(absolute, parts[..n]);
      assert parts == parts[..n] + [parts[n]];
    }
  }

  lemma NormalizeOneKeepsPlace(absolute: bool, from: Names, parts: seq<Component>, c: Component)
    requires NormalForm(absolute, parts) && (absolute ==> from == [])
    ensures Walk(from, NormalizeOne(absolute, parts, c)) == Onward(Walk(from, parts), c)
  {
    WalkOneMore(from, parts, c);
    if c.ParentDir? && parts != [] && !parts[|parts| - 1].ParentDir? {
      var n := |parts| - 1;
      var before := Walk(from, parts[..n]);
      assert (before + [parts[n].name])[..|before|] == before;
    }
  }

  /** Normalising does not change where a path leads, from whichever directory it is read. */
  lemma {:induction false} NormalizeKeepsPlace(absolute: bool, from: Names, parts: seq<Component>)
    requires absolute ==> from == []
    ensures Walk(from, Normalize(absolute, [], parts)) == Walk(from, parts)
  {
    if parts != [] {
      var n := |parts| - 1;
      NormalizeKeepsPlace(absolute, from, parts[..n]);
      NormalizeIsNormal(absolute, parts[..n]);
      NormalizeOneKeepsPlace(absolute, from, Normalize(absolute, [], parts[..n]), parts[n]);
    }
  }

  method LexicalNormalize(path: Text) returns (r: Text)
    ensures r == Text(path.absolute, Normalize(path.absolute, [], path.parts))
    ensures Walk([], r.parts) == Walk([], path.parts)
    ensures !path.absolute ==> forall from: Names :: Walk(from, r.parts) == Walk(from, path.parts)
    ensures NormalForm(r.absolute, r.parts) && (r == path <==> NormalForm(path.absolute, path.parts))
  {
    NormalizeIsNormal(path.absolute, path.parts);
    NormalizeFixesNormalForms(path.absolute, path.parts);
    forall from: Names | path.absolute ==> from == [] {
      NormalizeKeepsPlace(path.absolute, from, path.parts);
    }
    var parts: seq<Component> := [];
    var i := 0;
    while i < |path.parts|
      invariant 0 <= i <= |path.parts| && parts == Normalize(path.absolute, [], path.parts[..i])
    {
      assert path.parts[..i + 1][..i] == path.parts[..i];
      match path.parts[i] {
        case CurDir =>
        case Normal(_) => parts := parts + [path.parts[i]];
        case ParentDir =>
          if parts != [] && !parts[|parts| - 1].ParentDir? {
            parts := parts[..|parts| - 1];
          } else if !path.absolute {
            parts := parts + [ParentDir];
          }
      }
      i := i + 1;
    }
    assert path.parts[..i] == path.parts;
    return Text(path.absolute, parts);
  }

  lemma {:induction false} NormalizeAppend(absolute: bool, base: seq<Component>, a: seq<Component>, b: seq<Component>)
    ensures Normalize(absolute, base, a + b) == Normalize(absolute, Normalize(absolute, base, a), b)
  {
    if b == [] {
      assert a + b == a;
    } else {
      assert (a + b)[..|a + b| - 1] == a + b[..|b| - 1];
      NormalizeAppend(absolute, base, a, b[..|b| - 1]);
    }
  }

  lemma {:induction false} NormalizeNames(base: seq<Component>, names: Names)
    ensures Normalize(true, base, Normals(names)) == base + Normals(names)
  {
    if names == [] {
      assert base + [] == base;
    } else {
      var n := |names| - 1;
      NormalizeNames(base, names[..n]);
      assert Normals(names)[..n] == Normals(names[..n]);
      assert (base + Normals(names[..n])) + [Normal(names[n])] == base + Normals(names);
    }
  }

  /** `..` as often as there are names to leave. */
  function Ups(n: nat): (parts: seq<Component>)
    ensures |parts| == n && forall i :: 0 <= i < n ==> parts[i] == ParentDir
  {
    seq(n, _ => ParentDir)
  }

  lemma OneUp(names: Names)
    requires names != []
    ensures NormalizeOne(true, Normals(names), ParentDir) == Normals(names[..|names| - 1])
  {
    assert Normals(names)[..|names| - 1] == Normals(names[..|names| - 1]);
  }

  lemma {:induction false} NormalizeUps(names: Names, n: nat)
    requires n <= |names|
    ensures Normalize(true, Normals(names), Ups(n)) == Normals(names[..|names| - n])
  {
    if n == 0 {
      assert names[..|names|] == names;
    } else {
      NormalizeUps(names, n - 1);
      var left := names[..|names| - (n - 1)];
      assert Ups(n)[..|Ups(n)| - 1] == Ups(n - 1);
      OneUp(left);
      assert left[..|left| - 1] == names[..|names| - n];
    }
  }

  // ---------------------------------------------------------------------------
  // Relative link targets
  // ---------------------------------------------------------------------------

  function Common(a: Names, b: Names): (n: nat)
    ensures n <= |a| && n <= |b| && a[..n] == b[..n]
  {
    if a == [] || b == [] || a[0] != b[0] then 0
    else
      var n := Common(a[1..], b[1..]);
      assert a[..n + 1] == [a[0]] + a[1..][..n] && b[..n + 1] == [b[0]] + b[1..][..n];
      n + 1
  }

  function RelativeParts(from: Names, to: Names): seq<Component> {
    var common := Common(from, to);
    Ups(|from| - common) + Normals(to[common..])
  }

  function RelativeTarget(from: Text, to: Text): Result<Text> {
    if !from.absolute || !to.absolute then Err
    else
      var f, t := NamesOf(from.parts), NamesOf(to.parts);
      if f.Err? || t.Err? then Err
      else
        var parts := RelativeParts(f.value, t.value);
        Ok(Text(false, if parts == [] then [CurDir] else parts))
  }

  method CommonLength(a: Names, b: Names) returns (n: nat)
    ensures n == Common(a, b)
  {
    n := 0;
    while n < |a| && n < |b| && a[n] == b[n]
      invariant n <= |a| && n <= |b| && Common(a, b) == n + Common(a[n..], b[n..])
    {
      n := n + 1;
    }
  }

  lemma NormalsOneMore(ups: seq<Component>, names: Names, i: nat)
    requires i < |names|
    ensures (ups + Normals(names[..i])) + [Normal(names[i])] == ups + Normals(names[..i + 1])
  {
  }

  method RelativeSymlinkTarget(from: Text, to: Text) returns (r: Result<Text>)
    ensures r == RelativeTarget(from, to)
  {
    if !from.absolute || !to.absolute {
      return Err;
    }
    var f := PathComponentsWithoutRoot(from);
    var t := PathComponentsWithoutRoot(to);
    if f.Err? || t.Err? {
      return Err;
    }
    var common := CommonLength(f.value, t.value);
    var parts: seq<Component> := [];
    var i := common;
    while i < |f.value|
      invariant common <= i <= |f.value| && parts == Ups(i - common)
    {
      parts := parts + [ParentDir];
      i := i + 1;
    }
    var rest := t.value[common..];
    i := 0;
    while i < |rest|
      invariant 0 <= i <= |rest| && parts == Ups(|f.value| - common) + Normals(rest[..i])
    {
      NormalsOneMore(Ups(|f.value| - common), rest, i);
      parts := parts + [Normal(rest[i])];
      i := i + 1;
    }
    assert rest[..i] == rest;
    return Ok(Text(false, if parts == [] then [CurDir] else parts));
  }

  /** Where a link text leads, read from the directory that holds the link. */
  function Leads(parent: Names, text: Text): seq<Component> {
    if text.absolute then Normalize(true, [], text.parts) else Normalize(true, [], Normals(parent) + text.parts)
  }

  predicate PointsInside(parent: Names, text: Text, blobs: Names) {
    Normals(blobs) <= Leads(parent, text)
  }

  lemma UpAndDown(from: Names, n: nat, keep: Names, down: Names, to: Names)
    requires |from| == n + |keep| && from[..|keep|] == keep && to == keep + down
    ensures Normalize(true, Normals(from), Ups(n) + Normals(down)) == Normals(to)
  {
    NormalizeAppend(true, Normals(from), Ups(n), Normals(down));
    NormalizeUps(from, n);
    NormalizeNames(Normals(keep), down);
    NormalsAppend(keep, down);
  }

  lemma Rejoin<T>(a: seq<T>, b: seq<T>, n: nat)
    requires n <= |a| && n <= |b| && a[..n] == b[..n]
    ensures a[..n] + b[n..] == b
  {
    assert b == b[..n] + b[n..];
  }

  /** Up to the common ancestor and down again. */
  lemma RelativePartsLead(f: Names, t: Names)
    ensures Normalize(true, Normals(f), RelativeParts(f, t)) == Normals(t)
  {
    var common := Common(f, t);
    Rejoin(f, t, common);
    UpAndDown(f, |f| - common, f[..common], t[common..], t);
  }

  lemma JoinedLeads(f: Names, parts: seq<Component>)
    ensures Normalize(true, [], Normals(f) + parts) == Normalize(true, Normals(f), parts)
  {
    NormalizeAppend(true, [], Normals(f), parts);
    NormalizeNames([], f);
    assert [] + Normals(f) == Normals(f);
  }

  /** The round trip: the relative text from a directory to a file leads back to that file. */
  lemma RelativeTargetLeadsBack(from: Text, to: Text)
    requires from.absolute && to.absolute && NamesOf(from.parts).Ok? && NamesOf(to.parts).Ok?
    ensures RelativeTarget(from, to).Ok?
    ensures Leads(NamesOf(from.parts).value, RelativeTarget(from, to).value) == Normals(NamesOf(to.parts).value)
  {
    var f, t := NamesOf(from.parts).value, NamesOf(to.parts).value;
    RelativePartsLead(f, t);
    JoinedLeads(f, RelativeParts(f, t));
    JoinedLeads(f, [CurDir]);
    assert [CurDir][..0] == [];
    assert Normalize(true, Normals(f), [CurDir]) == Normals(f);
  }

  lemma NormalizedOnward(at: Names, c: Component)
    ensures NormalizeOne(true, Normals(at), c) == Normals(Onward(at, c))
  {
    if c.ParentDir? && at != [] {
      OneUp(at);
    } else if c.Normal? {
      assert Normals(at) + [c] == Normals(at + [c.name]);
    }
  }

  lemma {:induction false} NormalizedWalk(from: Names, parts: seq<Component>)
    ensures Normalize(true, Normals(from), parts) == Normals(Walk(from, parts))
  {
    if parts != [] {
      var n := |parts| - 1;
      NormalizedWalk(from, parts[..n]);
      NormalizedOnward(Walk(from, parts[..n]), parts[n]);
    }
  }

  /** Joining a link text to its directory and normalising finds where the text leads. */
  lemma LeadsWhereItWalks(parent: Names, text: Text)
    ensures Leads(parent, text) == Normals(Walk(if text.absolute then [] else parent, text.parts))
  {
    if text.absolute {
      NormalizedWalk([], text.parts);
      assert Normals([]) == [];
    } else {
      JoinedLeads(parent, text.parts);
      NormalizedWalk(parent, text.parts);
    }
  }

  /** Walking the relative text from the directory arrives at the file. */
  lemma RelativeTargetArrives(from: Text, to: Text)
    requires from.absolute && to.absolute && NamesOf(from.parts).Ok? && NamesOf(to.parts).Ok?
    ensures RelativeTarget(from, to).Ok? && !RelativeTarget(from, to).value.absolute
    ensures Walk(Walk([], from.parts), RelativeTarget(from, to).value.parts) == Walk([], to.parts)
  {
    var f, t, text := NamesOf(from.parts).value, NamesOf(to.parts).value, RelativeTarget(from, to).value;
    NamesOfMeaning(from.parts);
    NamesOfMeaning(to.parts);
    RelativeTargetLeadsBack(from, to);
    LeadsWhereItWalks(f, text);
    SameNormals(Walk(f, text.parts), t);
  }

  /** A link is recognised as one of the tool's own exactly when it leads into the blob directory
      or to it. */
  lemma PointsInsideIff(parent: Names, text: Text, blobs: Names)
    ensures PointsInside(parent, text, blobs) <==> blobs <= Walk(if text.absolute then [] else parent, text.parts)
  {
    var to := Walk(if text.absolute then [] else parent, text.parts);
    LeadsWhereItWalks(parent, text);
    if |blobs| <= |to| {
      if Normals(blobs) <= Normals(to) {
        forall i | 0 <= i < |blobs| ensures blobs[i] == to[i] {
          assert Normals(blobs)[i] == Normals(to)[i];
        }
      }
    }
  }

  lemma {:induction false} LongestCommon(a: Names, b: Names, k: nat)
    requires k <= |a| && k <= |b| && a[..k] == b[..k]
    ensures k <= Common(a, b)
  {
    if k > 0 {
      assert a[0] == a[..k][0] && b[0] == b[..k][0];
      TailAlike(a, b, k);
      LongestCommon(a[1..], b[1..], k - 1);
    }
  }

  lemma TailAlike<T>(a: seq<T>, b: seq<T>, k: nat)
    requires 0 < k <= |a| && k <= |b| && a[..k] == b[..k]
    ensures a[1..][..k - 1] == b[1..][..k - 1]
  {
    assert a[1..][..k - 1] == a[..k][1..] && b[1..][..k - 1] == b[..k][1..];
  }

  lemma WalkUpAndDown(from: Names, n: nat, rest: Names)
    requires n <= |from|
    ensures Walk(from, Ups(n) + Normals(rest)) == from[..|from| - n] + rest
  {
    var keep := from[..|from| - n];
    UpAndDown(from, n, keep, rest, keep + rest);
    NormalizedWalk(from, Ups(n) + Normals(rest));
    SameNormals(Walk(from, Ups(n) + Normals(rest)), keep + rest);
  }

  /** No shorter way up and down arrives there. */
  lemma RelativeTargetIsShortest(from: Names, to: Names, n: nat, rest: Names)
    requires n <= |from| && Walk(from, Ups(n) + Normals(rest)) == to
    ensures |RelativeParts(from, to)| <= n + |rest|
  {
    WalkUpAndDown(from, n, rest);
    var k := |from| - n;
    CutAt(from[..k], rest, to);
    LongestCommon(from, to, k);
  }

  lemma CutAt<T>(a: seq<T>, b: seq<T>, c: seq<T>)
    requires a + b == c
    ensures |a| <= |c| && c[..|a|] == a
  {
  }

  lemma SameNormals(a: Names, b: Names)
    requires Normals(a) == Normals(b)
    ensures a == b
  {
    forall i | 0 <= i < |a| ensures a[i] == b[i] {
      assert Normals(a)[i] == Normals(b)[i];
    }
  }

  lemma NormalsAppend(a: Names, b: Names)
    ensures Normals(a + b) == Normals(a) + Normals(b)
  {
    assert |Normals(a + b)| == |Normals(a) + Normals(b)|;
  }

  /** So a link into the blob directory is recognised as one. */
  lemma OwnLinkIsRecognised(parent: Names, blobs: Names, below: Names)
    ensures var target := RelativeTarget(AbsoluteText(parent), AbsoluteText(blobs + below));
      target.Ok? && PointsInside(parent, target.value, blobs)
  {
    NamesOfNormals(parent);
    NamesOfNormals(blobs + below);
    RelativeTargetLeadsBack(AbsoluteText(parent), AbsoluteText(blobs + below));
    NormalsAppend(blobs, below);
  }

  // ---------------------------------------------------------------------------
  // Hashes and blob paths
  // ---------------------------------------------------------------------------

  predicate LowerHex(c: char) {
    '0' <= c <= '9' || 'a' <= c <= 'f'
  }

  predicate IsHash(name: string) {
    |name| == 64 && forall i :: 0 <= i < |name| ==> LowerHex(name[i])
  }

  /** Where the store keeps the blob of a hash, below its blob directory. */
  function BlobPath(hash: string): Names
    requires IsHash(hash)
  {
    [hash[..2], hash[2..4], hash]
  }

  // ---------------------------------------------------------------------------
  // Output names
  // ---------------------------------------------------------------------------

  /** The last dot among the first `n` characters. */
  function DotBelow(name: string, n: nat): (i: Option<nat>)
    requires n <= |name|
    ensures i.None? ==> forall k :: 0 <= k < n ==> name[k] != '.'
    ensures i.Some? ==> i.value < n && name[i.value] == '.' && forall k :: i.value < k < n ==> name[k] != '.'
  {
    if n == 0 then None else if name[n - 1] == '.' then Some(n - 1) else DotBelow(name, n - 1)
  }

  /** The position of the last dot. */
  function LastDot(name: string): Option<nat> {
    DotBelow(name, |name|)
  }

  /** Insert `_` and the hash digits before the extension; a name with nothing before its last
      dot has no extension. */
  function SuffixFilename(name: string, digits: string): string {
    var dot := LastDot(name);
    if dot.Some? && dot.value > 0
    then name[..dot.value] + "_" + digits + "." + name[dot.value + 1..]
    else name + "_" + digits
  }

  lemma LastDotIs(name: string, i: nat)
    requires i < |name| && name[i] == '.' && forall k :: i < k < |name| ==> name[k] != '.'
    ensures LastDot(name) == Some(i)
  {
  }

  lemma LastDotIsNone(name: string)
    requires forall k :: 0 <= k < |name| ==> name[k] != '.'
    ensures LastDot(name) == None
  {
  }

  /** Where the suffix goes. */
  function SuffixAt(name: string): (k: nat)
    ensures k <= |name|
  {
    var dot := LastDot(name);
    if dot.Some? && dot.value > 0 then dot.value else |name|
  }

  lemma SuffixShape(name: string, digits: string)
    ensures var k := SuffixAt(name); SuffixFilename(name, digits) == name[..k] + ("_" + digits) + name[k..]
  {
    var k := SuffixAt(name);
    if k < |name| {
      assert name[k..] == "." + name[k + 1..];
    }
  }

  /** The last dot of a suffixed name is that of the name, moved by the suffix if it starts an
      extension. */
  lemma SuffixDot(name: string, digits: string)
    requires '.' !in digits
    ensures var dot := LastDot(name);
      LastDot(SuffixFilename(name, digits)) ==
      if dot.Some? && dot.value > 0 then Some(dot.value + 1 + |digits|) else dot
  {
    var dot := LastDot(name);
    SuffixShape(name, digits);
    if dot.Some? && dot.value > 0 {
      DotMoves(name, dot.value, "_" + digits);
    } else {
      DotStays(name, "_" + digits);
    }
  }

  lemma DotMoves(name: string, k: nat, middle: string)
    requires LastDot(name) == Some(k)
    ensures LastDot(name[..k] + middle + name[k..]) == Some(k + |middle|)
  {
    var out := name[..k] + middle + name[k..];
    assert forall i :: k <= i < |name| ==> out[i + |middle|] == name[i];
    forall i | k + |middle| < i < |out| ensures out[i] != '.' {
      assert out[i] == name[i - |middle|];
    }
    LastDotIs(out, k + |middle|);
  }

  lemma DotStays(name: string, end: string)
    requires '.' !in end
    ensures LastDot(name[..|name|] + end + name[|name|..]) == LastDot(name)
  {
    var out, dot := name[..|name|] + end + name[|name|..], LastDot(name);
    forall i | 0 <= i < |out| ensures out[i] == if i < |name| then name[i] else end[i - |name|] {
    }
    if dot.Some? {
      LastDotIs(out, dot.value);
    } else {
      LastDotIsNone(out);
    }
  }

  lemma CutAlike(a: string, b: string, k: nat, m: string, n: string)
    requires k <= |a| && k <= |b| && |m| == |n| && a[..k] + m + a[k..] == b[..k] + n + b[k..]
    ensures a == b && m == n
  {
    var x, y := a[..k] + m + a[k..], b[..k] + n + b[k..];
    assert x[..k] == a[..k] && y[..k] == b[..k];
    assert x[k..k + |m|] == m && y[k..k + |m|] == n;
    assert x[k + |m|..] == a[k..] && y[k + |m|..] == b[k..];
    assert a == a[..k] + a[k..] && b == b[..k] + b[k..];
  }

  /** Suffixed names coincide only for equal names and equal digits. */
  lemma SuffixIsInjective(a: string, b: string, p: string, q: string)
    requires |p| == |q| && '.' !in p && '.' !in q && SuffixFilename(a, p) == SuffixFilename(b, q)
    ensures a == b && p == q
  {
    SuffixDot(a, p);
    SuffixDot(b, q);
    SuffixShape(a, p);
    SuffixShape(b, q);
    assert |SuffixFilename(a, p)| == |a| + 1 + |p|;
    CutAlike(a, b, SuffixAt(a), "_" + p, "_" + q);
    assert ("_" + p)[1..] == p && ("_" + q)[1..] == q;
  }

  /** A relative path with the hash digits in its last name. */
  function OutputRelativePath(relative: Names, digits: string): Names
    requires relative != []
  {
    relative[..|relative| - 1] + [SuffixFilename(relative[|relative| - 1], digits)]
  }

  /** The extension of a name starts at `k`: at its last dot, unless the name has none or starts
      with it, and then at its end. */
  predicate ExtensionAt(name: string, k: nat) {
    if k < |name| then 0 < k && name[k] == '.' && forall i :: k < i < |name| ==> name[i] != '.'
    else k == |name| && forall i :: 0 < i < |name| ==> name[i] != '.'
  }

  /** `out` is `name` with `_` and the digits inserted before its extension. */
  predicate Suffixed(name: string, digits: string, out: string) {
    exists k :: 0 <= k <= |name| && ExtensionAt(name, k) && out == name[..k] + ("_" + digits) + name[k..]
  }

  /** An output lies in the directory of its relative path, as deep, under the file's name with
      the digits inserted before the extension. */
  lemma OutputPlace(relative: Names, digits: string)
    requires relative != []
    ensures var out, n := OutputRelativePath(relative, digits), |relative|;
      && |out| == n && out[..n - 1] == relative[..n - 1]
      && Suffixed(relative[n - 1], digits, out[n - 1])
  {
    var name := relative[|relative| - 1];
    SuffixShape(name, digits);
    assert ExtensionAt(name, SuffixAt(name));
  }

  /** Outputs collide only for equal relative paths with equal hash digits. */
  lemma OutputsCollideOnlyIf(a: Names, b: Names, p: string, q: string)
    requires a != [] && b != [] && |p| == |q| && '.' !in p && '.' !in q
    ensures OutputRelativePath(a, p) == OutputRelativePath(b, q) <==> a == b && p == q
  {
    var x, y := OutputRelativePath(a, p), OutputRelativePath(b, q);
    if x == y {
      assert |a| == |b| && x[|x| - 1] == y[|y| - 1];
      SuffixIsInjective(a[|a| - 1], b[|b| - 1], p, q);
      assert a == a[..|a| - 1] + [a[|a| - 1]] && b == b[..|b| - 1] + [b[|b| - 1]];
      assert x[..|a| - 1] == a[..|a| - 1] && y[..|b| - 1] == b[..|b| - 1];
    }
  }
}
