/** The browse tree on disk, the links a catalog asks for, and what planning decides. */
module BrowseTree {
  import opened Domain
  import opened Paths

  /** A path below the browse-tree root; the root itself is `[]`. */
  type Path = Names

  datatype Node = Dir | Regular(content: nat) | Link(text: Text)

  type Tree = map<Path, Node>

  /** The browse-tree root and the blob directory, as absolute names. */
  datatype Place = Place(root: Names, blobs: Names)

  /** A live catalog entry: its path, its blob's hash text, and whether the store holds the blob
      as a regular file of the recorded size. */
  datatype Entry = Entry(relative: Names, hash: string, present: bool)

  function Parent(p: Path): Path
    requires p != []
  {
    p[..|p| - 1]
  }

  /** What a file system guarantees: everything but the root lies in a directory. */
  ghost predicate WellFormed(t: Tree) {
    && ([] in t ==> t[[]].Dir?)
    && (forall p :: p in t && p != [] ==> Parent(p) in t && t[Parent(p)].Dir?)
  }

  /** A link text that leads into the blob directory is the tool's own. */
  predicate OwnText(at: Place, p: Path, text: Text)
    requires p != []
  {
    PointsInside(at.root + Parent(p), text, at.blobs)
  }

  predicate Owned(at: Place, t: Tree, p: Path) {
    p != [] && p in t && t[p].Link? && OwnText(at, p, t[p].text)
  }

  /** Files and links of the user. */
  predicate Foreign(at: Place, t: Tree, p: Path) {
    p in t && !t[p].Dir? && !Owned(at, t, p)
  }

  /** Every user entry is where it was and as it was, and there are no others. */
  ghost predicate SameForeign(at: Place, t: Tree, u: Tree) {
    && (forall p :: Foreign(at, t, p) ==> p in u && u[p] == t[p])
    && (forall p :: Foreign(at, u, p) ==> p in t && t[p] == u[p])
  }

  // ---------------------------------------------------------------------------
  // Desired links
  // ---------------------------------------------------------------------------

  predicate GoodEntry(e: Entry, digits: nat) {
    e.relative != [] && IsHash(e.hash) && digits <= 64
  }

  function Output(e: Entry, digits: nat): Path
    requires GoodEntry(e, digits)
  {
    OutputRelativePath(e.relative, e.hash[..digits])
  }

  function LinkText(at: Place, e: Entry, digits: nat): Text
    requires GoodEntry(e, digits)
  {
    var r := RelativeTarget(AbsoluteText(at.root + Parent(Output(e, digits))), AbsoluteText(at.blobs + BlobPath(e.hash)));
    if r.Ok? then r.value else Text(false, [])
  }

  /** One entry's output and link text, and whether its blob is present. */
  datatype Wanted<K, V> = Wanted(output: K, text: V, present: bool)

  function WantedOf(at: Place, e: Entry, digits: nat): Wanted<Path, Text>
    requires GoodEntry(e, digits)
  {
    Wanted(Output(e, digits), LinkText(at, e, digits), e.present)
  }

  function AllWanted(at: Place, entries: seq<Entry>, digits: nat): (ws: seq<Wanted<Path, Text>>)
    requires GoodEntries(entries, digits)
    ensures |ws| == |entries| && forall i :: 0 <= i < |entries| ==> ws[i] == WantedOf(at, entries[i], digits)
  {
    seq(|entries|, i requires 0 <= i < |entries| => WantedOf(at, entries[i], digits))
  }

  predicate GoodEntries(entries: seq<Entry>, digits: nat) {
    forall i :: 0 <= i < |entries| ==> GoodEntry(entries[i], digits)
  }

  /** The first `k` wanted links, unless a blob is missing or two outputs coincide. */
  function Collect<K, V>(ws: seq<Wanted<K, V>>, k: nat): Result<map<K, V>>
    requires k <= |ws|
  {
    if k == 0 then Ok(map[])
    else
      var before, w := Collect(ws, k - 1), ws[k - 1];
      if before.Err? || !w.present || w.output in before.value then Err
      else Ok(before.value[w.output := w.text])
  }

  /** The links that the catalog entries ask for. */
  function DesiredOf(at: Place, entries: seq<Entry>, digits: nat): Result<map<Path, Text>>
    requires GoodEntries(entries, digits)
  {
    Collect(AllWanted(at, entries, digits), |entries|)
  }

  lemma {:induction false} CollectErrStays<K, V>(ws: seq<Wanted<K, V>>, k: nat, n: nat)
    requires k <= n <= |ws| && Collect(ws, k).Err?
    ensures Collect(ws, n).Err?
  {
    if k < n {
      CollectErrStays(ws, k, n - 1);
    }
  }

  /** Collecting succeeds exactly when all blobs are present and all outputs are distinct, and
      then keeps every output with its text and nothing else. */
  lemma {:induction false} CollectMeaning<K, V>(ws: seq<Wanted<K, V>>, k: nat)
    requires k <= |ws|
    ensures Collect(ws, k).Ok? <==>
      (forall i :: 0 <= i < k ==> ws[i].present) && (forall i, j :: 0 <= i < j < k ==> ws[i].output != ws[j].output)
    ensures Collect(ws, k).Ok? ==> forall i :: 0 <= i < k ==>
      ws[i].output in Collect(ws, k).value && Collect(ws, k).value[ws[i].output] == ws[i].text
    ensures Collect(ws, k).Ok? ==> forall p :: p in Collect(ws, k).value ==> exists i :: 0 <= i < k && ws[i].output == p
  {
    if k > 0 {
      CollectMeaning(ws, k - 1);
      if Collect(ws, k - 1).Ok? && ws[k - 1].output in Collect(ws, k - 1).value {
        var i :| 0 <= i < k - 1 && ws[i].output == ws[k - 1].output;
      }
    }
  }

  lemma LinkTextIsOwn(at: Place, e: Entry, digits: nat)
    requires GoodEntry(e, digits)
    ensures OwnText(at, Output(e, digits), LinkText(at, e, digits))
  {
    OwnLinkIsRecognised(at.root + Parent(Output(e, digits)), at.blobs, BlobPath(e.hash));
  }

  /** Desired links sit below the root and are recognised as the tool's own. */
  ghost predicate Desirable(at: Place, desired: map<Path, Text>) {
    forall p :: p in desired ==> p != [] && OwnText(at, p, desired[p])
  }

  lemma DesiredIsDesirable(at: Place, entries: seq<Entry>, digits: nat)
    requires GoodEntries(entries, digits) && DesiredOf(at, entries, digits).Ok?
    ensures Desirable(at, DesiredOf(at, entries, digits).value)
  {
    var ws, desired := AllWanted(at, entries, digits), DesiredOf(at, entries, digits).value;
    CollectMeaning(ws, |entries|);
    forall p | p in desired ensures p != [] && OwnText(at, p, desired[p]) {
      var i :| 0 <= i < |entries| && ws[i].output == p;
      LinkTextIsOwn(at, entries[i], digits);
    }
  }

  predicate Collide(a: Entry, b: Entry, digits: nat)
    requires GoodEntry(a, digits) && GoodEntry(b, digits)
  {
    a.relative == b.relative && a.hash[..digits] == b.hash[..digits]
  }

  lemma SameOutputIff(a: Entry, b: Entry, digits: nat)
    requires GoodEntry(a, digits) && GoodEntry(b, digits)
    ensures Output(a, digits) == Output(b, digits) <==> Collide(a, b, digits)
  {
    OutputsCollideOnlyIf(a.relative, b.relative, a.hash[..digits], b.hash[..digits]);
  }

  /** The entries ask for a set of links exactly when every blob is present and no two entries
      share both the relative path and the hash digits. */
  lemma DesiredExistsIff(at: Place, entries: seq<Entry>, digits: nat)
    requires GoodEntries(entries, digits)
    ensures DesiredOf(at, entries, digits).Ok? <==>
      && (forall i :: 0 <= i < |entries| ==> entries[i].present)
      && (forall i, j :: 0 <= i < j < |entries| ==> !Collide(entries[i], entries[j], digits))
  {
    var ws := AllWanted(at, entries, digits);
    CollectMeaning(ws, |entries|);
    forall i | 0 <= i < |entries| ensures ws[i].present == entries[i].present {
    }
    forall i, j | 0 <= i < j < |entries|
      ensures ws[i].output == ws[j].output <==> Collide(entries[i], entries[j], digits)
    {
      SameOutputIff(entries[i], entries[j], digits);
    }
  }

  /** Where the link of an entry belongs: in the directory of its path, under its file name with
      the hash digits before the extension. */
  predicate BelongsAt(e: Entry, digits: nat, p: Path) {
    && GoodEntry(e, digits) && |p| == |e.relative| && Parent(p) == Parent(e.relative)
    && Suffixed(e.relative[|e.relative| - 1], e.hash[..digits], p[|p| - 1])
  }

  /** A link text that leads, from where it is, to the blob of the entry. */
  predicate LeadsToBlob(at: Place, e: Entry, p: Path, text: Text)
    requires p != [] && IsHash(e.hash)
  {
    Walk(if text.absolute then [] else at.root + Parent(p), text.parts) == at.blobs + BlobPath(e.hash)
  }

  lemma LinkLeads(at: Place, e: Entry, digits: nat)
    requires GoodEntry(e, digits)
    ensures BelongsAt(e, digits, Output(e, digits))
    ensures LeadsToBlob(at, e, Output(e, digits), LinkText(at, e, digits))
  {
    OutputPlace(e.relative, e.hash[..digits]);
    var from, to := at.root + Parent(Output(e, digits)), at.blobs + BlobPath(e.hash);
    NamesOfNormals(from);
    NamesOfNormals(to);
    RelativeTargetArrives(AbsoluteText(from), AbsoluteText(to));
    NamesOfMeaning(Normals(from));
    NamesOfMeaning(Normals(to));
  }

  /** A link at `p` with this text shows the entry: it is at the entry's place and leads to the
      entry's blob. */
  predicate LinkShows(at: Place, e: Entry, digits: nat, p: Path, text: Text) {
    BelongsAt(e, digits, p) && LeadsToBlob(at, e, p, text)
  }

  /** The link shows one of the entries. */
  ghost predicate ShowsSome(at: Place, entries: seq<Entry>, digits: nat, p: Path, text: Text) {
    exists i :: 0 <= i < |entries| && LinkShows(at, entries[i], digits, p, text)
  }

  lemma EntryIsAsked(at: Place, entries: seq<Entry>, digits: nat, i: nat) returns (p: Path)
    requires GoodEntries(entries, digits) && DesiredOf(at, entries, digits).Ok? && i < |entries|
    ensures p in DesiredOf(at, entries, digits).value
    ensures LinkShows(at, entries[i], digits, p, DesiredOf(at, entries, digits).value[p])
  {
    var ws := AllWanted(at, entries, digits);
    CollectMeaning(ws, |entries|);
    LinkLeads(at, entries[i], digits);
    p := ws[i].output;
  }

  /** Every desired link shows one of the entries. */
  lemma DesiredShows(at: Place, entries: seq<Entry>, digits: nat, p: Path)
    requires GoodEntries(entries, digits) && DesiredOf(at, entries, digits).Ok?
    requires p in DesiredOf(at, entries, digits).value
    ensures ShowsSome(at, entries, digits, p, DesiredOf(at, entries, digits).value[p])
  {
    var ws := AllWanted(at, entries, digits);
    CollectMeaning(ws, |entries|);
    var i :| 0 <= i < |entries| && ws[i].output == p;
    LinkLeads(at, entries[i], digits);
    assert LinkShows(at, entries[i], digits, p, ws[i].text);
  }

  // ---------------------------------------------------------------------------
  // Plans
  // ---------------------------------------------------------------------------

  datatype Plan = Plan(
    desired: map<Path, Text>, stale: set<Path>, create: set<Path>,
    created: nat, kept: nat, replaced: nat)

  function StaleOwned(at: Place, t: Tree, desired: map<Path, Text>): set<Path> {
    set p | p in t && Owned(at, t, p) && p !in desired
  }

  function Absent(t: Tree, desired: map<Path, Text>): set<Path> {
    set p | p in desired && p !in t
  }

  function AsDesired(t: Tree, desired: map<Path, Text>): set<Path> {
    set p | p in desired && p in t && t[p] == Link(desired[p])
  }

  /** Nothing but the tool's own links stands where a desired link goes. */
  predicate Unblocked(at: Place, t: Tree, desired: map<Path, Text>) {
    forall p :: p in desired && p in t ==> Owned(at, t, p)
  }

  /** Every existing ancestor of a desired link is a directory. */
  predicate ParentsFree(t: Tree, desired: map<Path, Text>) {
    forall p, k :: p in desired && 0 < k < |p| && p[..k] in t ==> t[p[..k]].Dir?
  }

  /** `d` is a missing directory above `p` and below the root. */
  predicate MissingAbove(t: Tree, p: Path, d: Path) {
    0 < |d| < |p| && p[..|d|] == d && d !in t
  }

  /** The directories to create: missing ancestors, and the root if it is missing. */
  ghost predicate IsMissing(t: Tree, desired: map<Path, Text>, create: set<Path>) {
    forall d :: d in create <==> (d == [] && [] !in t) || (exists p :: p in desired && MissingAbove(t, p, d))
  }

  /** What a successful plan says about the tree it was made from. */
  ghost predicate IsPlan(at: Place, t: Tree, desired: map<Path, Text>, plan: Plan) {
    && plan.desired == desired
    && Unblocked(at, t, desired) && ParentsFree(t, desired)
    && plan.stale == StaleOwned(at, t, desired)
    && IsMissing(t, desired, plan.create)
    && plan.created == |Absent(t, desired)|
    && plan.kept == |AsDesired(t, desired)|
    && plan.created + plan.kept + plan.replaced == |desired|
  }

  /** Exactly the desired links are the tool's own, with the desired texts. */
  ghost predicate Converged(at: Place, t: Tree, desired: map<Path, Text>) {
    && (forall p :: p in desired ==> p in t && t[p] == Link(desired[p]))
    && (forall p :: Owned(at, t, p) ==> p in desired)
  }

  /** The tree shows an entry: a link at the entry's place leads to the entry's blob. */
  ghost predicate Shows(at: Place, t: Tree, e: Entry, digits: nat) {
    exists p :: p in t && t[p].Link? && LinkShows(at, e, digits, p, t[p].text)
  }

  /** A converged tree shows every entry, and each link of the tool's own shows one. */
  lemma ConvergedShows(at: Place, t: Tree, entries: seq<Entry>, digits: nat)
    requires GoodEntries(entries, digits) && DesiredOf(at, entries, digits).Ok?
    requires Converged(at, t, DesiredOf(at, entries, digits).value)
    ensures forall i :: 0 <= i < |entries| ==> Shows(at, t, entries[i], digits)
    ensures forall p :: Owned(at, t, p) ==> ShowsSome(at, entries, digits, p, t[p].text)
  {
    forall i | 0 <= i < |entries| ensures Shows(at, t, entries[i], digits) {
      var p := EntryIsAsked(at, entries, digits, i);
      assert p in t && t[p].Link?;
    }
    forall p | Owned(at, t, p) ensures ShowsSome(at, entries, digits, p, t[p].text) {
      DesiredShows(at, entries, digits, p);
    }
  }

  lemma {:induction false} AncestorsAreDirs(t: Tree, p: Path, k: nat)
    requires WellFormed(t) && p in t && k < |p|
    ensures p[..k] in t && t[p[..k]].Dir?
    decreases |p|
  {
    if k < |p| - 1 {
      AncestorsAreDirs(t, Parent(p), k);
      CutTwice(p, |p| - 1, k);
    }
  }

  lemma CutTwice<T>(s: seq<T>, n: nat, k: nat)
    requires k <= n <= |s|
    ensures s[..n][..k] == s[..k]
  {
  }

  /** A converged tree is planned as entirely unchanged, whatever produced it. */
  lemma ConvergedPlansNothing(at: Place, t: Tree, desired: map<Path, Text>, plan: Plan)
    requires WellFormed(t) && Desirable(at, desired) && Converged(at, t, desired) && [] in t
    requires IsPlan(at, t, desired, plan)
    ensures plan.kept == |desired| && plan.created == plan.replaced == 0 && plan.stale == {} && plan.create == {}
  {
    assert AsDesired(t, desired) == desired.Keys;
    forall p, d | p in desired && 0 < |d| < |p| && p[..|d|] == d ensures d in t {
      AncestorsAreDirs(t, p, |d|);
    }
    assert forall d :: d !in plan.create;
  }

  /** And planning it cannot fail. */
  lemma ConvergedIsPlannable(at: Place, t: Tree, desired: map<Path, Text>)
    requires WellFormed(t) && Desirable(at, desired) && Converged(at, t, desired)
    ensures Unblocked(at, t, desired) && ParentsFree(t, desired)
  {
    forall p, k | p in desired && 0 < k < |p| && p[..k] in t ensures t[p[..k]].Dir? {
      AncestorsAreDirs(t, p, k);
    }
  }
}
