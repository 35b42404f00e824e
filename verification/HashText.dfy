/** Hash texts as numbers, and the directory walk as the collector sees it. */
module HashText {
  import opened Domain
  import opened Paths
  import C = CasInspect
  import P = GcPlan
  import A = Audit

  predicate LowerHexText(s: string) {
    forall i :: 0 <= i < |s| ==> LowerHex(s[i])
  }

  function Digit(c: char): (d: nat)
    requires LowerHex(c)
    ensures d < 16
  {
    if c <= '9' then c as nat - '0' as nat else c as nat - 'a' as nat + 10
  }

  lemma DigitOrder(c: char, d: char)
    requires LowerHex(c) && LowerHex(d)
    ensures Digit(c) < Digit(d) <==> c < d
    ensures Digit(c) == Digit(d) <==> c == d
  {
  }

  /** The number that a hexadecimal text spells. */
  function Value(s: string): nat
    requires LowerHexText(s)
  {
    if s == [] then 0 else 16 * Value(s[..|s| - 1]) + Digit(s[|s| - 1])
  }

  /** Text order: the first difference decides. */
  predicate TextLess(a: string, b: string)
    requires |a| == |b|
  {
    exists i :: 0 <= i < |a| && a[..i] == b[..i] && a[i] < b[i]
  }

  lemma SixteenFold(a: nat, b: nat, d: nat, e: nat)
    requires d < 16 && e < 16
    ensures 16 * a + d < 16 * b + e <==> a < b || (a == b && d < e)
    ensures 16 * a + d == 16 * b + e <==> a == b && d == e
  {
  }

  lemma {:induction false} SameValueSameText(a: string, b: string)
    requires |a| == |b| && LowerHexText(a) && LowerHexText(b)
    ensures Value(a) == Value(b) <==> a == b
  {
    if a != [] {
      var n := |a| - 1;
      SameValueSameText(a[..n], b[..n]);
      SixteenFold(Value(a[..n]), Value(b[..n]), Digit(a[n]), Digit(b[n]));
      DigitOrder(a[n], b[n]);
      assert a == a[..n] + [a[n]] && b == b[..n] + [b[n]];
    }
  }

  /** The last character is compared only when everything before it agrees. */
  lemma TextLessByLast(a: string, b: string)
    requires |a| == |b| > 0
    ensures var n := |a| - 1;
      TextLess(a, b) <==> TextLess(a[..n], b[..n]) || (a[..n] == b[..n] && a[n] < b[n])
  {
    var n := |a| - 1;
    var x, y := a[..n], b[..n];
    if TextLess(a, b) {
      var i :| 0 <= i < |a| && a[..i] == b[..i] && a[i] < b[i];
      if i < n {
        assert x[..i] == a[..i] && y[..i] == b[..i] && x[i] < y[i];
      }
    }
    if TextLess(x, y) {
      var i :| 0 <= i < |x| && x[..i] == y[..i] && x[i] < y[i];
      assert a[..i] == x[..i] && b[..i] == y[..i];
    }
  }

  /** Texts of one width order exactly as the numbers they spell, so components that only compare
      hashes may compare numbers. */
  lemma {:induction false} TextOrderIsNumberOrder(a: string, b: string)
    requires |a| == |b| && LowerHexText(a) && LowerHexText(b)
    ensures TextLess(a, b) <==> Value(a) < Value(b)
  {
    if a != [] {
      var n := |a| - 1;
      TextOrderIsNumberOrder(a[..n], b[..n]);
      SameValueSameText(a[..n], b[..n]);
      TextLessByLast(a, b);
      SixteenFold(Value(a[..n]), Value(b[..n]), Digit(a[n]), Digit(b[n]));
      DigitOrder(a[n], b[n]);
    }
  }

  // ---------------------------------------------------------------------------
  // The walk as the collector sees it
  // ---------------------------------------------------------------------------

  function Joined(components: seq<string>): string {
    if components == [] then "" else Joined(components[..|components| - 1]) + "/" + components[|components| - 1]
  }

  function FindingOf(f: C.Finding): P.Finding {
    match f
    case InvalidCasEntry(place, _) => P.AtPlace(P.InvalidCasEntry, Joined(place))
    case CasIoError(place) => P.AtPlace(P.CasIoError, Joined(place))
  }

  function NumberOf(hash: string): Hash {
    if LowerHexText(hash) then Value(hash) else 0
  }

  function InspectionOf(r: C.Inspected): P.Inspection {
    P.Inspection(set h | h in r.valid :: NumberOf(h), set f | f in r.findings :: FindingOf(f), r.complete)
  }

  /** `files` are the regular files at blob paths under real directories. */
  ghost predicate OnDisk(blobs: C.Directory, files: Cas) {
    && (forall h :: IsHash(h) && C.FileAt(blobs, BlobPath(h)) ==> NumberOf(h) in files)
    && (forall n :: n in files ==> exists h :: IsHash(h) && C.FileAt(blobs, BlobPath(h)) && NumberOf(h) == n)
  }

  /** What the collector and the audit assume of the walk holds: it lists only files that are
      there, all of them if it is complete, and reports that it is not. It finds nothing if and
      only if everything in the store is in place. */
  lemma WalkIsTruthful(blobs: C.Directory, files: Cas)
    requires OnDisk(blobs, files)
    ensures var cas := InspectionOf(C.InspectDirectory([], blobs, true));
      && (forall n :: n in cas.valid ==> n in files)
      && (cas.complete ==> forall n :: n in files ==> n in cas.valid)
      && P.WalkReported(cas)
      && (cas.findings == {} <==> C.LaidOut(blobs))
  {
    var r := C.InspectDirectory([], blobs, true);
    var cas := InspectionOf(r);
    C.QuietIffLaidOut(blobs);
    forall f | f in r.findings ensures FindingOf(f) in cas.findings {
    }
    forall n | n in cas.valid ensures n in files {
      var h :| h in r.valid && NumberOf(h) == n;
      C.InspectionIsExact(blobs, h);
    }
    if cas.complete {
      forall n | n in files ensures n in cas.valid {
        var h :| IsHash(h) && C.FileAt(blobs, BlobPath(h)) && NumberOf(h) == n;
        C.InspectionIsExact(blobs, h);
      }
    } else {
      C.InspectionIsExact(blobs, "");
      var f :| f in r.findings;
      assert FindingOf(f) in cas.findings;
    }
  }

  /** So neither a quiet preflight nor a clean audit overlooks a malformed store. */
  lemma QuietMeansLaidOut(blobs: C.Directory, rows: seq<P.CatalogBlob>, sweeps: seq<P.CatalogBlob>,
                          catalog: set<P.Finding>, io: P.Io)
    ensures var cas := InspectionOf(C.InspectDirectory([], blobs, true));
      P.PreflightFindings(rows, sweeps, catalog, cas, io) == {} || A.AuditFindings(rows, catalog, cas, io) == {} ==>
      C.LaidOut(blobs)
  {
    var r := C.InspectDirectory([], blobs, true);
    C.QuietIffLaidOut(blobs);
    forall f | f in r.findings ensures FindingOf(f) in InspectionOf(r).findings {
    }
  }
}
