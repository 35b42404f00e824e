/** Values shared by every component of the importer. */
module Domain {

  datatype Option<+T> = None | Some(value: T)

  datatype Result<+T> = Ok(value: T) | Err

  /** A blob hash is written as 64 lower-case hexadecimal digits. Fixed-width
      hexadecimal text orders exactly as the number it spells, so the components
      that only compare hashes use the number. */
  type Hash = nat

  /** The content of one file: its length and the digest of its bytes. */
  datatype File = File(size: nat, digest: Hash)

  /** The regular files of the content-addressed store, by the hash in their name. */
  type Cas = map<Hash, File>

  /** SQLite stores sizes as signed 64-bit integers. */
  const SQLITE_MAX: nat := 0x7fff_ffff_ffff_ffff

  /** Completed reads that the channel to the import coordinator holds. */
  const COMPLETIONS_CAPACITY: nat := 8

  predicate IsLeast(s: set<nat>, n: nat) {
    n in s && forall x :: x in s ==> n <= x
  }

  function Least(s: set<nat>): (n: nat)
    requires s != {}
    ensures IsLeast(s, n)
  {
    LeastExists(s);
    var n :| IsLeast(s, n);
    n
  }

  lemma {:induction false} LeastExists(s: set<nat>)
    requires s != {}
    ensures exists n :: IsLeast(s, n)
    decreases |s|
  {
    var n :| n in s;
    if x :| x in s && x < n {
      assert x in s - {n};
      LeastExists(s - {n});
      var m :| IsLeast(s - {n}, m);
      assert m <= x;
      forall y | y in s ensures m <= y {
        assert y == n || y in s - {n};
      }
      assert IsLeast(s, m);
    } else {
      assert IsLeast(s, n);
    }
  }

  predicate Distinct<T(==)>(xs: seq<T>) {
    forall i, j :: 0 <= i < j < |xs| ==> xs[i] != xs[j]
  }
}
