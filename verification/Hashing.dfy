/** Hashing a stream chunk by chunk. */
module Hashing {
  import opened Domain

  type Byte = bv8

  /** The state of an incremental hash function. */
  datatype Hasher<!S> = Hasher(start: S, absorb: (S, Byte) -> S, digest: S -> Hash)

  /** Absorbing bytes one after the other, as an incremental hash function promises for any
      division of the input into updates. */
  function Absorbed<S>(f: Hasher<S>, from: S, bytes: seq<Byte>): S {
    if bytes == [] then from
    else f.absorb(Absorbed(f, from, bytes[..|bytes| - 1]), bytes[|bytes| - 1])
  }

  /** The hash of a whole content. */
  function HashOf<S>(f: Hasher<S>, content: seq<Byte>): Hash {
    f.digest(Absorbed(f, f.start, content))
  }

  lemma {:induction false} AbsorbInTwo<S>(f: Hasher<S>, from: S, a: seq<Byte>, b: seq<Byte>)
    ensures Absorbed(f, from, a + b) == Absorbed(f, Absorbed(f, from, a), b)
  {
    if b == [] {
      assert a + b == a;
    } else {
      assert (a + b)[..|a + b| - 1] == a + b[..|b| - 1];
      AbsorbInTwo(f, from, a, b[..|b| - 1]);
    }
  }

  /** A stream that returns as few bytes at a time as it likes, and none only at its end. */
  class Reader {
    const content: seq<Byte>
    var position: nat

    constructor (c: seq<Byte>)
      ensures content == c && position == 0
    {
      content, position := c, 0;
    }

    ghost predicate Valid()
      reads this
    {
      position <= |content|
    }

    /** Fill the front of `buffer`; returns how many bytes were read. */
    method Read(buffer: array<Byte>) returns (n: nat)
      requires Valid() && buffer.Length > 0
      modifies this, buffer
      ensures Valid() && n <= buffer.Length && position == old(position) + n
      ensures buffer[..n] == content[old(position)..position]
      ensures n == 0 <==> old(position) == |content|
    {
      var left := |content| - position;
      if left == 0 {
        return 0;
      }
      n :| 0 < n <= left && n <= buffer.Length;
      var i := 0;
      while i < n
        invariant 0 <= i <= n && position == old(position)
        invariant buffer[..i] == content[position..position + i]
      {
        buffer[i] := content[position + i];
        i := i + 1;
      }
      position := position + n;
    }
  }

  /** The chunk loop of audit, dry run and collection: for every chunk size and every pattern of
      short reads the result is the hash and the length of the whole content. */
  method HashReader<S>(f: Hasher<S>, reader: Reader, chunkSize: nat) returns (hash: Hash, size: nat)
    requires reader.Valid() && reader.position == 0 && chunkSize > 0
    modifies reader
    ensures hash == HashOf(f, reader.content) && size == |reader.content|
  {
    var buffer := new Byte[chunkSize];
    var state := f.start;
    size := 0;
    while true
      invariant reader.Valid() && size == reader.position
      invariant state == Absorbed(f, f.start, reader.content[..size])
      modifies reader, buffer
      decreases |reader.content| - reader.position
    {
      var n := reader.Read(buffer);
      if n == 0 {
        assert reader.content[..size] == reader.content;
        break;
      }
      state := Update(f, state, buffer[..n]);
      AbsorbInTwo(f, f.start, reader.content[..size], reader.content[size..size + n]);
      assert reader.content[..size] + reader.content[size..size + n] == reader.content[..size + n];
      size := size + n;
    }
    hash := f.digest(state);
  }

  method Update<S>(f: Hasher<S>, from: S, chunk: seq<Byte>) returns (state: S)
    ensures state == Absorbed(f, from, chunk)
  {
    state := from;
    var i := 0;
    while i < |chunk|
      invariant 0 <= i <= |chunk| && state == Absorbed(f, from, chunk[..i])
    {
      assert chunk[..i + 1][..i] == chunk[..i];
      state := f.absorb(state, chunk[i]);
      i := i + 1;
    }
    assert chunk[..i] == chunk;
  }

  /** The copy loop of an import: what is written is what was read, and the digest returned with
      it is the digest of what was written. */
  method HashReaderToWriter<S>(f: Hasher<S>, reader: Reader, chunkSize: nat) returns (written: seq<Byte>, hash: Hash, size: nat)
    requires reader.Valid() && reader.position == 0 && chunkSize > 0
    modifies reader
    ensures written == reader.content && hash == HashOf(f, written) && size == |written|
  {
    var buffer := new Byte[chunkSize];
    var state := f.start;
    written, size := [], 0;
    while true
      invariant reader.Valid() && size == reader.position && written == reader.content[..size]
      invariant state == Absorbed(f, f.start, written)
      modifies reader, buffer
      decreases |reader.content| - reader.position
    {
      var n := reader.Read(buffer);
      if n == 0 {
        assert reader.content[..size] == reader.content;
        break;
      }
      state := Update(f, state, buffer[..n]);
      AbsorbInTwo(f, f.start, written, buffer[..n]);
      written := written + buffer[..n];
      size := size + n;
    }
    hash := f.digest(state);
  }
}
