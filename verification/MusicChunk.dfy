/**
 A chunk of music (src/MusicChunk.cxx): a fixed buffer that is filled with whole frames, an
 optional tag, the link to the next chunk of a pipe and a chunk to be mixed in.
 */
module Chunks {
  import opened Common

  type Byte = x: int | 0 <= x < 256

  /** Tags are opaque; merging keeps both. */
  datatype Tag = Tag(id: nat) | Merged(base: Tag, add: Tag)

  // ---------------------------------------------------------------------------------------
  // Alignment

  const CHUNK_SIZE: nat := 4096

  /** How many bytes of whole frames still fit. */
  function Room(length: nat, frame: nat): (r: nat)
    requires frame > 0 && length <= CHUNK_SIZE
    ensures r % frame == 0 && length + r <= CHUNK_SIZE < length + r + frame
  {
    var n := (CHUNK_SIZE - length) / frame;
    MultipleIsAligned(n, frame);
    n * frame
  }

  lemma MultipleIsAligned(n: nat, f: nat)
    requires f > 0
    ensures (n * f) % f == 0 && n * f >= 0
  {
    AlignedMeansMultiple(n * f, n, f);
  }

  lemma AlignedMeansMultiple(a: int, q: int, f: nat)
    requires f > 0 && a == q * f
    ensures a % f == 0
  {
    var q', r := a / f, a % f;
    assert a == f * q' + r;
    assert (q - q') * f == r;
    if q - q' >= 1 {
      ProductIsMonotone(1, q - q', f);
    } else if q - q' <= -1 {
      ProductIsMonotone(q - q', -1, f);
    }
  }

  lemma ProductIsMonotone(a: int, b: int, f: nat)
    requires a <= b
    ensures a * f <= b * f
  {
  }

  lemma AlignedSum(a: nat, b: nat, f: nat)
    requires f > 0 && a % f == 0 && b % f == 0
    ensures (a + b) % f == 0
  {
    assert (a / f + b / f) * f == a + b;
    AlignedMeansMultiple(a + b, a / f + b / f, f);
  }

  lemma AlignedDifference(a: nat, b: nat, f: nat)
    requires f > 0 && a % f == 0 && b % f == 0
    ensures (a - b) % f == 0
  {
    assert (a / f - b / f) * f == a - b;
    AlignedMeansMultiple(a - b, a / f - b / f, f);
  }

  /** A chunk has room unless it is full; an empty one has room exactly if a frame fits. */
  lemma RoomExactly(length: nat, frame: nat)
    requires frame > 0 && length <= CHUNK_SIZE
    ensures Room(length, frame) > 0 <==> length + frame <= CHUNK_SIZE
  {
    var n := (CHUNK_SIZE - length) / frame;
    if n >= 1 { assert n * frame >= frame; }
  }

  // ---------------------------------------------------------------------------------------
  // Chunks

  class MusicChunk {
    const data: array<Byte>
    var length: nat
    var tag: Option<Tag>
    var next: MusicChunk?
    var other: MusicChunk?

    ghost predicate Valid()
      reads this
    {
      data.Length == CHUNK_SIZE && length <= CHUNK_SIZE
    }

    constructor ()
      ensures Valid() && length == 0 && tag == None && fresh(data) && next == null && other == null
    {
      data := new Byte[CHUNK_SIZE];
      length, tag, next, other := 0, None, null, null;
    }

    predicate IsEmpty()
      reads this
    {
      length == 0 && tag == None
    }

    /** The size of the writable part. */
    method Write(frame: nat) returns (room: nat)
      requires Valid() && frame > 0
      ensures room == Room(length, frame)
    {
      room := (CHUNK_SIZE - length) / frame * frame;
    }

    /** Copies into the writable part. */
    method Copy(src: seq<Byte>)
      requires Valid() && length + |src| <= CHUNK_SIZE
      modifies data
      ensures data[..length] == old(data[..length]) && data[length..length + |src|] == src
    {
      var i := 0;
      while i < |src|
        invariant 0 <= i <= |src|
        invariant data[..length] == old(data[..length])
        invariant data[length..length + i] == src[..i]
      {
        data[length + i] := src[i];
        i := i + 1;
      }
    }

    /** Write, copy and expand. */
    method Append(frame: nat, src: seq<Byte>) returns (full: bool)
      requires Valid() && length + |src| <= CHUNK_SIZE
      modifies this`length, data
      ensures Valid() && length == old(length) + |src| && full == (length + frame > CHUNK_SIZE)
      ensures data[..length] == old(data[..length]) + src
    {
      Copy(src);
      assert data[..length + |src|] == data[..length] + data[length..length + |src|];
      full := Expand(frame, |src|);
    }

    method Expand(frame: nat, n: nat) returns (full: bool)
      requires Valid() && length + n <= CHUNK_SIZE
      modifies this`length
      ensures Valid() && length == old(length) + n
      ensures full == (length + frame > CHUNK_SIZE)
    {
      length := length + n;
      full := length + frame > CHUNK_SIZE;
    }
  }
}
