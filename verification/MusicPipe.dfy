/**
 The linked list of chunks (src/MusicPipe.cxx) and the pool they come from
 (src/MusicBuffer.cxx).

 The tail pointer of the list points either at `head` or at the `next` field of the last
 chunk; here `tail` is that chunk, or null for `head`.
 */
module MusicPipe {
  import opened Chunks

  /** The chunks and everything attached to them. */
  ghost function Cells(cs: seq<MusicChunk>): set<MusicChunk>
    reads cs`other
  {
    (set c | c in cs) + (set c | c in cs && c.other != null :: c.other)
  }

  /** No chunk is attached to two others or in the list itself, and none has two levels. */
  ghost predicate Separate(cs: seq<MusicChunk>)
    reads cs`other, Cells(cs)`other
  {
    && (forall i, j :: 0 <= i < j < |cs| ==> cs[i] != cs[j])
    && (forall c :: c in cs && c.other != null ==> c.other !in cs && c.other.other == null)
    && (forall i, j :: 0 <= i < j < |cs| && cs[i].other != null ==> cs[i].other != cs[j].other)
  }

  // ---------------------------------------------------------------------------------------
  // The pool

  class MusicBuffer {
    const capacity: nat
    var inUse: set<MusicChunk>

    constructor (capacity: nat)
      ensures this.capacity == capacity && inUse == {}
    {
      this.capacity := capacity;
      inUse := {};
    }

    /** A chunk nobody else has, unless all are in use. */
    method Allocate() returns (chunk: MusicChunk?)
      modifies this`inUse
      ensures chunk == null <==> |old(inUse)| >= capacity
      ensures chunk == null ==> inUse == old(inUse)
      ensures chunk != null ==> fresh(chunk) && chunk.other == null && inUse == old(inUse) + {chunk}
    {
      if |inUse| >= capacity {
        return null;
      }
      chunk := new MusicChunk();
      inUse := inUse + {chunk};
    }

    /** Gives back a chunk and the one attached to it. */
    method Return(chunk: MusicChunk)
      requires Cells([chunk]) <= inUse
      requires chunk.other != null ==> chunk.other.other == null && chunk.other != chunk
      modifies this`inUse
      ensures inUse == old(inUse) - Cells([chunk])
    {
      if chunk.other != null {
        inUse := inUse - {chunk.other};
      }
      inUse := inUse - {chunk};
      assert Cells([chunk]) == {chunk} + (if chunk.other != null then {chunk.other} else {});
    }
  }

  // ---------------------------------------------------------------------------------------
  // The list

  /** `next` links the chunks in order, and the last one to nothing. */
  ghost predicate Linked(cs: seq<MusicChunk>)
    reads cs`next
  {
    forall i :: 0 <= i < |cs| ==> cs[i].next == At(cs, i + 1)
  }

  ghost function At(cs: seq<MusicChunk>, i: nat): MusicChunk? {
    if i < |cs| then cs[i] else null
  }

  class MusicPipe {
    var head: MusicChunk?
    var tail: MusicChunk?
    var size: nat
    ghost var chunks: seq<MusicChunk>

    ghost predicate Valid()
      reads this, chunks`next
    {
      && size == |chunks| && Linked(chunks)
      && (forall i, j :: 0 <= i < j < |chunks| ==> chunks[i] != chunks[j])
      && head == (if chunks == [] then null else chunks[0])
      && tail == (if chunks == [] then null else chunks[|chunks| - 1])
    }

    constructor ()
      ensures Valid() && chunks == []
    {
      head, tail, size, chunks := null, null, 0, [];
    }

    method Contains(chunk: MusicChunk) returns (found: bool)
      requires Valid()
      ensures found == (chunk in chunks)
    {
      var i := head;
      ghost var k := 0;
      while i != null
        invariant 0 <= k <= |chunks| && i == (if k < |chunks| then chunks[k] else null)
        invariant chunk !in chunks[..k]
        decreases |chunks| - k
      {
        if i == chunk {
          return true;
        }
        i := i.next;
        k := k + 1;
      }
      found := false;
    }

    /** Appends a chunk that is not in the list. */
    method Push(chunk: MusicChunk)
      requires Valid() && chunk !in chunks
      modifies this, chunk`next, chunks`next
      ensures Valid() && chunks == old(chunks) + [chunk]
    {
      chunk.next := null;
      if tail == null {
        head := chunk;
      } else {
        tail.next := chunk;
      }
      tail := chunk;
      size := size + 1;
      chunks := chunks + [chunk];
    }

    /** Removes the first chunk; the two assertions about the tail pointer hold. */
    method Shift() returns (chunk: MusicChunk?)
      requires Valid()
      modifies this, chunks`next
      ensures Valid()
      ensures chunk == null <==> old(chunks) == []
      ensures chunk == null ==> chunks == []
      ensures chunk != null ==> [chunk] + chunks == old(chunks)
    {
      chunk := head;
      if chunk != null {
        assert chunks[0].next == At(chunks, 1);
        head := chunk.next;
        size := size - 1;
        if head == null {
          assert size == 0 && tail == chunk;
          tail := null;
        } else {
          assert size > 0 && tail != chunk;
        }
        chunk.next := null;
        ghost var before := chunks;
        chunks := chunks[1..];
        assert forall i :: 0 <= i < |chunks| ==> chunks[i] == before[i + 1];
      }
    }

    /** Gives the first chunk back. */
    method ReturnFirst(buffer: MusicBuffer)
      requires Valid() && chunks != [] && Separate(chunks) && Cells(chunks) <= buffer.inUse
      modifies this, chunks`next, buffer`inUse
      ensures Valid() && chunks == old(chunks)[1..] && Separate(chunks)
      ensures Cells(chunks) <= buffer.inUse && Cells(chunks) <= old(Cells(chunks))
      ensures buffer.inUse == old(buffer.inUse) - (old(Cells(chunks)) - Cells(chunks))
    {
      hide Cells, Linked;
      SplitCells(chunks);
      var chunk := Shift();
      buffer.Return(chunk);
    }

    /** Empties the list; the pool gets back exactly its chunks and those attached to them. */
    method Clear(buffer: MusicBuffer)
      requires Valid() && Separate(chunks) && Cells(chunks) <= buffer.inUse
      modifies this, chunks`next, buffer`inUse
      ensures Valid() && chunks == []
      ensures buffer.inUse == old(buffer.inUse) - old(Cells(chunks))
    {
      hide Linked, Separate, Cells;
      ghost var all, cs, before, k := Cells(chunks), chunks, buffer.inUse, 0;
      while size > 0
        invariant Valid() && k <= |cs| && chunks == cs[k..]
        invariant Separate(chunks) && Cells(chunks) <= all && Cells(chunks) <= buffer.inUse
        invariant buffer.inUse == before - (all - Cells(chunks))
        decreases size
      {
        assert forall c :: c in chunks ==> c in cs;
        ghost var cells := Cells(chunks);
        ReturnFirst(buffer);
        k := k + 1;
        Remaining(before, all, cells, Cells(chunks));
      }
      NoCells(chunks);
    }
  }

  lemma Remaining<T>(inUse: set<T>, all: set<T>, cells: set<T>, rest: set<T>)
    requires rest <= cells <= all
    ensures inUse - (all - cells) - (cells - rest) == inUse - (all - rest)
  {
  }

  lemma NoCells(cs: seq<MusicChunk>)
    requires cs == []
    ensures Cells(cs) == {}
  {
  }

  /** The cells of the first chunk and of the others do not overlap. */
  lemma SplitCells(cs: seq<MusicChunk>)
    requires cs != [] && Separate(cs)
    ensures Cells(cs) == Cells([cs[0]]) + Cells(cs[1..]) && Cells([cs[0]]) !! Cells(cs[1..])
    ensures Separate(cs[1..])
  {
  }
}
