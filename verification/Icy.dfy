/**
 The ICY metadata demultiplexer of HTTP radio streams: a stream of `icy-metaint` audio bytes
 followed by a length byte and that many times 16 bytes of metadata, over and over.

 Three views of the same thing: the recursive definition over a whole stream (`Audio`,
 `Blocks`), a byte-wise automaton (`Run`), and the source's incremental parser, which works
 in place on whatever pieces the network delivers.
 */
module Icy {
  import opened Common

  newtype byte = x: int | 0 <= x < 256

  // ---------------------------------------------------------------------------------------
  // The whole stream

  /** The audio bytes of a stream with `n` audio bytes between two metadata blocks. */
  function Audio(n: nat, stream: seq<byte>): seq<byte> {
    if n == 0 || |stream| <= n then stream
    else
      var end := n + 1 + stream[n] as nat * 16;
      stream[..n] + if |stream| <= end then [] else Audio(n, stream[end..])
  }

  /** Its complete, non-empty metadata blocks. */
  function Blocks(n: nat, stream: seq<byte>): seq<seq<byte>> {
    if n == 0 || |stream| <= n then []
    else
      var end := n + 1 + stream[n] as nat * 16;
      if |stream| < end then []
      else (if stream[n] == 0 then [] else [stream[n + 1..end]]) + Blocks(n, stream[end..])
  }

  // ---------------------------------------------------------------------------------------
  // The automaton

  /** `metaSize` is 0 outside of a metadata block; `meta` holds what has been read of it. */
  datatype State = State(size: nat, rest: nat, metaSize: nat, meta: seq<byte>)

  datatype Out = Out(state: State, audio: seq<byte>, blocks: seq<seq<byte>>)

  ghost predicate ValidState(s: State) {
    && s.rest <= s.size && |s.meta| <= s.metaSize
    && (s.metaSize > 0 ==> s.size > 0 && s.rest == 0 && |s.meta| < s.metaSize)
  }

  function Start(n: nat): State {
    State(n, n, 0, [])
  }

  function Feed(s: State, b: byte): Out {
    if s.size == 0 then Out(s, [b], [])
    else if s.rest > 0 then Out(s.(rest := s.rest - 1), [b], [])
    else if s.metaSize == 0 then
      if b == 0 then Out(s.(rest := s.size), [], []) else Out(s.(metaSize := b as nat * 16, meta := []), [], [])
    else if |s.meta| + 1 >= s.metaSize then Out(Start(s.size), [], [s.meta + [b]])
    else Out(s.(meta := s.meta + [b]), [], [])
  }

  function Run(s: State, bytes: seq<byte>): Out
    decreases |bytes|
  {
    if bytes == [] then Out(s, [], [])
    else
      var one := Feed(s, bytes[0]);
      var more := Run(one.state, bytes[1..]);
      Out(more.state, one.audio + more.audio, one.blocks + more.blocks)
  }

  function Then(a: Out, b: Out): Out {
    Out(b.state, a.audio + b.audio, a.blocks + b.blocks)
  }

  /** Cutting the input in two changes nothing. */
  lemma {:induction false} RunAppend(s: State, a: seq<byte>, b: seq<byte>)
    ensures Run(s, a + b) == Then(Run(s, a), Run(Run(s, a).state, b))
    decreases |a|
  {
    hide Feed;
    if a == [] {
      assert a + b == b;
      var r := Run(s, b);
      assert [] + r.audio == r.audio && [] + r.blocks == r.blocks;
    } else {
      assert (a + b)[1..] == a[1..] + b;
      var one := Feed(s, a[0]);
      RunAppend(one.state, a[1..], b);
      var x := Run(one.state, a[1..]);
      var y := Run(x.state, b);
      assert one.audio + (x.audio + y.audio) == one.audio + x.audio + y.audio;
      assert one.blocks + (x.blocks + y.blocks) == one.blocks + x.blocks + y.blocks;
    }
  }

  lemma {:induction false} RunStateValid(s: State, bytes: seq<byte>)
    requires ValidState(s)
    ensures ValidState(Run(s, bytes).state) && Run(s, bytes).state.size == s.size
    decreases |bytes|
  {
    if bytes != [] { RunStateValid(Feed(s, bytes[0]).state, bytes[1..]); }
  }

  /** Audio bytes up to the next metadata block pass through. */
  lemma {:induction false} RunAudio(s: State, bytes: seq<byte>)
    requires s.size == 0 || |bytes| <= s.rest
    ensures Run(s, bytes) == Out(if s.size == 0 then s else s.(rest := s.rest - |bytes|), bytes, [])
    decreases |bytes|
  {
    if bytes != [] { RunAudio(Feed(s, bytes[0]).state, bytes[1..]); }
  }

  /** The length byte starts a block, or says that there is none. */
  lemma RunLength(s: State, one: seq<byte>)
    requires |one| == 1 && s.size > 0 && s.rest == 0 && s.metaSize == 0
    ensures var s' := if one[0] == 0 then s.(rest := s.size) else s.(metaSize := one[0] as nat * 16, meta := []);
            Run(s, one) == Out(s', [], [])
  {
    assert Run(Feed(s, one[0]).state, one[1..]) == Out(Feed(s, one[0]).state, [], []);
  }

  /** Metadata bytes are collected; the last one completes the block. */
  lemma {:induction false} RunMeta(s: State, bytes: seq<byte>)
    requires ValidState(s) && s.metaSize > 0 && |s.meta| + |bytes| <= s.metaSize
    ensures Run(s, bytes) ==
            if |s.meta| + |bytes| == s.metaSize then Out(Start(s.size), [], [s.meta + bytes])
            else Out(s.(meta := s.meta + bytes), [], [])
    decreases |bytes|
  {
    if bytes == [] {
      assert s.meta + bytes == s.meta;
    } else {
      assert s.meta + bytes == (s.meta + [bytes[0]]) + bytes[1..];
      if |bytes| == 1 {
        assert bytes == [bytes[0]];
        assert Run(Feed(s, bytes[0]).state, []) == Out(Feed(s, bytes[0]).state, [], []);
      } else {
        RunMeta(Feed(s, bytes[0]).state, bytes[1..]);
      }
    }
  }

  /** One round: audio, length byte, and as much metadata as there is. */
  lemma RunRound(n: nat, audio: seq<byte>, len: byte, meta: seq<byte>)
    requires n > 0 && |audio| == n && |meta| <= len as nat * 16
    ensures var r := Run(Start(n), audio + [len] + meta);
            && r.audio == audio
            && (|meta| < len as nat * 16 ==> r.blocks == [])
            && (|meta| == len as nat * 16 ==> r.state == Start(n) && r.blocks == if len == 0 then [] else [meta])
  {
    RunAudio(Start(n), audio);
    RunAppend(Start(n), audio, [len]);
    RunAppend(Start(n), audio + [len], meta);
    var s0 := State(n, 0, 0, []);
    assert Run(s0, [len]) == Feed(s0, len) by {
      assert Run(Feed(s0, len).state, []) == Out(Feed(s0, len).state, [], []);
    }
    if len != 0 {
      RunMeta(Feed(s0, len).state, meta);
      assert [] + meta == meta;
    }
  }

  /** The automaton computes the recursive definition, for every stream. */
  lemma {:induction false} RunIsDemux(n: nat, stream: seq<byte>)
    ensures Run(Start(n), stream).audio == Audio(n, stream)
    ensures Run(Start(n), stream).blocks == Blocks(n, stream)
    decreases |stream|
  {
    if n == 0 || |stream| <= n {
      RunAudio(Start(n), stream);
    } else {
      var end := n + 1 + stream[n] as nat * 16;
      var cut := if |stream| < end then |stream| else end;
      RunRound(n, stream[..n], stream[n], stream[n + 1..cut]);
      assert stream[..n] + [stream[n]] + stream[n + 1..cut] == stream[..cut];
      assert stream[..cut] + stream[cut..] == stream;
      RunAppend(Start(n), stream[..cut], stream[cut..]);
      if |stream| < end {
        assert stream[cut..] == [];
      } else {
        RunIsDemux(n, stream[end..]);
      }
    }
  }

  function Concat(pieces: seq<seq<byte>>): seq<byte> {
    if pieces == [] then [] else pieces[0] + Concat(pieces[1..])
  }

  /** The parser called once for every piece; the results one after the other. */
  function RunPieces(s: State, pieces: seq<seq<byte>>): Out
    decreases |pieces|
  {
    if pieces == [] then Out(s, [], [])
    else
      var one := Run(s, pieces[0]);
      Then(one, RunPieces(one.state, pieces[1..]))
  }

  lemma {:induction false} PiecesAreOneRun(s: State, pieces: seq<seq<byte>>)
    ensures RunPieces(s, pieces) == Run(s, Concat(pieces))
    decreases |pieces|
  {
    if pieces != [] {
      RunAppend(s, pieces[0], Concat(pieces[1..]));
      PiecesAreOneRun(Run(s, pieces[0]).state, pieces[1..]);
    }
  }

  /** However the network cuts the stream, the audio and the metadata are those of the whole. */
  lemma SplitInvariance(n: nat, pieces: seq<seq<byte>>)
    ensures RunPieces(Start(n), pieces).audio == Audio(n, Concat(pieces))
    ensures RunPieces(Start(n), pieces).blocks == Blocks(n, Concat(pieces))
  {
    PiecesAreOneRun(Start(n), pieces);
    RunIsDemux(n, Concat(pieces));
  }

  // ---------------------------------------------------------------------------------------
  // The incremental parser (src/IcyMetaDataParser.cxx)

  /** memmove() to a place in front of the source. */
  method MoveDown(buf: array<byte>, dest: nat, src: nat, n: nat)
    requires dest <= src && src + n <= buf.Length
    modifies buf
    ensures buf[..] == old(buf[..])[..dest] + old(buf[..])[src..src + n] + old(buf[..])[dest + n..]
  {
    for i := 0 to n
      invariant forall k :: 0 <= k < dest ==> buf[k] == old(buf[k])
      invariant forall k :: dest <= k < dest + i ==> buf[k] == old(buf[k - dest + src])
      invariant forall k :: dest + i <= k < buf.Length ==> buf[k] == old(buf[k])
    {
      buf[dest + i] := buf[src + i];
    }
  }

  lemma MovedSlices(was: seq<byte>, now: seq<byte>, dest: nat, src: nat, n: nat)
    requires dest <= src && src + n <= |was| && now == was[..dest] + was[src..src + n] + was[dest + n..]
    ensures now[..dest + n] == was[..dest] + was[src..src + n] && now[src + n..] == was[src + n..]
  {
  }

  class IcyMetaDataParser {
    var dataSize: nat
    var dataRest: nat
    var metaSize: nat
    var metaPosition: nat
    var metaData: array<byte>
    var tag: Option<seq<byte>>

    ghost predicate Valid()
      reads this
    {
      && dataRest <= dataSize
      && (metaSize > 0 ==> dataSize > 0 && dataRest == 0 && metaPosition < metaSize < metaData.Length)
    }

    /** The state of the automaton. */
    ghost function View(): (s: State)
      requires Valid()
      reads this, metaData
      ensures ValidState(s)
    {
      State(dataSize, dataRest, metaSize, if metaSize > 0 then metaData[..metaPosition] else [])
    }

    /** Start() on a new object; a size of 0 disables the parser. */
    constructor (size: nat)
      ensures Valid() && View() == Start(size) && tag == None && fresh(metaData)
    {
      dataSize, dataRest, metaSize, metaPosition, tag := size, size, 0, 0, None;
      metaData := new byte[0];
    }

    method Data(length: nat) returns (n: nat)
      requires Valid() && length > 0
      modifies this`dataRest
      ensures Valid()
      ensures n == (if dataSize == 0 || length < old(dataRest) then length else old(dataRest))
      ensures dataRest == (if dataSize == 0 then old(dataRest) else old(dataRest) - n)
    {
      if dataSize == 0 { return length; }
      if dataRest == 0 { return 0; }
      if length >= dataRest {
        n := dataRest;
        dataRest := 0;
      } else {
        n := length;
        dataRest := dataRest - length;
      }
    }

    /** Consumes the part of `buf[off..off + length]` that belongs to the current metadata block. */
    method Meta(buf: array<byte>, off: nat, length: nat) returns (n: nat)
      requires Valid() && dataSize > 0 && dataRest == 0 && length > 0 && off + length <= buf.Length && buf != metaData
      modifies this`dataRest, this`metaSize, this`metaPosition, this`metaData, this`tag, metaData
      ensures Valid() && buf != metaData && (metaData == old(metaData) || fresh(metaData))
      ensures 0 < n <= length
      ensures var r := Run(old(View()), buf[..][off..off + n]);
              && r.state == View() && r.audio == []
              && tag == if r.blocks == [] then old(tag) else Some(r.blocks[|r.blocks| - 1])
    {
      hide Run;
      ghost var s0 := View();
      if metaSize == 0 {
        RunLength(s0, buf[..][off..off + 1]);
        metaSize := buf[off] as nat * 16;
        if metaSize == 0 {
          dataRest := dataSize;
          return 1;
        }
        metaPosition := 0;
        metaData := new byte[metaSize + 1];
        n := ReadMeta(buf, off + 1, length - 1);
        RunAppend(s0, buf[..][off..off + 1], buf[..][off + 1..off + 1 + n]);
        assert buf[..][off..off + 1 + n] == buf[..][off..off + 1] + buf[..][off + 1..off + 1 + n];
        n := n + 1;
      } else {
        n := ReadMeta(buf, off, length);
      }
    }

    /** The part of Meta() behind the length byte. */
    method ReadMeta(buf: array<byte>, p: nat, length: nat) returns (n: nat)
      requires Valid() && metaSize > 0 && p + length <= buf.Length && buf != metaData
      modifies this`dataRest, this`metaSize, this`metaPosition, this`tag, metaData
      ensures Valid() && n <= length && (length > 0 ==> n > 0)
      ensures var r := Run(old(View()), buf[..][p..p + n]);
              && r.state == View() && r.audio == []
              && tag == if r.blocks == [] then old(tag) else Some(r.blocks[|r.blocks| - 1])
    {
      hide Run;
      n := if length > metaSize - metaPosition then metaSize - metaPosition else length;
      RunMeta(View(), buf[..][p..p + n]);
      CopyIn(buf, p, n);
      metaPosition := metaPosition + n;
      if metaPosition == metaSize {
        tag := Some(metaData[..metaSize]);
        metaSize := 0;
        dataRest := dataSize;
      }
    }

    /** memcpy(meta_data + meta_position, p, n) */
    method CopyIn(buf: array<byte>, p: nat, n: nat)
      requires metaPosition + n <= metaData.Length && p + n <= buf.Length && buf != metaData
      modifies metaData
      ensures metaData[..metaPosition + n] == old(metaData[..metaPosition]) + buf[..][p..p + n]
    {
      for i := 0 to n
        invariant forall k :: 0 <= k < metaPosition ==> metaData[k] == old(metaData[k])
        invariant forall k :: metaPosition <= k < metaPosition + i ==> metaData[k] == buf[p + k - metaPosition]
      {
        metaData[metaPosition + i] := buf[p + i];
      }
    }

    /** The audio bytes at `src`, if any are due, move down to `dest`. */
    method PassAudio(buf: array<byte>, dest: nat, src: nat, length: nat) returns (n: nat)
      requires Valid() && dest <= src < length <= buf.Length && buf != metaData
      modifies this`dataRest, buf
      ensures Valid() && n <= length - src
      ensures n < length - src ==> dataSize > 0 && dataRest == 0
      ensures Run(old(View()), old(buf[..])[src..src + n]) == Out(View(), old(buf[..])[src..src + n], [])
      ensures buf[..dest + n] == old(buf[..])[..dest] + old(buf[..])[src..src + n]
      ensures buf[src + n..] == old(buf[..])[src + n..]
    {
      hide Run, Feed;
      ghost var was := buf[..];
      n := Data(length - src);
      RunAudio(old(View()), was[src..src + n]);
      if n > 0 {
        MoveDown(buf, dest, src, n);
        MovedSlices(was, buf[..], dest, src, n);
      }
      assert buf[..dest + n] == buf[..][..dest + n] && buf[src + n..] == buf[..][src + n..];
    }

    /** The body of the loop of ParseInPlace(): audio that is due, then metadata. */
    method Round(buf: array<byte>, dest: nat, src: nat, length: nat) returns (dest': nat, src': nat, ghost r: Out)
      requires Valid() && dest <= src < length <= buf.Length && buf != metaData
      modifies this`dataRest, this`metaSize, this`metaPosition, this`metaData, this`tag, metaData, buf
      ensures Valid() && buf != metaData && (metaData == old(metaData) || fresh(metaData))
      ensures dest' <= src' && src < src' <= length
      ensures r == Run(old(View()), old(buf[..])[src..src']) && r.state == View()
      ensures buf[..dest'] == old(buf[..])[..dest] + r.audio
      ensures buf[src'..] == old(buf[..])[src'..]
      ensures tag == if r.blocks == [] then old(tag) else Some(r.blocks[|r.blocks| - 1])
    {
      hide Run, Feed, Then;
      ghost var was, s0 := buf[..], View();
      var chunk := PassAudio(buf, dest, src, length);
      ghost var audio := was[src..src + chunk];
      dest', src' := dest + chunk, src + chunk;
      r := Out(View(), audio, []);
      if src' < length {
        ghost var mid, rest := src', buf[..];
        assert rest[mid..] == was[mid..];
        chunk := Meta(buf, src', length - src');
        src' := src' + chunk;
        SameSlice(rest, was, mid, src');
        JoinSlices(was, src, mid, src');
        RunAppend(s0, audio, was[mid..src']);
        ThenMeta(r, Run(r.state, was[mid..src']));
        r := Then(r, Run(r.state, was[mid..src']));
      }
    }

    /**
     Removes the metadata from the first `length` bytes of the buffer.  What remains, and the
     state afterwards, are what the automaton says about those bytes.
     */
    method ParseInPlace(buf: array<byte>, length: nat) returns (n: nat)
      requires Valid() && length <= buf.Length && buf != metaData
      modifies this`dataRest, this`metaSize, this`metaPosition, this`metaData, this`tag, metaData, buf
      ensures Valid() && buf != metaData && (metaData == old(metaData) || fresh(metaData))
      ensures n <= length && buf[length..] == old(buf[length..])
      ensures var r := Run(old(View()), old(buf[..length]));
              && r.state == View() && r.audio == buf[..n]
              && tag == if r.blocks == [] then old(tag) else Some(r.blocks[|r.blocks| - 1])
    {
      hide Run, Feed;
      var dest: nat, src: nat := 0, 0;
      ghost var s0, input, tag0 := View(), buf[..], tag;
      ghost var r := Extend0(s0, input);
      while src < length
        invariant Valid() && buf != metaData && (metaData == old(metaData) || fresh(metaData))
        invariant dest <= src <= length
        invariant buf[src..] == input[src..]
        invariant r == Run(s0, input[..src]) && r.state == View() && r.audio == buf[..dest]
        invariant tag == if r.blocks == [] then tag0 else Some(r.blocks[|r.blocks| - 1])
      {
        ghost var was, from, step := buf[..], src, r;
        assert was[src..] == input[src..];
        dest, src, step := Round(buf, dest, src, length);
        SameSlice(was, input, from, src);
        SameTail(was, input, from, src);
        r := Extend(s0, input, from, src, r);
      }
      n := dest;
    }
  }

  /** Audio followed by metadata: nothing more to hear, and the blocks of the metadata. */
  lemma ThenMeta(a: Out, b: Out)
    requires a.blocks == [] && b.audio == []
    ensures Then(a, b) == Out(b.state, a.audio, b.blocks)
  {
    assert a.audio + b.audio == a.audio && a.blocks + b.blocks == b.blocks;
  }

  lemma SameSlice(a: seq<byte>, b: seq<byte>, p: nat, q: nat)
    requires p <= q <= |a| == |b| && a[p..] == b[p..]
    ensures a[p..q] == b[p..q]
  {
    assert a[p..q] == a[p..][..q - p] && b[p..q] == b[p..][..q - p];
  }

  lemma SameTail(a: seq<byte>, b: seq<byte>, p: nat, q: nat)
    requires p <= q <= |a| == |b| && a[p..] == b[p..]
    ensures a[q..] == b[q..]
  {
    assert a[q..] == a[p..][q - p..] && b[q..] == b[p..][q - p..];
  }

  lemma JoinSlices(a: seq<byte>, p: nat, q: nat, r: nat)
    requires p <= q <= r <= |a|
    ensures a[p..q] + a[q..r] == a[p..r]
  {
  }

  lemma Extend0(s: State, input: seq<byte>) returns (r: Out)
    ensures r == Run(s, input[..0]) == Out(s, [], [])
  {
    r := Out(s, [], []);
  }

  /** Reading on from `a` to `b` in the input. */
  lemma Extend(s: State, input: seq<byte>, a: nat, b: nat, r: Out) returns (r': Out)
    requires a <= b <= |input| && r == Run(s, input[..a])
    ensures r' == Run(s, input[..b]) && r' == Then(r, Run(r.state, input[a..b]))
  {
    RunAppend(s, input[..a], input[a..b]);
    assert input[..a] + input[a..b] == input[..b];
    r' := Run(s, input[..b]);
  }

  // ---------------------------------------------------------------------------------------
  // The input stream (src/input/IcyInputStream.cxx)

  /** The stream below: what the network still has to deliver, in pieces of its choice. */
  class ProxyInput {
    var pieces: seq<seq<byte>>

    ghost predicate Valid()
      reads this
    {
      forall k :: 0 <= k < |pieces| ==> pieces[k] != []
    }

    constructor (pieces: seq<seq<byte>>)
      requires forall k :: 0 <= k < |pieces| ==> pieces[k] != []
      ensures Valid() && this.pieces == pieces
    {
      this.pieces := pieces;
    }

    /** Delivers at most one piece; 0 bytes mean the end of the stream. */
    method Read(buf: array<byte>, size: nat) returns (n: nat)
      requires Valid() && size <= buf.Length
      modifies this, buf
      ensures Valid() && n <= size
      ensures n == 0 <==> size == 0 || old(pieces) == []
      ensures old(Concat(pieces)) == buf[..n] + Concat(pieces)
    {
      if size == 0 || pieces == [] { return 0; }
      var piece := pieces[0];
      n := if |piece| < size then |piece| else size;
      for i := 0 to n
        invariant pieces == old(pieces)
        invariant forall k :: 0 <= k < i ==> buf[k] == piece[k]
      {
        buf[i] := piece[i];
      }
      assert buf[..n] == piece[..n];
      if n < |piece| {
        pieces := [piece[n..]] + pieces[1..];
        assert pieces[1..] == old(pieces)[1..];
        assert piece[..n] + piece[n..] == piece;
      } else {
        pieces := pieces[1..];
        assert piece[..n] == piece;
      }
    }
  }

  /** One more piece of the stream is parsed. */
  lemma ReadOn(n: nat, stream: seq<byte>, consumed: nat, piece: seq<byte>, rest: seq<byte>)
    requires consumed <= |stream| && stream[consumed..] == piece + rest
    ensures consumed + |piece| <= |stream| && stream[consumed + |piece|..] == rest
    ensures var r := Run(Run(Start(n), stream[..consumed]).state, piece);
            && Run(Start(n), stream[..consumed + |piece|]).state == r.state
            && Audio(n, stream[..consumed + |piece|]) == Audio(n, stream[..consumed]) + r.audio
  {
    hide Run, Audio;
    assert |stream| == consumed + |piece| + |rest|;
    assert stream[..consumed + |piece|] == stream[..consumed] + piece by {
      assert stream == stream[..consumed] + (piece + rest);
    }
    RunAppend(Start(n), stream[..consumed], piece);
    RunIsDemux(n, stream[..consumed]);
    RunIsDemux(n, stream[..consumed + |piece|]);
  }

  class IcyInputStream {
    const input: ProxyInput
    const parser: IcyMetaDataParser
    var overrideOffset: nat
    var offset: nat
    ghost const stream: seq<byte>     // everything the server sends
    ghost var consumed: nat           // how much of it was read
    ghost var delivered: seq<byte>    // everything Read() has returned

    /** What was delivered, and the offset, are those of the recursive definition. */
    ghost predicate Valid()
      reads this, input, parser, parser.metaData
    {
      && input.Valid() && parser.Valid() && parser.dataSize > 0
      && consumed <= |stream| && stream[consumed..] == Concat(input.pieces)
      && parser.View() == Run(Start(parser.dataSize), stream[..consumed]).state
      && delivered == Audio(parser.dataSize, stream[..consumed])
      && overrideOffset == |delivered|
    }

    constructor (n: nat, pieces: seq<seq<byte>>)
      requires n > 0 && forall k :: 0 <= k < |pieces| ==> pieces[k] != []
      ensures Valid() && delivered == [] && stream == Concat(pieces) && parser.dataSize == n
      ensures fresh(input) && fresh(parser) && fresh(parser.metaData)
    {
      input := new ProxyInput(pieces);
      parser := new IcyMetaDataParser(n);
      overrideOffset, offset, stream, consumed, delivered := 0, 0, Concat(pieces), 0, [];
    }

    /** Audio bytes, or nothing only at the end of the stream. */
    method Read(buf: array<byte>, size: nat) returns (n: nat)
      requires Valid() && size <= buf.Length && buf != parser.metaData
      modifies this`overrideOffset, this`offset, this`consumed, this`delivered
      modifies input, parser, parser.metaData, buf
      ensures Valid() && buf != parser.metaData && (parser.metaData == old(parser.metaData) || fresh(parser.metaData))
      ensures parser.dataSize == old(parser.dataSize) && n <= size
      ensures delivered == old(delivered) + buf[..n]
      ensures n > 0 ==> offset == |delivered|
      ensures n == 0 && size > 0 ==> consumed == |stream|
    {
      hide Audio, Run;
      var got: nat := input.Read(buf, size);
      while got > 0
        invariant input.Valid() && parser.Valid() && got <= size && buf != parser.metaData
        invariant parser.metaData == old(parser.metaData) || fresh(parser.metaData)
        invariant parser.dataSize == old(parser.dataSize)
        invariant delivered == old(delivered) && overrideOffset == |delivered|
        invariant consumed <= consumed + got <= |stream|
        invariant stream[consumed..] == buf[..got] + Concat(input.pieces)
        invariant parser.View() == Run(Start(parser.dataSize), stream[..consumed]).state
        invariant delivered == Audio(parser.dataSize, stream[..consumed])
        invariant got == 0 && size > 0 ==> consumed == |stream|
        decreases |stream| - consumed - got, got
      {
        n := Digest(buf, got);
        if n > 0 {
          overrideOffset := overrideOffset + n;
          offset := overrideOffset;
          delivered := delivered + buf[..n];
          return;
        }
        got := input.Read(buf, size);
      }
      n := 0;
    }

    /** Parses what has been read; it is consumed then. */
    method Digest(buf: array<byte>, got: nat) returns (n: nat)
      requires parser.Valid() && parser.dataSize > 0 && got <= buf.Length && buf != parser.metaData
      requires consumed <= |stream| && stream[consumed..] == buf[..got] + Concat(input.pieces)
      requires parser.View() == Run(Start(parser.dataSize), stream[..consumed]).state
      requires delivered == Audio(parser.dataSize, stream[..consumed])
      modifies this`consumed, parser, parser.metaData, buf
      ensures parser.Valid() && parser.dataSize == old(parser.dataSize) && buf != parser.metaData
      ensures parser.metaData == old(parser.metaData) || fresh(parser.metaData)
      ensures n <= got && consumed == old(consumed) + got <= |stream| && stream[consumed..] == Concat(input.pieces)
      ensures parser.View() == Run(Start(parser.dataSize), stream[..consumed]).state
      ensures delivered + buf[..n] == Audio(parser.dataSize, stream[..consumed])
    {
      hide Audio, Run;
      ReadOn(parser.dataSize, stream, consumed, buf[..got], Concat(input.pieces));
      n := parser.ParseInPlace(buf, got);
      consumed := consumed + got;
    }
  }
}
