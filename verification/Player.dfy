/**
 The player thread of 0.19.19 (mpd-0.19.19/src/PlayerThread.cxx) with its decoder and audio
 outputs. Client commands arrive at the head of the player's loop. The decoder thread may take
 any number of steps wherever the player does not hold the lock (`DecoderSteps`). The outputs
 are abstract: a pipe of chunks from which a prefix may be consumed, and calls that may fail.

 Pipes live in a map from addresses to contents, so that an address can dangle or leak in the
 model just as in the program; chunks are numbers taken from a pool.
 */
module Player {
  import opened Common

  type Chunk = nat
  type Song = nat
  type Address = nat

  datatype Command = NoCommand | Stop | Exit | CloseAudio | UpdateAudio | Queue | Pause | Seek | Cancel | Refresh

  datatype PlayerState = Stopped | Playing | Paused

  datatype DecoderState = DecoderStopped | DecoderFailed | DecoderStarting | Decoding

  datatype CrossFade = Disabled | Unknown | Enabled

  /** A chunk in the output pipe, with the one attached for cross-fading. */
  datatype Played = Played(chunk: Chunk, other: Option<Chunk>)

  // ---------------------------------------------------------------------------------------
  // Accounting

  function One(c: Option<Chunk>): multiset<Chunk> {
    if c.Some? then multiset{c.value} else multiset{}
  }

  function Cells(ps: seq<Played>): multiset<Chunk> {
    if ps == [] then multiset{} else Cell(ps[0]) + Cells(ps[1..])
  }

  function Cell(p: Played): multiset<Chunk> {
    multiset{p.chunk} + One(p.other)
  }

  function OutputCells(output: Option<seq<Played>>): multiset<Chunk> {
    if output.Some? then Cells(output.value) else multiset{}
  }

  function Elements(m: multiset<Chunk>): set<Chunk> {
    set c | c in m
  }

  lemma {:induction false} CellsAppend(ps: seq<Played>, p: Played)
    ensures Cells(ps + [p]) == Cells(ps) + Cell(p)
  {
    if ps == [] {
      assert ps + [p] == [p];
    } else {
      assert (ps + [p])[1..] == ps[1..] + [p];
      CellsAppend(ps[1..], p);
    }
  }

  lemma {:induction false} CellsSplit(ps: seq<Played>, k: nat)
    requires k <= |ps|
    ensures Cells(ps) == Cells(ps[..k]) + Cells(ps[k..])
  {
    if k == 0 {
      assert ps[..0] == [] && ps[0..] == ps;
    } else {
      assert ps[..k][0] == ps[0] && ps[..k][1..] == ps[1..][..k - 1] && ps[1..][k - 1..] == ps[k..];
      CellsSplit(ps[1..], k - 1);
    }
  }

  lemma NoCells()
    ensures Cells([]) == multiset{}
  {
  }

  lemma ShiftSplit(s: seq<Chunk>)
    requires s != []
    ensures multiset(s) == multiset{s[0]} + multiset(s[1..])
  {
    assert s == [s[0]] + s[1..];
  }

  /** Giving back what is accounted as `b` leaves exactly `a` in use. */
  lemma GiveBack(inUse: set<Chunk>, a: multiset<Chunk>, b: multiset<Chunk>)
    requires multiset(inUse) == a + b
    ensures multiset(inUse - Elements(b)) == a
  {
    forall c
      ensures multiset(inUse - Elements(b))[c] == a[c]
    {
      assert multiset(inUse)[c] == a[c] + b[c];
    }
  }

  lemma Take(inUse: set<Chunk>, a: multiset<Chunk>, c: Chunk)
    requires multiset(inUse) == a && c !in inUse
    ensures multiset(inUse + {c}) == a + multiset{c}
  {
  }

  /** The contents of the pipes: the player's, and the decoder's if it is another one. */
  ghost function PipeCells(pipes: Pipes, pipe: Address, dcPipe: Option<Address>): multiset<Chunk>
    requires pipe in pipes && (dcPipe.Some? ==> dcPipe.value in pipes)
  {
    multiset(pipes[pipe]) +
    (if dcPipe.Some? && dcPipe.value != pipe then multiset(pipes[dcPipe.value]) else multiset{})
  }

  type Pipes = map<Address, seq<Chunk>>

  /** The same pipes, but for chunks added at the end of the decoder's. */
  ghost predicate Extends(before: Pipes, after: Pipes, dcPipe: Option<Address>) {
    && before.Keys == after.Keys
    && (forall a :: a in after ==> before[a] <= after[a] && (Some(a) == dcPipe || after[a] == before[a]))
  }

  lemma ExtendsTransitive(a: Pipes, b: Pipes, c: Pipes, dcPipe: Option<Address>)
    requires Extends(a, b, dcPipe) && Extends(b, c, dcPipe)
    ensures Extends(a, c, dcPipe)
  {
    assert forall k :: k in c ==> k in b.Keys && k in a.Keys;
  }

  lemma SameLength(before: Pipes, after: Pipes, dcPipe: Option<Address>, a: Address)
    requires Extends(before, after, dcPipe) && a in before
    ensures a in after && before[a] <= after[a] && (Some(a) != dcPipe ==> after[a] == before[a])
  {
    assert a in after.Keys;
  }

  lemma ExtendsSelf(pipes: Pipes, dcPipe: Option<Address>)
    ensures Extends(pipes, pipes, dcPipe)
  {
  }

  lemma PushCells(pipes: Pipes, pipe: Address, dcPipe: Option<Address>, c: Chunk)
    requires pipe in pipes && dcPipe.Some? && dcPipe.value in pipes
    ensures PipeCells(pipes[dcPipe.value := pipes[dcPipe.value] + [c]], pipe, dcPipe) ==
            PipeCells(pipes, pipe, dcPipe) + multiset{c}
  {
  }

  lemma ShiftCells(pipes: Pipes, pipe: Address, dcPipe: Option<Address>, a: Address)
    requires pipe in pipes && (dcPipe.Some? ==> dcPipe.value in pipes)
    requires (a == pipe || Some(a) == dcPipe) && pipes[a] != []
    ensures PipeCells(pipes, pipe, dcPipe) ==
            PipeCells(pipes[a := pipes[a][1..]], pipe, dcPipe) + multiset{pipes[a][0]}
  {
    ShiftSplit(pipes[a]);
  }

  lemma EmptyOne(pipes: Pipes, pipe: Address, dcPipe: Option<Address>, a: Address)
    requires pipe in pipes && (dcPipe.Some? ==> dcPipe.value in pipes) && (a == pipe || Some(a) == dcPipe)
    ensures PipeCells(pipes, pipe, dcPipe) == PipeCells(pipes[a := []], pipe, dcPipe) + multiset(pipes[a])
  {
  }

  /** An empty second pipe does not count, nor does the player's own. */
  lemma EmptyPipeCells(pipes: Pipes, pipe: Address, a: Address)
    requires pipe in pipes && a in pipes && (a == pipe || pipes[a] == [])
    ensures PipeCells(pipes, pipe, Some(a)) == multiset(pipes[pipe]) == PipeCells(pipes, pipe, None)
  {
  }

  // ---------------------------------------------------------------------------------------
  // The player

  class Player {
    // shared with the clients
    var command: Command
    var state: PlayerState
    var nextSong: Option<Song>
    var borderPause: bool

    // the decoder thread
    var decoder: DecoderState
    var dcSong: Song
    var dcPipe: Option<Address>
    var hand: Option<Chunk>

    // pipes and chunks
    var pipes: Pipes
    var inUse: set<Chunk>

    // the outputs; none if they have no pipe
    var output: Option<seq<Played>>

    // the player
    var pipe: Address
    var buffering: bool
    var decoderStarting: bool
    var paused: bool
    var queued: bool
    var outputOpen: bool
    var formatDefined: bool
    var song: Option<Song>
    var crossFade: CrossFade
    var crossFading: bool
    var crossFadeChunks: nat

    /** DecoderControl::Seek was called while the decoder was still starting. */
    var fault: bool

    /**
     The decoder thread is not scheduled, no output fails and a chunk is free; without it
     anything may happen.
     */
    const calm: bool

    /** The thread has just been started. */
    constructor (calm: bool)
      ensures Resting() && command == NoCommand && this.calm == calm && !fault
    {
      this.calm := calm;
      command, state, nextSong, borderPause := NoCommand, Stopped, None, false;
      decoder, dcSong, dcPipe, hand := DecoderStopped, 0, None, None;
      pipes, inUse, output, pipe := map[], {}, None, 0;
      buffering, decoderStarting, paused, queued, outputOpen := true, false, false, true, false;
      formatDefined, song, crossFade, crossFading, crossFadeChunks := false, None, Unknown, false, 0;
      fault := false;
    }

    predicate DecoderIdle()
      reads this`decoder
    {
      decoder == DecoderStopped || decoder == DecoderFailed
    }

    predicate AtNextSong()
      reads this`pipe, this`dcPipe
    {
      dcPipe.Some? && dcPipe.value != pipe
    }

    /** No pipe leaks and none dangles; an idle decoder holds nothing. */
    ghost predicate PipesOk()
      reads this`pipes, this`pipe, this`dcPipe, this`decoder, this`hand
    {
      && pipe in pipes && (dcPipe.Some? ==> dcPipe.value in pipes)
      && (forall a :: a in pipes ==> a == pipe || Some(a) == dcPipe)
      && (dcPipe == None ==> DecoderIdle())
      && (DecoderIdle() ==> hand == None)
    }

    /** Every chunk in use is in exactly one place. */
    ghost predicate Conserved()
      requires PipesOk()
      reads this`pipes, this`pipe, this`dcPipe, this`decoder, this`hand, this`output, this`inUse
    {
      multiset(inUse) == One(hand) + PipeCells(pipes, pipe, dcPipe) + OutputCells(output)
    }

    /** The same, while the player has some chunks in its hand. */
    ghost predicate ConservedWith(held: multiset<Chunk>)
      requires PipesOk()
      reads this`pipes, this`pipe, this`dcPipe, this`decoder, this`hand, this`output, this`inUse
    {
      multiset(inUse) == One(hand) + PipeCells(pipes, pipe, dcPipe) + OutputCells(output) + held
    }

    /** A second pipe belongs to the queued song. */
    ghost predicate QueueOk()
      reads this`pipe, this`dcPipe, this`queued
    {
      AtNextSong() ==> queued
    }

    /** The outputs are usable whenever the player is about to use them. */
    ghost predicate OutputsOk()
      reads this`output, this`outputOpen, this`formatDefined, this`paused, this`decoderStarting, this`state
    {
      && (outputOpen ==> output.Some? && formatDefined)
      && (!paused && !decoderStarting ==> outputOpen)
      && (!formatDefined ==> decoderStarting)
      && state == (if paused then Paused else Playing)
    }

    /** What holds at the head of the loop, before a command arrives. */
    ghost predicate Valid()
      reads this
    {
      PipesOk() && Conserved() && QueueOk() && OutputsOk() && (fault || StartOk()) && (queued <==> nextSong.Some?)
    }

    // -------------------------------------------------------------------------------------
    // The decoder thread

    /** The decoder's last act for a song: its chunk goes into the pipe or back to the pool. */
    method DecoderFinish(failed: bool)
      requires PipesOk() && Conserved() && !DecoderIdle()
      modifies this`decoder, this`hand, this`pipes, this`inUse
      ensures PipesOk() && Conserved() && Extends(old(pipes), pipes, dcPipe)
      ensures decoder == if failed then DecoderFailed else DecoderStopped
    {
      if hand.Some? {
        DecoderPush();
      }
      decoder := if failed then DecoderFailed else DecoderStopped;
    }

    method DecoderPush()
      requires PipesOk() && Conserved() && hand.Some? && !DecoderIdle()
      modifies this`hand, this`pipes, this`inUse
      ensures PipesOk() && Conserved() && hand == None && Extends(old(pipes), pipes, dcPipe)
    {
      hide Cells, OutputCells, PipeCells;
      if * {
        GiveBack(inUse, PipeCells(pipes, pipe, dcPipe) + OutputCells(output), One(hand));
        inUse := inUse - {hand.value};
        assert Elements(One(hand)) == {hand.value};
      } else {
        PushCells(pipes, pipe, dcPipe, hand.value);
        pipes := pipes[dcPipe.value := pipes[dcPipe.value] + [hand.value]];
      }
      hand := None;
    }

    method DecoderAllocate(c: Chunk)
      requires PipesOk() && Conserved() && !DecoderIdle() && hand == None && c !in inUse
      modifies this`hand, this`inUse
      ensures PipesOk() && Conserved()
    {
      Take(inUse, PipeCells(pipes, pipe, dcPipe) + OutputCells(output), c);
      hand := Some(c);
      inUse := inUse + {c};
    }

    /** The plugin has opened the song. */
    method DecoderReady()
      requires PipesOk() && Conserved() && decoder == DecoderStarting
      modifies this`decoder
      ensures PipesOk() && Conserved() && decoder == Decoding
    {
      decoder := Decoding;
    }

    /** Anything the decoder thread may do next. */
    method DecoderStep()
      requires PipesOk() && Conserved()
      modifies this`decoder, this`hand, this`pipes, this`inUse
      ensures PipesOk() && Conserved() && Extends(old(pipes), pipes, dcPipe)
      ensures old(DecoderIdle()) ==> decoder == old(decoder)
      ensures decoder == DecoderStarting ==> old(decoder) == DecoderStarting
    {
      if DecoderIdle() {
        return;
      }
      var c: int, failed: bool := *, *;
      if * {
        DecoderFinish(failed);
      } else if decoder == DecoderStarting {
        DecoderReady();
      } else if hand == None && c >= 0 && c !in inUse {
        DecoderAllocate(c);
      } else if hand.Some? {
        DecoderPush();
      }
    }

    /** Any number of steps of the decoder thread. */
    method DecoderSteps()
      requires PipesOk() && Conserved()
      modifies this`decoder, this`hand, this`pipes, this`inUse
      ensures PipesOk() && Conserved() && Extends(old(pipes), pipes, dcPipe)
      ensures old(DecoderIdle()) ==> decoder == old(decoder)
      ensures decoder == DecoderStarting ==> old(decoder) == DecoderStarting
      ensures calm ==> decoder == old(decoder) && hand == old(hand) && pipes == old(pipes) && inUse == old(inUse)
    {
      hide One, Cells, OutputCells, PipeCells, Extends;
      var n: int := *;
      if calm {
        n := 0;
      }
      ExtendsSelf(pipes, dcPipe);
      while n > 0
        invariant PipesOk() && Conserved() && Extends(old(pipes), pipes, dcPipe)
        invariant old(DecoderIdle()) ==> decoder == old(decoder)
        invariant decoder == DecoderStarting ==> old(decoder) == DecoderStarting
        invariant calm ==> n == 0 && decoder == old(decoder) && hand == old(hand)
        invariant calm ==> pipes == old(pipes) && inUse == old(inUse)
      {
        ghost var before := pipes;
        DecoderStep();
        ExtendsTransitive(old(pipes), before, pipes, dcPipe);
        n := n - 1;
      }
    }

    // -------------------------------------------------------------------------------------
    // Starting and stopping the decoder

    /** Starts decoding the next song into an empty pipe; no pipe is forgotten by that. */
    method StartDecoder(a: Address)
      requires (queued || command == Seek) && nextSong.Some?
      requires DecoderIdle() && hand == None && pipe in pipes && a in pipes && pipes[a] == []
      requires forall k :: k in pipes ==> k == pipe || k == a
      requires multiset(inUse) == multiset(pipes[pipe]) + OutputCells(output)
      modifies this`dcSong, this`dcPipe, this`decoder, this`hand, this`pipes, this`inUse
      ensures PipesOk() && Conserved() && dcPipe == Some(a) && dcSong == nextSong.value
      ensures calm ==> decoder == DecoderStarting && pipes == old(pipes)
      ensures a != pipe ==> pipes[pipe] == old(pipes[pipe])
    {
      hide Cells, OutputCells, PipeCells;
      EmptyPipeCells(pipes, pipe, a);
      dcSong := nextSong.value;
      dcPipe := Some(a);
      decoder := DecoderStarting;
      DecoderSteps();
    }

    /** Starts decoding the queued song into a pipe of its own. */
    method StartNext()
      requires PipesOk() && Conserved() && DecoderIdle() && !AtNextSong() && queued && nextSong.Some?
      modifies this`dcSong, this`dcPipe, this`decoder, this`hand, this`pipes, this`inUse
      ensures PipesOk() && Conserved() && AtNextSong() && pipes[pipe] == old(pipes[pipe])
      ensures dcSong == nextSong.value && (calm ==> decoder == DecoderStarting)
    {
      var a := pipe + 1;
      assert a !in pipes;
      pipes := pipes[a := []];
      StartDecoder(a);
    }

    /** Empties one of the two pipes. */
    method ClearPipe(a: Address)
      requires PipesOk() && Conserved() && a in pipes
      modifies this`pipes, this`inUse
      ensures PipesOk() && Conserved() && pipes == old(pipes)[a := []]
    {
      hide Cells, OutputCells;
      ghost var rest := One(hand) + PipeCells(pipes[a := []], pipe, dcPipe) + OutputCells(output);
      EmptyOne(pipes, pipe, dcPipe, a);
      hide PipeCells, One;
      assert multiset(inUse) == rest + multiset(pipes[a]);
      GiveBack(inUse, rest, multiset(pipes[a]));
      inUse := inUse - (set c | c in pipes[a]);
      assert Elements(multiset(pipes[a])) == (set c | c in pipes[a]);
      pipes := pipes[a := []];
    }

    /** Stops the decoder; what it has produced is given back, and a second pipe is deleted. */
    method StopDecoder()
      requires PipesOk() && Conserved()
      modifies this`dcPipe, this`decoder, this`hand, this`pipes, this`inUse
      ensures PipesOk() && Conserved() && dcPipe == None && DecoderIdle() && hand == None
      ensures pipes[pipe] == if old(dcPipe) == Some(pipe) then [] else old(pipes[pipe])
    {
      hide Cells, OutputCells, PipeCells, One;
      DecoderSteps();
      if !DecoderIdle() {
        DecoderFinish(false);
      }
      if dcPipe.Some? {
        ClearPipe(dcPipe.value);
        ForgetDecoderPipe();
      }
    }

    method ForgetDecoderPipe()
      requires PipesOk() && Conserved() && DecoderIdle() && dcPipe.Some? && pipes[dcPipe.value] == []
      modifies this`dcPipe, this`pipes
      ensures PipesOk() && Conserved() && dcPipe == None && pipes[pipe] == old(pipes[pipe])
    {
      EmptyPipeCells(pipes, pipe, dcPipe.value);
      if dcPipe.value != pipe {
        pipes := pipes - {dcPipe.value};
      }
      dcPipe := None;
    }

    /** The decoder has acknowledged the start: the queued song becomes the current one. */
    method WaitForDecoder() returns (ok: bool)
      requires PipesOk() && Conserved() && (queued || command == Seek) && nextSong.Some?
      modifies this`queued, this`nextSong, this`song, this`decoderStarting
      ensures PipesOk() && Conserved() && (old(OutputsOk()) ==> OutputsOk())
      ensures !queued && nextSong == None && ok == (decoder != DecoderFailed)
      ensures ok ==> song == old(nextSong) && decoderStarting
      ensures !ok ==> song == old(song) && decoderStarting == old(decoderStarting)
    {
      hide Cells, OutputCells, PipeCells, One;
      queued := false;
      if decoder == DecoderFailed {
        nextSong := None;
        return false;
      }
      song := nextSong;
      decoderStarting := true;
      nextSong := None;
      ok := true;
    }

    // -------------------------------------------------------------------------------------
    // The outputs

    /** The outputs give back the first `k` chunks of their pipe. */
    method Consume(k: nat)
      requires PipesOk() && Conserved() && output.Some? && k <= |output.value|
      modifies this`output, this`inUse
      ensures PipesOk() && Conserved() && output == Some(old(output).value[k..])
      ensures |output.value| == |old(output).value| - k
    {
      hide Cells, PipeCells;
      CellsSplit(output.value, k);
      ghost var rest := One(hand) + PipeCells(pipes, pipe, dcPipe) + Cells(output.value[k..]);
      assert multiset(inUse) == rest + Cells(output.value[..k]);
      GiveBack(inUse, rest, Cells(output.value[..k]));
      inUse := inUse - Elements(Cells(output.value[..k]));
      output := Some(output.value[k..]);
    }

    /** MultipleOutputs::Check: gives back what has been played; the outputs must have a pipe. */
    method CheckOutputs() returns (n: nat)
      requires PipesOk() && Conserved() && output.Some?
      modifies this`output, this`inUse
      ensures PipesOk() && Conserved() && output.Some? && n == |output.value|
      ensures Remains(old(output).value, output.value)
    {
      hide Cells, OutputCells, PipeCells, One;
      var k: int := *;
      if 0 <= k <= |output.value| {
        Consume(k);
      }
      n := |output.value|;
    }

    /** MultipleOutputs::Close, Release or Cancel: nothing is left in the pipe. */
    method CloseOutputs(keepPipe: bool)
      requires PipesOk() && Conserved()
      modifies this`output, this`inUse
      ensures PipesOk() && Conserved()
      ensures output == if keepPipe && old(output).Some? then Some([]) else None
    {
      if output.Some? {
        Consume(|output.value|);
        if !keepPipe {
          output := None;
        }
      }
    }

    /** Opens the outputs; if that fails, the player is paused. */
    method OpenOutput() returns (ok: bool)
      requires PipesOk() && Conserved() && formatDefined && (state == Playing || state == Paused)
      modifies this`output, this`inUse, this`outputOpen, this`paused, this`state
      ensures PipesOk() && Conserved() && OutputsOk()
      ensures calm ==> ok
      ensures outputOpen == ok == !paused
      ensures !ok ==> output == None
      ensures NothingToPlay(old(output)) ==> NothingToPlay(output)
    {
      hide Cells, PipeCells, One;
      ok := *;
      ok := ok || calm;
      assert Cells([]) == multiset{} by { NoCells(); }
      if ok {
        if output == None {
          output := Some([]);
        }
        outputOpen, paused, state := true, false, Playing;
      } else {
        CloseOutputs(false);
        outputOpen, paused, state := false, true, Paused;
      }
    }

    // -------------------------------------------------------------------------------------
    // Playing

    /** Takes the first chunk out of a pipe. */
    method Shift(a: Address, ghost held: multiset<Chunk>) returns (c: Chunk)
      requires PipesOk() && ConservedWith(held) && (a == pipe || Some(a) == dcPipe) && pipes[a] != []
      modifies this`pipes
      ensures PipesOk() && ConservedWith(held + multiset{c})
      ensures c == old(pipes[a][0]) && pipes == old(pipes)[a := old(pipes[a][1..])]
    {
      hide Cells, OutputCells, PipeCells, One;
      ShiftCells(pipes, pipe, dcPipe, a);
      c := pipes[a][0];
      pipes := pipes[a := pipes[a][1..]];
    }

    /** MusicBuffer::Return for chunks in the player's hand. */
    method Return(ghost held: multiset<Chunk>, p: Played)
      requires PipesOk() && ConservedWith(held + Cell(p))
      modifies this`inUse
      ensures PipesOk() && ConservedWith(held) && inUse == old(inUse) - Elements(Cell(p))
    {
      hide Cells, OutputCells, PipeCells, One;
      ghost var rest := One(hand) + PipeCells(pipes, pipe, dcPipe) + OutputCells(output) + held;
      GiveBack(inUse, rest, Cell(p));
      ElementsOfCell(p);
      inUse := if p.other.Some? then inUse - {p.other.value} - {p.chunk} else inUse - {p.chunk};
    }

    /** MultipleOutputs::Play: appends to the output pipe, or fails without any effect. */
    method PlayOutput(p: Played) returns (ok: bool)
      requires PipesOk() && ConservedWith(Cell(p)) && output.Some?
      modifies this`output
      ensures PipesOk() && output.Some?
      ensures if ok then Conserved() else ConservedWith(Cell(p))
      ensures output == if ok then Some(old(output).value + [p]) else old(output)
      ensures calm ==> ok
    {
      hide Cells, PipeCells, One, Cell;
      ok := *;
      ok := ok || calm;
      if ok {
        CellsAppend(output.value, p);
        output := Some(output.value + [p]);
      }
    }

    /** A chunk of silence against underruns; if there is no free chunk, none is sent. */
    method SendSilence() returns (ok: bool)
      requires PipesOk() && Conserved() && OutputsOk() && outputOpen
      modifies this`output, this`inUse
      ensures PipesOk() && Conserved() && OutputsOk() && (calm ==> ok) && (!ok ==> output == old(output))
      ensures (output == old(output) && !calm) ||
              exists c :: c !in old(inUse) && output == Some(old(output).value + [Played(c, None)])
    {
      hide Cells, OutputCells, PipeCells, One, Cell;
      assert formatDefined;
      var c: int := *;
      if calm {
        c := Unused(inUse);
      }
      if c < 0 || c in inUse {
        return true;
      }
      TakeForHand(c);
      ok := PlayOutput(Played(c, None));
      if !ok {
        CellIs(Played(c, None));
        Return(multiset{}, Played(c, None));
      }
    }

    method TakeForHand(c: Chunk)
      requires PipesOk() && Conserved() && c !in inUse
      modifies this`inUse
      ensures PipesOk() && ConservedWith(Cell(Played(c, None)))
    {
      hide Cells, PipeCells, OutputCells;
      Take(inUse, One(hand) + PipeCells(pipes, pipe, dcPipe) + OutputCells(output), c);
      inUse := inUse + {c};
    }

    /**
     Takes the first chunk, attaches one of the next song if asked to, and sends it to the
     outputs. If they fail, both chunks are given back and the player is paused. `empty` and
     `otherEmpty` say which of the two chunks has no audio.
     */
    method PlayFirst(withOther: bool, empty: bool, otherEmpty: bool) returns (ok: bool, ghost p: Played)
      requires PipesOk() && Conserved() && OutputsOk() && output.Some? && pipes[pipe] != []
      requires withOther ==> AtNextSong() && pipes[dcPipe.value] != []
      modifies this`pipes, this`inUse, this`output, this`state, this`paused
      ensures PipesOk() && Conserved() && OutputsOk() && pipes[pipe] == old(pipes[pipe][1..])
      ensures withOther ==> pipes[dcPipe.value] == old(pipes[dcPipe.value][1..])
      ensures !ok ==> paused && state == Paused && !calm
      ensures ok ==> paused == old(paused) && state == old(state)
      ensures p.chunk == old(pipes[pipe][0])
      ensures p.other == if withOther && !otherEmpty then Some(old(pipes[dcPipe.value][0])) else None
      ensures withOther && otherEmpty ==> old(pipes[dcPipe.value][0]) !in inUse
      ensures if ok && !empty then output == Some(old(output).value + [p])
              else output == old(output) && Elements(Cell(p)) !! inUse
    {
      hide Cells, OutputCells, PipeCells, One, Cell;
      var other: Option<Chunk> := None;
      if withOther {
        other := TakeOther(otherEmpty);
      }
      OneOrNothing(other);
      var c := Shift(pipe, One(other));
      CellIs(Played(c, other));
      p := Played(c, other);
      ok := PlayHeld(Played(c, other), empty);
    }

    /** play_chunk for a chunk in the player's hand. */
    method PlayHeld(p: Played, empty: bool) returns (ok: bool)
      requires PipesOk() && ConservedWith(Cell(p)) && OutputsOk() && output.Some?
      modifies this`inUse, this`output, this`state, this`paused
      ensures PipesOk() && Conserved() && OutputsOk() && inUse <= old(inUse)
      ensures !ok ==> paused && state == Paused && !calm
      ensures ok ==> paused == old(paused) && state == old(state)
      ensures if ok && !empty then output == Some(old(output).value + [p])
              else output == old(output) && Elements(Cell(p)) !! inUse
    {
      hide Cells, OutputCells, PipeCells, One, Cell;
      CellIs(p);
      if empty {
        Return(multiset{}, p);
        return true;
      }
      ok := PlayOutput(p);
      if !ok {
        Return(multiset{}, p);
        state, paused := Paused, true;
      }
    }

    /** The chunk of the next song to fade in, unless it has no audio. */
    method TakeOther(empty: bool) returns (other: Option<Chunk>)
      requires PipesOk() && Conserved() && AtNextSong() && pipes[dcPipe.value] != []
      modifies this`pipes, this`inUse
      ensures PipesOk() && ConservedWith(One(other))
      ensures pipes == old(pipes)[dcPipe.value := old(pipes[dcPipe.value][1..])]
      ensures other == if empty then None else Some(old(pipes[dcPipe.value][0]))
      ensures empty ==> old(pipes[dcPipe.value][0]) !in inUse
    {
      hide Cells, OutputCells, PipeCells, Cell;
      var c := Shift(dcPipe.value, multiset{});
      if empty {
        CellIs(Played(c, None));
        Return(multiset{}, Played(c, None));
        other := None;
      } else {
        other := Some(c);
      }
    }

    /** MultipleOutputs::Wait: whether fewer than `threshold` chunks are left to play. */
    method WaitOutputs(threshold: nat) returns (ready: bool)
      requires PipesOk() && Conserved() && output.Some?
      modifies this`output, this`inUse
      ensures PipesOk() && Conserved() && output.Some? && ready == (|output.value| < threshold)
      ensures Remains(old(output).value, output.value)
    {
      var n := CheckOutputs();
      if n >= threshold {
        n := CheckOutputs();
      }
      ready := n < threshold;
    }

    /** The end of the song is near enough for the fade into the next one. */
    predicate Fading()
      requires pipe in pipes
      reads this`crossFade, this`crossFadeChunks, this`pipes, this`pipe, this`dcPipe
    {
      crossFade == Enabled && AtNextSong() && |pipes[pipe]| <= crossFadeChunks
    }

    /** Nothing to fade in has been decoded yet, and the decoder is still at it. */
    predicate MustWait()
      requires pipe in pipes && (dcPipe.Some? ==> dcPipe.value in pipes)
      reads this`crossFade, this`crossFadeChunks, this`pipes, this`pipe, this`dcPipe, this`decoder
    {
      Fading() && pipes[dcPipe.value] == [] && !DecoderIdle()
    }

    /** Whether to fade in a chunk of the next song now, or to wait for one. */
    method ChooseOther() returns (withOther: bool, wait: bool)
      requires PipesOk() && Conserved() && pipes[pipe] != []
      modifies this`pipes, this`inUse, this`decoder, this`hand, this`crossFade, this`crossFading, this`crossFadeChunks
      ensures PipesOk() && Conserved() && Extends(old(pipes), pipes, dcPipe)
      ensures withOther ==> old(Fading()) && pipes[dcPipe.value] != []
      ensures wait ==> old(Fading()) && !withOther
      ensures crossFade == if old(Fading()) && !withOther && !wait then Disabled else old(crossFade)
      ensures calm ==> pipes == old(pipes) && decoder == old(decoder) && wait == old(MustWait())
      ensures calm ==> withOther == (old(Fading()) && pipes[dcPipe.value] != [])
      ensures decoder == DecoderStarting ==> old(decoder) == DecoderStarting
    {
      hide Cells, OutputCells, PipeCells, One, Extends;
      withOther, wait := false, false;
      DecoderSteps();
      SameLength(old(pipes), pipes, dcPipe, pipe);
      if crossFade == Enabled && AtNextSong() && |pipes[pipe]| <= crossFadeChunks {
        withOther := pipes[dcPipe.value] != [];
        BeginCrossFade(|pipes[pipe]|);
        if !withOther {
          ghost var mid := pipes;
          DecoderSteps();
          ExtendsTransitive(old(pipes), mid, pipes, dcPipe);
          wait := !DecoderIdle();
          if !wait {
            crossFade := Disabled;
          }
        }
      }
    }

    /** The first chunk to be faded fixes the length of the fade. */
    method BeginCrossFade(position: nat)
      modifies this`crossFading, this`crossFadeChunks
      ensures crossFading && crossFadeChunks == if old(crossFading) then old(crossFadeChunks) else position
    {
      if !crossFading {
        crossFadeChunks, crossFading := position, true;
      }
    }

    /**
     Plays the first chunk, mixed with one of the next song where that is due; not if it has to
     wait for one. `empty` and `otherEmpty` say which of the two chunks has no audio.
     */
    method PlayChosen(empty: bool, otherEmpty: bool) returns (played: bool, ghost p: Played)
      requires PipesOk() && Conserved() && OutputsOk() && output.Some? && !paused && pipes[pipe] != []
      modifies this`pipes, this`inUse, this`output, this`state, this`paused, this`decoder, this`hand
      modifies this`crossFade, this`crossFading, this`crossFadeChunks
      ensures PipesOk() && Conserved() && OutputsOk() && output.Some?
      ensures decoder == DecoderStarting ==> old(decoder) == DecoderStarting
      ensures Took(old(pipes[pipe]), pipes[pipe], played, p) && (p.other.Some? ==> old(Fading()))
      ensures !played ==> old(Fading()) && output == old(output)
      ensures output.value == old(output).value + (if played && !paused && !empty then [p] else [])
      ensures calm ==> played == !old(MustWait()) && paused == old(paused) && decoder == old(decoder)
      ensures calm && played ==>
                && pipes[pipe] == old(pipes[pipe])[1..]
                && p.other == if old(Fading()) && old(pipes[dcPipe.value]) != [] && !otherEmpty
                              then Some(old(pipes[dcPipe.value][0])) else None
    {
      hide Cells, OutputCells, PipeCells, One, Cell;
      var withOther, wait := ChooseOther();
      SameLength(old(pipes), pipes, dcPipe, pipe);
      hide Extends;
      p := Played(0, None);
      played := !wait;
      if played {
        var ok;
        ok, p := PlayFirst(withOther, empty, otherEmpty);
      }
    }

    /** Sends the next chunk, with cross-fading if the end of the song is near. */
    method PlayNextChunk(empty: bool, otherEmpty: bool) returns (played: bool, ghost p: Played)
      requires PipesOk() && Conserved() && OutputsOk() && !paused && !decoderStarting && pipes[pipe] != []
      modifies this`pipes, this`inUse, this`output, this`state, this`paused, this`decoder, this`hand
      modifies this`crossFade, this`crossFading, this`crossFadeChunks
      ensures PipesOk() && Conserved() && OutputsOk() && output.Some?
      ensures decoder == DecoderStarting ==> old(decoder) == DecoderStarting
      ensures Took(old(pipes[pipe]), pipes[pipe], played, p) && (p.other.Some? ==> old(Fading()))
      ensures |old(output).value| < 64 && !old(Fading()) ==> played
      ensures Sent(old(output).value, output.value, if played && !paused && !empty then [p] else [])
      ensures calm ==> !paused && decoder == old(decoder) && (played ==> pipes[pipe] == old(pipes[pipe])[1..])
      ensures calm && |old(output).value| < 64 ==> played == !old(MustWait())
      ensures calm && played ==>
                p.other == if old(Fading()) && old(pipes[dcPipe.value]) != [] && !otherEmpty
                           then Some(old(pipes[dcPipe.value][0])) else None
    {
      hide Cells, OutputCells, PipeCells, One, Cell;
      played, p := false, Played(0, None);
      var ready := WaitOutputs(64);
      ghost var remaining := output.value;
      if ready {
        played, p := PlayChosen(empty, otherEmpty);
        ghost var before := pipes;
        DecoderSteps();
        SameLength(before, pipes, dcPipe, pipe);
      }
      assert output.value == remaining + (if played && !paused && !empty then [p] else []);
    }

    /**
     The decoder has not reported its format yet: waits for it, then for the outputs to
     finish the previous song, and opens them.
     */
    method CheckDecoderStartup() returns (ok: bool)
      requires PipesOk() && Conserved() && OutputsOk() && decoderStarting
      modifies this`pipes, this`inUse, this`output, this`state, this`paused, this`decoder, this`hand
      modifies this`outputOpen, this`formatDefined, this`decoderStarting
      ensures PipesOk() && Conserved() && OutputsOk()
      ensures decoder == DecoderStarting ==> old(decoder) == DecoderStarting && decoderStarting
      ensures old(decoder) != DecoderStarting && NothingToPlay(old(output)) && ok ==> !decoderStarting
      ensures NothingToPlay(old(output)) ==> NothingToPlay(output)
      ensures ok == (old(decoder) != DecoderFailed) && (!ok ==> decoder == DecoderFailed)
      ensures !decoderStarting ==> formatDefined && (calm && !old(paused) ==> outputOpen)
      ensures !decoderStarting && old(outputOpen) ==> NothingToPlay(output)
      ensures calm ==> decoder == old(decoder) && paused == old(paused)
      ensures calm && old(decoder) == Decoding && !old(outputOpen) && !old(paused) ==>
                ok && !decoderStarting && decoder == Decoding && !paused
    {
      hide Cells, OutputCells, PipeCells, One;
      if decoder == DecoderFailed {
        return false;
      }
      if decoder == DecoderStarting {
        DecoderSteps();
        return true;
      }
      if outputOpen {
        var ready := WaitOutputs(1);
        if !ready {
          return true;
        }
      }
      formatDefined, decoderStarting := true, false;
      if !paused {
        var _ := OpenOutput();
      }
      ok := true;
    }

    /** The border between two songs: the old pipe is empty, and deleted. */
    method SongBorder() returns (ok: bool)
      requires PipesOk() && Conserved() && OutputsOk() && AtNextSong() && queued && nextSong.Some?
      requires pipes[pipe] == []
      modifies this`crossFade, this`pipes, this`pipe, this`queued, this`nextSong, this`song, this`decoderStarting
      modifies this`paused, this`state
      ensures PipesOk() && Conserved() && OutputsOk() && dcPipe == Some(pipe) && !queued && nextSong == None
      ensures pipes[pipe] == old(pipes[dcPipe.value]) && crossFade == Unknown
      ensures ok == (decoder != DecoderFailed)
      ensures ok ==> decoderStarting && song == old(nextSong) && paused == (old(paused) || borderPause)
    {
      hide Cells, OutputCells, PipeCells, One;
      crossFade := Unknown;
      ReplacePipe();
      ok := EnterQueued();
    }

    /** The queued song becomes the current one, paused if the client wants that. */
    method EnterQueued() returns (ok: bool)
      requires PipesOk() && Conserved() && OutputsOk() && queued && nextSong.Some?
      modifies this`queued, this`nextSong, this`song, this`decoderStarting, this`paused, this`state
      ensures PipesOk() && Conserved() && OutputsOk() && !queued && nextSong == None
      ensures ok == (decoder != DecoderFailed)
      ensures ok ==> decoderStarting && song == old(nextSong) && paused == (old(paused) || borderPause)
    {
      hide Cells, OutputCells, PipeCells, One;
      ok := WaitForDecoder();
      if ok && borderPause {
        PauseAtBorder();
      }
    }

    method PauseAtBorder()
      requires OutputsOk()
      modifies this`paused, this`state
      ensures OutputsOk() && paused
    {
      paused, state := true, Paused;
    }

    method ReplacePipe()
      requires PipesOk() && Conserved() && AtNextSong() && pipes[pipe] == []
      modifies this`pipes, this`pipe
      ensures PipesOk() && Conserved() && dcPipe == Some(pipe) && pipe == old(dcPipe.value)
      ensures pipes[pipe] == old(pipes[dcPipe.value])
    {
      hide Cells, OutputCells, One;
      pipes := pipes - {pipe};
      pipe := dcPipe.value;
    }

    // -------------------------------------------------------------------------------------
    // Seeking

    /** A decoder that is starting on the player's own pipe is one the player waits for. */
    ghost predicate StartOk()
      reads this`decoder, this`dcPipe, this`pipe, this`decoderStarting
    {
      decoder == DecoderStarting && dcPipe == Some(pipe) ==> decoderStarting
    }

    method StopAndClear()
      requires PipesOk() && Conserved()
      modifies this`dcPipe, this`decoder, this`hand, this`pipes, this`inUse
      ensures pipe in pipes && pipes[pipe] == [] && (forall a :: a in pipes ==> a == pipe)
      ensures dcPipe == None && DecoderIdle() && hand == None
      ensures multiset(inUse) == multiset(pipes[pipe]) + OutputCells(output)
    {
      hide Cells, OutputCells, PipeCells, One;
      StopDecoder();
      ClearPipe(pipe);
      OwnPipeCells(pipes, pipe);
      OneOrNothing(hand);
    }

    /**
     A SEEK to the queued song would find the decoder at that song already, in a pipe of its
     own, and still starting, while the player does not wait for a start.
     */
    predicate SeekMeetsStart(target: Song)
      reads this`pipe, this`dcPipe, this`decoder, this`dcSong, this`decoderStarting
    {
      AtNextSong() && decoder == DecoderStarting && dcSong == target && !decoderStarting
    }

    /** The decoder is at another song: it is stopped and started again in the player's pipe. */
    method RestartDecoder() returns (ok: bool)
      requires PipesOk() && Conserved() && OutputsOk() && command == Seek && nextSong.Some?
      modifies this`dcSong, this`dcPipe, this`decoder, this`hand, this`pipes, this`inUse
      modifies this`queued, this`nextSong, this`song, this`decoderStarting
      ensures PipesOk() && Conserved() && OutputsOk() && dcPipe == Some(pipe) && !queued && nextSong == None
      ensures dcSong == old(nextSong).value && (calm ==> decoder == DecoderStarting && pipes[pipe] == [])
      ensures if ok then decoderStarting && song == old(nextSong) else decoder == DecoderFailed
    {
      hide Cells, OutputCells, PipeCells, One;
      StopAndClear();
      StartDecoder(pipe);
      ok := WaitForDecoder();
    }

    /** The decoder is at the song already; if in a pipe of its own, that replaces the player's. */
    method TakeOverDecoder() returns (exchanged: bool)
      requires PipesOk() && Conserved() && !DecoderIdle()
      modifies this`pipes, this`pipe, this`inUse, this`queued, this`nextSong
      ensures PipesOk() && Conserved() && dcPipe == Some(pipe) && !queued && nextSong == None
      ensures exchanged == old(AtNextSong()) && (!exchanged ==> pipe == old(pipe))
      ensures pipes[pipe] == old(pipes[dcPipe.value])
    {
      hide Cells, OutputCells, PipeCells, One;
      exchanged := AtNextSong();
      if exchanged {
        ClearPipe(pipe);
        ReplacePipe();
      }
      nextSong, queued := None, false;
    }

    /** Waits until the decoder has left its start, for `patience` turns at most without it. */
    method AwaitStartup(patience: nat) returns (ok: bool)
      requires PipesOk() && Conserved() && OutputsOk() && NothingToPlay(output)
      modifies this`pipes, this`inUse, this`output, this`state, this`paused, this`decoder, this`hand
      modifies this`outputOpen, this`formatDefined, this`decoderStarting
      ensures PipesOk() && Conserved() && OutputsOk()
      ensures NothingToPlay(output)
      ensures if ok then !decoderStarting else decoder == DecoderFailed
      ensures !old(decoderStarting) ==> ok && decoder == old(decoder) && dcPipe == old(dcPipe)
      ensures decoder == DecoderStarting ==> old(decoder) == DecoderStarting && (ok ==> !old(decoderStarting))
    {
      hide Cells, OutputCells, PipeCells, One;
      var left := patience;
      ok := true;
      while ok && decoderStarting
        invariant PipesOk() && Conserved() && OutputsOk() && NothingToPlay(output)
        invariant !ok ==> decoder == DecoderFailed
        invariant !old(decoderStarting) ==> ok && !decoderStarting && decoder == old(decoder)
        invariant decoder == DecoderStarting ==> old(decoder) == DecoderStarting
        invariant decoder == DecoderStarting && old(decoderStarting) ==> decoderStarting
        decreases left, if decoder == DecoderStarting then 1 else 0, if ok && decoderStarting then 1 else 0
      {
        if left > 0 {
          left := left - 1;
        } else if decoder == DecoderStarting {
          decoder := Decoding;
        }
        ok := CheckDecoderStartup();
      }
    }

    /** DecoderControl::Seek: a successful one drops what was decoded before. */
    method SeekInDecoder() returns (ok: bool)
      requires PipesOk() && Conserved() && dcPipe == Some(pipe)
      modifies this`fault, this`decoder, this`hand, this`pipes, this`inUse
      ensures PipesOk() && Conserved() && fault == (old(fault) || old(decoder) == DecoderStarting)
      ensures decoder == DecoderStarting ==> old(decoder) == DecoderStarting
      ensures old(DecoderIdle()) ==> !ok && pipes == old(pipes) && decoder == old(decoder)
      ensures calm && !old(DecoderIdle()) ==> ok && pipes[pipe] == [] && hand == None
    {
      hide Cells, OutputCells, PipeCells, One;
      if decoder == DecoderStarting {
        fault := true;
      }
      ok := *;
      ok := ok || calm;
      if DecoderIdle() || !ok {
        return false;
      }
      if hand.Some? {
        DecoderPush();
      }
      ClearPipe(pipe);
      DecoderSteps();
    }

    /** Brings the decoder to the song to seek in, in the player's pipe. */
    method LocateSong() returns (ok: bool, ghost exchanged: bool)
      requires PipesOk() && Conserved() && OutputsOk() && command == Seek && nextSong.Some?
      modifies this`dcSong, this`dcPipe, this`decoder, this`hand, this`pipes, this`pipe, this`inUse
      modifies this`queued, this`nextSong, this`song, this`decoderStarting
      ensures PipesOk() && Conserved() && OutputsOk() && dcPipe == Some(pipe) && !queued && nextSong == None
      ensures dcSong == old(nextSong).value && (ok ==> decoderStarting || !DecoderIdle())
      ensures !ok ==> decoder == DecoderFailed
      ensures exchanged ==> old(AtNextSong()) && old(nextSong) == Some(old(dcSong))
      ensures exchanged ==> decoderStarting == old(decoderStarting)
      ensures exchanged && decoder == DecoderStarting ==> old(decoder) == DecoderStarting
      ensures old(StartOk()) && ok && !exchanged ==> StartOk()
      ensures calm && old(SeekMeetsStart(nextSong.value)) ==> ok && decoder == DecoderStarting && !decoderStarting
    {
      hide Cells, OutputCells, PipeCells, One;
      DecoderSteps();
      if DecoderIdle() || dcSong != nextSong.value {
        exchanged := false;
        ok := RestartDecoder();
      } else {
        exchanged := TakeOverDecoder();
        ok := true;
      }
    }

    /** Seeks once the decoder has started. */
    method SeekOnceStarted() returns (starting: bool)
      requires PipesOk() && Conserved() && OutputsOk() && NothingToPlay(output) && dcPipe == Some(pipe)
      modifies this`pipes, this`inUse, this`output, this`state, this`paused, this`decoder, this`hand, this`fault
      modifies this`outputOpen, this`formatDefined, this`decoderStarting, this`crossFade, this`buffering
      ensures PipesOk() && Conserved() && OutputsOk() && (fault || StartOk())
      ensures fault == (old(fault) || starting)
      ensures starting ==> !old(StartOk())
      ensures !old(decoderStarting) && old(decoder) == DecoderStarting ==> starting
      ensures calm && !DecoderIdle() ==> pipes[pipe] == [] && buffering && crossFade == Unknown
      ensures NothingToPlay(output)
    {
      hide Cells, OutputCells, PipeCells, One;
      starting := false;
      var patience: int := *;
      var ok := AwaitStartup(if patience > 0 then patience else 0);
      if ok {
        starting := decoder == DecoderStarting;
        ok := SeekInDecoder();
        if ok {
          Rebuffer();
        }
      }
    }

    method Rebuffer()
      modifies this`crossFade, this`buffering
      ensures buffering && crossFade == Unknown
    {
      crossFade, buffering := Unknown, true;
    }

    /**
     The SEEK command. The one assertion that can fail is the one in DecoderControl::Seek. It can
     do so exactly if the SEEK meets a starting decoder; it does not if the decoder happens to
     get ready in time.
     */
    method SeekDecoder()
      requires PipesOk() && Conserved() && OutputsOk() && (fault || StartOk()) && command == Seek && nextSong.Some?
      modifies this`dcSong, this`dcPipe, this`decoder, this`hand, this`pipes, this`pipe, this`inUse
      modifies this`queued, this`nextSong, this`song, this`decoderStarting, this`command
      modifies this`output, this`state, this`paused, this`fault
      modifies this`outputOpen, this`formatDefined, this`crossFade, this`buffering
      ensures Valid() && command == NoCommand && !AtNextSong() && nextSong == None
      ensures dcPipe == Some(pipe) && dcSong == old(nextSong).value && NothingToPlay(output)
      ensures calm && !DecoderIdle() ==> pipes[pipe] == [] && buffering && crossFade == Unknown
      ensures old(fault) ==> fault
      ensures !old(fault) && fault ==> old(SeekMeetsStart(nextSong.value))
      ensures calm && old(SeekMeetsStart(nextSong.value)) ==> fault
      ensures Traced(old(Snap()), Snap())
    {
      hide Cells, OutputCells, PipeCells, One;
      CloseOutputs(true);
      SeekInSong();
      CommandFinished();
    }

    method SeekInSong()
      requires PipesOk() && Conserved() && OutputsOk() && (fault || StartOk()) && command == Seek && nextSong.Some?
      requires NothingToPlay(output)
      modifies this`dcSong, this`dcPipe, this`decoder, this`hand, this`pipes, this`pipe, this`inUse
      modifies this`queued, this`nextSong, this`song, this`decoderStarting
      modifies this`output, this`state, this`paused, this`fault
      modifies this`outputOpen, this`formatDefined, this`crossFade, this`buffering
      ensures PipesOk() && Conserved() && OutputsOk() && (fault || StartOk()) && !queued && nextSong == None
      ensures dcPipe == Some(pipe) && dcSong == old(nextSong).value && NothingToPlay(output)
      ensures calm && !DecoderIdle() ==> pipes[pipe] == [] && buffering && crossFade == Unknown
      ensures old(fault) ==> fault
      ensures !old(fault) && fault ==> old(SeekMeetsStart(nextSong.value))
      ensures calm && old(SeekMeetsStart(nextSong.value)) ==> fault
    {
      hide Cells, OutputCells, PipeCells, One;
      var ok;
      ghost var exchanged;
      ok, exchanged := LocateSong();
      if ok {
        var _ := SeekOnceStarted();
      }
    }

    method CommandFinished()
      modifies this`command
      ensures command == NoCommand
    {
      command := NoCommand;
    }

    // -------------------------------------------------------------------------------------
    // Commands

    function Snap(): Snapshot
      reads this`decoder, this`dcSong, this`dcPipe, this`pipe, this`nextSong, this`paused, this`buffering
      reads this`decoderStarting
    {
      Snapshot(decoder, dcSong, dcPipe, pipe, nextSong, paused, buffering, decoderStarting)
    }

    function Now(): Deck
      requires pipe in pipes
      reads this`decoder, this`dcSong, this`dcPipe, this`pipe, this`nextSong, this`paused, this`buffering
      reads this`decoderStarting, this`pipes, this`output, this`crossFade, this`song, this`queued, this`borderPause
      reads this`outputOpen
    {
      Deck(Snap(), pipes[pipe], output, crossFade, song, queued, borderPause, outputOpen)
    }

    /** What a client does to `next_song` before it sends a command. */
    ghost predicate CommandOk()
      reads this`command, this`nextSong, this`queued
    {
      match command
      case Queue => nextSong.Some? && !queued
      case Seek => nextSong.Some?
      case _ => queued <==> nextSong.Some?
    }

    ghost predicate Ready()
      reads this
    {
      PipesOk() && Conserved() && QueueOk() && OutputsOk() && (fault || StartOk()) && CommandOk()
    }

    /** A client sends a command: QUEUE only if no song is queued, SEEK replaces one that is. */
    method Deliver(c: Command, s: Song)
      requires Valid() && command == NoCommand && (c == Queue ==> nextSong == None)
      modifies this`command, this`nextSong
      ensures Ready() && command == c
      ensures nextSong == if c == Queue || c == Seek then Some(s) else old(nextSong)
      ensures Snap() == old(Snap()).(nextSong := nextSong)
    {
      hide Cells, OutputCells, PipeCells, One;
      command := c;
      if c == Queue || c == Seek {
        nextSong := Some(s);
      }
    }

    /** QUEUE: the three assertions hold. */
    method QueueSong()
      requires Ready() && command == Queue
      modifies this`queued, this`command
      modifies this`dcSong, this`dcPipe, this`decoder, this`hand, this`pipes, this`inUse
      ensures Valid() && command == NoCommand && queued && (AtNextSong() ==> dcSong == nextSong.value)
      ensures calm && !old(DecoderIdle()) ==> Snap() == old(Snap()) && pipes == old(pipes)
      ensures calm && old(DecoderIdle()) ==> AtNextSong() && decoder == DecoderStarting
      ensures Traced(old(Snap()), Snap())
      ensures paused == old(paused) && buffering == old(buffering) && decoderStarting == old(decoderStarting)
    {
      hide Cells, OutputCells, PipeCells, One;
      assert nextSong.Some?;
      assert !queued;
      assert !AtNextSong();
      queued := true;
      CommandFinished();
      StartQueued();
    }

    /** An idle decoder starts with the queued song at once. */
    method StartQueued()
      requires Valid() && queued && !AtNextSong()
      modifies this`dcSong, this`dcPipe, this`decoder, this`hand, this`pipes, this`inUse
      ensures Valid() && (AtNextSong() ==> dcSong == nextSong.value)
      ensures calm && !old(DecoderIdle()) ==> Snap() == old(Snap()) && pipes == old(pipes)
      ensures calm && old(DecoderIdle()) ==> AtNextSong() && decoder == DecoderStarting
    {
      hide Cells, OutputCells, PipeCells, One;
      DecoderSteps();
      if DecoderIdle() {
        StartNext();
      }
    }

    /** PAUSE: without a format yet, the outputs are opened later. */
    method TogglePause()
      requires PipesOk() && Conserved() && OutputsOk()
      modifies this`paused, this`state, this`output, this`inUse, this`outputOpen
      ensures PipesOk() && Conserved() && OutputsOk() && (!old(paused) ==> paused)
      ensures !old(paused) ==> output == old(output) && outputOpen == old(outputOpen)
      ensures old(paused) && paused ==> formatDefined && !outputOpen && !calm
      ensures old(paused) && !paused && formatDefined ==> outputOpen
    {
      hide Cells, OutputCells, PipeCells, One;
      if !paused {
        paused, state := true, Paused;
      } else if !formatDefined {
        paused, state := false, Playing;
      } else {
        paused := false;
        var _ := OpenOutput();
      }
    }

    method PauseCommand()
      requires Valid()
      modifies this`paused, this`state, this`output, this`inUse, this`outputOpen, this`command
      ensures Valid() && command == NoCommand && (!old(paused) ==> paused)
      ensures calm ==> Snap() == old(Snap()).(paused := !old(paused))
      ensures Traced(old(Snap()), Snap()) && (!old(paused) ==> Snap() == old(Snap()).(paused := true))
    {
      hide Cells, OutputCells, PipeCells, One;
      TogglePause();
      CommandFinished();
    }

    method RefreshCommand()
      requires Valid()
      modifies this`output, this`inUse, this`command
      ensures Valid() && command == NoCommand
      ensures Snap() == old(Snap())
    {
      hide Cells, OutputCells, PipeCells, One;
      if outputOpen && !paused {
        var _ := CheckOutputs();
      }
      CommandFinished();
    }

    /** CANCEL: too late for a song that is already playing, which is then stopped. */
    method CancelQueued()
      requires Valid() && command == Cancel
      modifies this`command, this`nextSong, this`queued
      modifies this`dcPipe, this`decoder, this`hand, this`pipes, this`inUse
      ensures Valid() && command == (if old(nextSong) == None then Stop else NoCommand)
      ensures nextSong == None && !AtNextSong() && pipes[pipe] == old(pipes[pipe])
      ensures if old(AtNextSong()) then DecoderIdle() && dcPipe == None
              else decoder == old(decoder) && dcPipe == old(dcPipe) && pipes == old(pipes)
      ensures Traced(old(Snap()), Snap())
    {
      hide Cells, OutputCells, PipeCells, One;
      if nextSong == None {
        command := Stop;
        return;
      }
      DropQueued();
      CommandFinished();
    }

    /** The queued song is forgotten, with whatever was decoded of it. */
    method DropQueued()
      requires Valid()
      modifies this`nextSong, this`queued, this`dcPipe, this`decoder, this`hand, this`pipes, this`inUse
      ensures Valid() && nextSong == None && !AtNextSong() && pipes[pipe] == old(pipes[pipe])
      ensures if old(AtNextSong()) then DecoderIdle() && dcPipe == None
              else decoder == old(decoder) && dcPipe == old(dcPipe) && pipes == old(pipes)
    {
      hide Cells, OutputCells, PipeCells, One;
      if AtNextSong() {
        StopDecoder();
      }
      nextSong, queued := None, false;
    }

    method ProcessCommand()
      requires Ready()
      modifies this
      ensures Valid() && (command == NoCommand || Quits(command)) && borderPause == old(borderPause)
      ensures old(command) == Queue || old(command) == Pause || old(command) == Seek ==> command == NoCommand
      ensures old(fault) ==> fault
      ensures !old(fault) && fault ==> old(command) == Seek && old(SeekMeetsStart(nextSong.value))
      ensures calm && old(command) == Seek && old(SeekMeetsStart(nextSong.value)) ==> fault
      ensures old(command) == Seek || old(command) == Cancel ==> nextSong == None
      ensures old(command) == Seek ==> dcPipe == Some(pipe) && dcSong == old(nextSong).value && NothingToPlay(output)
      ensures old(command) == Pause && calm ==> paused == !old(paused)
      ensures Quits(old(command)) ==> command == old(command)
      ensures old(command) == Cancel ==> !AtNextSong() && command == (if old(nextSong) == None then Stop else NoCommand)
      ensures Traced(old(Snap()), Snap())
      ensures old(command) == NoCommand ==> Now() == old(Now()) && command == NoCommand
      ensures old(command) == Pause && !old(paused) ==> Snap() == old(Snap()).(paused := true)
      ensures calm && old(command) == Queue && old(DecoderIdle()) ==>
                && AtNextSong() && decoder == DecoderStarting && Some(dcSong) == old(nextSong)
                && paused == old(paused) && buffering == old(buffering) && decoderStarting == old(decoderStarting)
    {
      hide Cells, OutputCells, PipeCells, One;
      hide SeekMeetsStart, Traced;
      if command == Queue {
        QueueSong();
      } else if command == Pause {
        PauseCommand();
      } else if command == Seek {
        SeekDecoder();
      } else {
        OtherCommand();
      }
    }

    method OtherCommand()
      requires Valid() && command != Queue && command != Pause && command != Seek
      modifies this`command, this`nextSong, this`queued, this`output
      modifies this`dcPipe, this`decoder, this`hand, this`pipes, this`inUse
      ensures Valid() && (command == NoCommand || Quits(command))
      ensures old(command) == Cancel ==> nextSong == None && !AtNextSong()
      ensures old(command) == Cancel ==> command == (if old(nextSong) == None then Stop else NoCommand)
      ensures Quits(old(command)) ==> command == old(command)
      ensures Traced(old(Snap()), Snap())
      ensures old(command) == NoCommand ==> Now() == old(Now()) && command == NoCommand
    {
      hide Cells, OutputCells, PipeCells, One;
      if command == Cancel {
        CancelQueued();
      } else if command == Refresh {
        RefreshCommand();
      } else if command == UpdateAudio {
        CommandFinished();
      }
    }

    // -------------------------------------------------------------------------------------
    // The loop

    /** Waiting for the buffer to fill up, with silence for outputs that run dry. */
    method Buffer(enough: bool) returns (go: bool, quit: bool)
      requires Valid()
      modifies this`buffering, this`output, this`inUse, this`decoder, this`hand, this`pipes
      ensures Valid() && (go ==> !quit) && go == (enough || DecoderIdle()) && buffering == (old(buffering) && !go)
      ensures calm ==> !quit && decoder == old(decoder) && pipes == old(pipes)
      ensures go ==> output == old(output)
      ensures calm && !go && !paused && outputOpen ==> NotDry(output)
    {
      hide Cells, OutputCells, PipeCells, One;
      DecoderSteps();
      if enough || DecoderIdle() {
        buffering := false;
        return true, false;
      }
      var ok := true;
      if !paused && outputOpen {
        ok := SilenceIfDry();
      }
      return false, !ok;
    }

    method SilenceIfDry() returns (ok: bool)
      requires PipesOk() && Conserved() && OutputsOk() && outputOpen
      modifies this`output, this`inUse
      ensures PipesOk() && Conserved() && OutputsOk() && (calm ==> ok && NotDry(output))
      ensures |output.value| <= |old(output).value| || |output.value| <= 4
    {
      hide Cells, OutputCells, PipeCells, One;
      ok := true;
      var n := CheckOutputs();
      if n < 4 {
        ok := SendSilence();
      }
    }

    /** The decoder has finished the current song: it goes on with the queued one. */
    method AdvanceDecoder()
      requires Valid()
      modifies this`dcSong, this`dcPipe, this`decoder, this`hand, this`pipes, this`inUse
      ensures Valid() && old(pipes[pipe]) <= pipes[pipe] && (calm ==> pipes[pipe] == old(pipes[pipe]))
      ensures old(DecoderIdle() && queued && dcPipe == Some(pipe)) ==> AtNextSong() && Some(dcSong) == nextSong
      ensures calm ==> if old(DecoderIdle() && queued && dcPipe == Some(pipe)) then decoder == DecoderStarting
                       else Snap() == old(Snap()) && pipes == old(pipes)
      ensures Traced(old(Snap()), Snap())
      ensures calm && !old(DecoderIdle()) ==> Snap() == old(Snap())
    {
      hide Cells, OutputCells, PipeCells, One;
      DecoderSteps();
      SameLength(old(pipes), pipes, dcPipe, pipe);
      hide Extends;
      if DecoderIdle() && queued && dcPipe == Some(pipe) {
        StartNext();
      }
    }

    /** Decides once per song whether to fade into the next one; `n` is the computed length. */
    method DecideCrossFade(n: nat)
      modifies this`crossFade, this`crossFading, this`crossFadeChunks
      ensures var due := !borderPause && AtNextSong() && old(crossFade) == Unknown && decoder != DecoderStarting;
              && crossFade == (if !due then old(crossFade) else if n > 0 then Enabled else Disabled)
              && crossFadeChunks == (if due then n else old(crossFadeChunks))
              && crossFading == (old(crossFading) && !(due && n > 0))
    {
      if !borderPause && AtNextSong() && crossFade == Unknown && decoder != DecoderStarting {
        crossFadeChunks := n;
        if n > 0 {
          crossFade, crossFading := Enabled, false;
        } else {
          crossFade := Disabled;
        }
      }
    }

    /** A chunk is played; `c` describes it and the one that may be faded in. */
    method PlayOn(c: Chunks) returns (ghost played: bool, ghost p: Played)
      requires Valid() && !paused && !decoderStarting && pipes[pipe] != []
      modifies this`pipes, this`inUse, this`output, this`state, this`paused, this`decoder, this`hand
      modifies this`crossFade, this`crossFading, this`crossFadeChunks
      ensures Valid() && output.Some? && Took(old(pipes[pipe]), pipes[pipe], played, p)
      ensures p.other.Some? ==> old(Fading())
      ensures |old(output).value| < 64 && !old(Fading()) ==> played
      ensures Sent(old(output).value, output.value, if played && !paused && !c.empty then [p] else [])
      ensures calm ==> !paused && (played ==> pipes[pipe] == old(pipes[pipe])[1..])
    {
      hide Cells, OutputCells, PipeCells, One;
      var go;
      go, p := PlayNextChunk(c.empty, c.otherEmpty);
      played := go;
    }

    /** The pipe is empty: the outputs play on, the next song begins, or the end is reached. */
    method Underrun() returns (quit: bool)
      requires Valid() && !paused && !decoderStarting && pipes[pipe] == []
      modifies this`output, this`inUse, this`decoder, this`hand, this`pipes
      modifies this`crossFade, this`pipe, this`queued, this`nextSong, this`song, this`decoderStarting
      modifies this`paused, this`state
      ensures Valid()
      ensures Traced(old(Snap()), Snap())
      ensures NothingToPlay(old(output)) && old(AtNextSong()) ==> quit == (decoder == DecoderFailed)
      ensures NothingToPlay(old(output)) && old(AtNextSong()) && !quit ==>
                EntersNext(old(dcPipe), old(nextSong), old(paused))
      ensures NothingToPlay(old(output)) && !old(AtNextSong()) && calm ==> quit == old(DecoderIdle())
      ensures calm && quit ==> old(DecoderIdle())
      ensures NothingToPlay(old(output)) && !old(AtNextSong()) && calm && !quit ==> NotDry(output)
      ensures pipe != old(pipe) || quit ==> NothingToPlay(output)
    {
      hide Cells, OutputCells, PipeCells, One, Traced;
      var n := CheckOutputs();
      if n > 0 {
        DecoderSteps();
        SameSongs(old(Snap()), Snap());
        quit := false;
      } else {
        quit := SongPlayed();
      }
    }

    /** All of the song has been played. */
    method SongPlayed() returns (quit: bool)
      requires Valid() && !paused && !decoderStarting && pipes[pipe] == [] && NothingToPlay(output)
      modifies this`output, this`inUse, this`decoder, this`hand, this`pipes
      modifies this`crossFade, this`pipe, this`queued, this`nextSong, this`song, this`decoderStarting
      modifies this`paused, this`state
      ensures Valid() && Traced(old(Snap()), Snap())
      ensures old(AtNextSong()) ==> quit == (decoder == DecoderFailed)
      ensures old(AtNextSong()) && !quit ==> EntersNext(old(dcPipe), old(nextSong), old(paused))
      ensures !old(AtNextSong()) && calm ==> quit == old(DecoderIdle()) && (!quit ==> NotDry(output))
      ensures calm && quit ==> old(DecoderIdle())
      ensures pipe != old(pipe) || quit ==> NothingToPlay(output)
    {
      hide Cells, OutputCells, PipeCells, One;
      if AtNextSong() {
        quit := NextSongDue();
      } else {
        quit := DryOrDone();
      }
    }

    /** The song that was next is the current one, in the pipe that was the decoder's. */
    predicate EntersNext(was: Option<Address>, next: Option<Song>, wasPaused: bool)
      reads this`song, this`pipe, this`dcPipe, this`nextSong, this`decoderStarting, this`paused, this`crossFade
      reads this`borderPause
    {
      && song == next && nextSong == None && was == dcPipe == Some(pipe) && decoderStarting
      && crossFade == Unknown && paused == (wasPaused || borderPause)
    }

    method NextSongDue() returns (quit: bool)
      requires Valid() && AtNextSong() && pipes[pipe] == []
      modifies this`decoder, this`hand, this`pipes, this`inUse
      modifies this`crossFade, this`pipe, this`queued, this`nextSong, this`song, this`decoderStarting
      modifies this`paused, this`state
      ensures Valid() && !AtNextSong() && nextSong == None && quit == (decoder == DecoderFailed)
      ensures !quit ==> EntersNext(old(dcPipe), old(nextSong), old(paused))
      ensures calm ==> decoder == old(decoder)
    {
      hide Cells, OutputCells, PipeCells, One;
      DecoderSteps();
      var ok := SongBorder();
      quit := !ok;
    }

    method DryOrDone() returns (quit: bool)
      requires Valid()
      modifies this`output, this`inUse, this`decoder, this`hand, this`pipes
      ensures Valid()
      ensures calm ==> quit == (old(DecoderIdle()) && old(pipes[pipe]) == [])
      ensures calm && !old(DecoderIdle()) && outputOpen ==> NotDry(output)
      ensures quit ==> output == old(output)
    {
      hide Cells, OutputCells, PipeCells, One;
      DecoderSteps();
      quit := false;
      if DecoderIdle() {
        quit := pipes[pipe] == [];
      } else if outputOpen {
        var ok := SendSilence();
        quit := !ok;
      }
    }

    /** One turn of the loop behind the command; `fill` and `fade` are what the source computes. */
    method Turn(fill: bool, fade: nat, c: Chunks) returns (quit: bool)
      requires Valid()
      modifies this
      ensures Valid() && command == old(command) && fault == old(fault) && borderPause == old(borderPause)
      ensures Traced(old(Snap()), Snap())
      ensures calm && old(Waits(fill)) ==>
                !quit && Snap() == old(Snap()) && (!paused && outputOpen ==> NotDry(output))
      ensures calm && !old(Waits(fill)) ==> !buffering && GoesOn(old(Now()), Now(), fade, c, quit)
    {
      hide Cells, OutputCells, PipeCells, One;
      hide Traced, GoesOn;
      if !buffering {
        quit := TurnFilled(fade, c);
      } else {
        quit := TurnBuffering(fill, fade, c);
      }
    }

    /** The buffer is not full enough yet, and the decoder is at it. */
    predicate Waits(fill: bool)
      reads this`buffering, this`decoder
    {
      buffering && !fill && !DecoderIdle()
    }

    method TurnBuffering(fill: bool, fade: nat, c: Chunks) returns (quit: bool)
      requires Valid() && buffering
      modifies this`dcSong, this`dcPipe, this`decoder, this`hand, this`pipes, this`pipe, this`inUse, this`output
      modifies this`crossFade, this`crossFading, this`crossFadeChunks, this`outputOpen, this`formatDefined
      modifies this`queued, this`nextSong, this`song, this`decoderStarting, this`paused, this`state, this`buffering
      ensures Valid() && Traced(old(Snap()), Snap())
      ensures calm && old(Waits(fill)) ==>
                !quit && Snap() == old(Snap()) && (!paused && outputOpen ==> NotDry(output))
      ensures calm && !old(Waits(fill)) ==> !buffering && GoesOn(old(Now()), Now(), fade, c, quit)
    {
      hide Cells, OutputCells, PipeCells, One;
      hide Traced, GoesOn, NotDry;
      var go;
      go, quit := FillBuffer(fill);
      if go {
        ghost var mid := Now();
        quit := TurnFilled(fade, c);
        TracedTransitive(old(Snap()), mid.snap, Snap());
        if calm {
          GoesOnFilled(old(Now()), mid, Now(), fade, c, quit);
        }
      }
    }

    method FillBuffer(fill: bool) returns (go: bool, quit: bool)
      requires Valid() && buffering
      modifies this`buffering, this`output, this`inUse, this`decoder, this`hand, this`pipes
      ensures Valid() && Traced(old(Snap()), Snap()) && (go ==> !buffering)
      ensures calm ==> !quit && go == !old(Waits(fill))
      ensures calm ==> if go then Now() == old(Now()).Filled() else Snap() == old(Snap())
      ensures calm && !go && !paused && outputOpen ==> NotDry(output)
    {
      hide Cells, OutputCells, PipeCells, One;
      go, quit := Buffer(fill);
      SameSongs(old(Snap()), Snap());
    }

    /** The part behind the buffering. */
    method TurnFilled(fade: nat, c: Chunks) returns (quit: bool)
      requires Valid() && !buffering
      modifies this`dcSong, this`dcPipe, this`decoder, this`hand, this`pipes, this`pipe, this`inUse, this`output
      modifies this`crossFade, this`crossFading, this`crossFadeChunks, this`outputOpen, this`formatDefined
      modifies this`queued, this`nextSong, this`song, this`decoderStarting, this`paused, this`state
      ensures Valid() && Traced(old(Snap()), Snap())
      ensures calm ==> GoesOn(old(Now()), Now(), fade, c, quit)
    {
      hide Cells, OutputCells, PipeCells, One;
      hide Traced, GoesOn;
      if decoderStarting {
        quit := Startup(fade, c);
      } else {
        quit := PlayTurn(fade, c);
      }
    }

    method PlayTurn(fade: nat, c: Chunks) returns (quit: bool)
      requires Valid() && !decoderStarting && !buffering
      modifies this`dcSong, this`dcPipe, this`decoder, this`hand, this`pipes, this`pipe, this`inUse, this`output
      modifies this`crossFade, this`crossFading, this`crossFadeChunks
      modifies this`queued, this`nextSong, this`song, this`decoderStarting, this`paused, this`state
      ensures Valid() && Traced(old(Snap()), Snap())
      ensures calm ==> GoesOn(old(Now()), Now(), fade, c, quit)
    {
      hide Cells, OutputCells, PipeCells, One;
      hide Traced, GoesOn;
      LookAhead(fade);
      ghost var mid := Now();
      quit := PlaySome(c);
      TracedTransitive(old(Snap()), mid.snap, Snap());
      if calm {
        GoesOnAhead(old(Now()), mid, Now(), fade, c, quit);
      }
    }

    method LookAhead(fade: nat)
      requires Valid() && !decoderStarting
      modifies this`dcSong, this`dcPipe, this`decoder, this`hand, this`pipes, this`inUse
      modifies this`crossFade, this`crossFading, this`crossFadeChunks
      ensures Valid()
      ensures Traced(old(Snap()), Snap())
      ensures calm && !old(DecoderIdle()) ==> Snap() == old(Snap())
      ensures calm ==> pipes[pipe] == old(pipes[pipe])
      ensures fade == 0 && old(crossFade) != Enabled ==> crossFade != Enabled
      ensures calm ==>
                if old(DecoderIdle() && queued && dcPipe == Some(pipe))
                then decoder == DecoderStarting && AtNextSong() && Some(dcSong) == nextSong
                else Snap() == old(Snap())
    {
      hide Cells, OutputCells, PipeCells, One;
      AdvanceDecoder();
      DecideCrossFade(fade);
    }

    method Startup(fade: nat, c: Chunks) returns (quit: bool)
      requires Valid() && decoderStarting && !buffering
      modifies this`pipes, this`inUse, this`output, this`state, this`paused, this`decoder, this`hand
      modifies this`outputOpen, this`formatDefined, this`decoderStarting
      ensures Valid() && Traced(old(Snap()), Snap())
      ensures calm ==> GoesOn(old(Now()), Now(), fade, c, quit)
    {
      hide Cells, OutputCells, PipeCells, One;
      var ok := CheckDecoderStartup();
      quit := !ok;
    }

    method PlaySome(c: Chunks) returns (quit: bool)
      requires Valid() && !decoderStarting && !buffering
      modifies this`output, this`inUse, this`decoder, this`hand, this`pipes
      modifies this`crossFade, this`crossFading, this`crossFadeChunks
      modifies this`pipe, this`queued, this`nextSong, this`song, this`decoderStarting, this`paused, this`state
      ensures Valid()
      ensures Traced(old(Snap()), Snap())
      ensures old(paused) ==> !quit && Snap() == old(Snap())
      ensures calm ==> GoesOn(old(Now()), Now(), 0, c, quit)
      ensures pipe != old(pipe) || quit ==> NothingToPlay(output)
    {
      hide Cells, OutputCells, PipeCells, One;
      quit := false;
      if paused {
        return;
      }
      if pipes[pipe] != [] {
        var _, _ := PlayOn(c);
      } else {
        quit := Underrun();
      }
    }

    // -------------------------------------------------------------------------------------
    // The thread

    /** Between two runs only the outputs may hold chunks, and there is no pipe. */
    ghost predicate Resting()
      reads this
    {
      && pipes == map[] && dcPipe == None && hand == None && DecoderIdle()
      && state == Stopped && nextSong == None && multiset(inUse) == OutputCells(output)
    }

    /** The start of a run, for a QUEUE or SEEK command that found the player stopped. */
    method Begin(s: Song, c: Command, format: bool) returns (ok: bool)
      requires Resting() && (c == Queue || c == Seek)
      modifies this
      ensures command == NoCommand && nextSong == None && !fault
      ensures if ok then Valid() && song == Some(s) && state == Playing && !AtNextSong() else Resting()
      ensures calm ==> ok && decoder == DecoderStarting && decoderStarting && buffering && !outputOpen && !paused
    {
      hide Cells, OutputCells, PipeCells, One;
      Launch(s, c, format);
      ok := EnterFirstSong();
      CommandFinished();
    }

    method Launch(s: Song, c: Command, format: bool)
      requires Resting()
      modifies this
      ensures PipesOk() && Conserved() && dcPipe == Some(pipe) && nextSong == Some(s) && queued
      ensures !paused && !outputOpen && !fault && buffering && (calm ==> decoder == DecoderStarting)
    {
      hide Cells, OutputCells, PipeCells, One;
      Construct(format);
      SetUp(s, c);
      StartDecoder(pipe);
    }

    method EnterFirstSong() returns (ok: bool)
      requires PipesOk() && Conserved() && dcPipe == Some(pipe) && nextSong.Some? && queued
      requires !paused && !outputOpen
      modifies this`queued, this`nextSong, this`song, this`decoderStarting, this`state
      modifies this`dcPipe, this`decoder, this`hand, this`pipes, this`inUse
      ensures nextSong == None
      ensures ok == (old(decoder) != DecoderFailed)
      ensures if ok then Valid() && song == old(nextSong) && state == Playing && decoderStarting else Resting()
      ensures ok ==> decoder == old(decoder) && dcPipe == old(dcPipe)
    {
      hide Cells, OutputCells, PipeCells, One;
      ok := WaitForDecoder();
      if ok {
        state := Playing;
      } else {
        GiveUp();
      }
    }

    /** A new Player object; its audio format is not initialised. */
    method Construct(format: bool)
      modifies this`buffering, this`decoderStarting, this`paused, this`queued, this`outputOpen, this`formatDefined
      modifies this`song, this`crossFade, this`crossFading, this`crossFadeChunks, this`fault
      ensures !decoderStarting && !paused && queued && !outputOpen && formatDefined == format && song == None && !fault
      ensures buffering
    {
      buffering, decoderStarting, paused, queued, outputOpen := true, false, false, true, false;
      formatDefined, song, crossFade, crossFading, crossFadeChunks := format, None, Unknown, false, 0;
      fault := false;
    }

    method SetUp(s: Song, c: Command)
      requires Resting()
      modifies this`command, this`nextSong, this`pipe, this`pipes
      ensures command == c && nextSong == Some(s) && pipes == map[pipe := []]
      ensures multiset(inUse) == multiset(pipes[pipe]) + OutputCells(output)
    {
      hide Cells, OutputCells;
      command, nextSong := c, Some(s);
      pipe := 0;
      pipes := map[pipe := []];
    }

    /** The first song could not be started. */
    method GiveUp()
      requires PipesOk() && Conserved() && dcPipe == Some(pipe) && nextSong == None
      modifies this`dcPipe, this`decoder, this`hand, this`pipes, this`inUse, this`state
      ensures Resting()
    {
      hide Cells, OutputCells, PipeCells, One;
      StopDecoder();
      DeletePipe();
      state := Stopped;
    }

    /** The player's pipe is deleted; it is empty. */
    method DeletePipe()
      requires PipesOk() && Conserved() && dcPipe == None && pipes[pipe] == []
      modifies this`pipes
      ensures pipes == map[] && multiset(inUse) == OutputCells(output)
    {
      hide Cells, OutputCells;
      OwnPipeCells(pipes, pipe);
      OneOrNothing(hand);
      pipes := pipes - {pipe};
    }

    /** The end of a run: both pipes are emptied and deleted. */
    method End()
      requires Valid()
      modifies this`dcPipe, this`decoder, this`hand, this`pipes, this`inUse, this`nextSong, this`queued, this`state
      modifies this`song
      ensures Resting()
    {
      hide Cells, OutputCells, PipeCells, One;
      StopDecoder();
      ClearPipe(pipe);
      DeletePipe();
      song := None;
      if queued {
        assert nextSong.Some?;
        nextSong := None;
      }
      state := Stopped;
    }

    method CancelOutputs()
      requires Valid()
      modifies this`output, this`inUse
      ensures Valid() && NothingToPlay(output)
    {
      hide Cells, OutputCells, PipeCells, One;
      CloseOutputs(true);
    }

    /** One turn with whatever a client does at its head. */
    method TurnWith(i: Input) returns (quit: bool)
      requires Valid() && command == NoCommand && !fault
      modifies this
      ensures Valid() && (command == NoCommand || (quit && Quits(command)))
      ensures fault ==> i.command == Seek && old(SeekMeetsStart(i.song))
      ensures calm && i.command == Seek && old(SeekMeetsStart(i.song)) ==> fault
      ensures SongsTraced(i, old(Snap()), Snap())
      ensures Quits(i.command) || (i.command == Cancel && old(nextSong) == None) ==> quit && NothingToPlay(output)
      ensures calm && i.command == NoCommand && !old(Waits(i.fill)) ==>
                GoesOn(old(Now()).(borderPause := i.borderPause), Now(), i.fade, i.chunks, quit)
    {
      hide Cells, OutputCells, PipeCells, One;
      hide GoesOn, Traced, SongsTraced;
      HandleInput(i);
      ghost var mid := Snap();
      if Quits(command) {
        CancelOutputs();
        return true;
      }
      quit := Turn(i.fill, i.fade, i.chunks);
      SongsTracedOn(i, old(Snap()), mid, Snap());
    }

    /** A client sends its command; a QUEUE has to wait while a song is queued. */
    method Receive(i: Input)
      requires Valid() && command == NoCommand
      modifies this`command, this`nextSong, this`borderPause
      ensures Ready() && borderPause == i.borderPause
      ensures command == if i.command == Queue && old(nextSong).Some? then NoCommand else i.command
      ensures nextSong == if command == Queue || command == Seek then Some(i.song) else old(nextSong)
      ensures command == NoCommand ==> Now() == old(Now()).(borderPause := i.borderPause)
      ensures Snap() == old(Snap()).(nextSong := nextSong)
    {
      hide Cells, OutputCells, PipeCells, One;
      borderPause := i.borderPause;
      Deliver(if i.command == Queue && nextSong.Some? then NoCommand else i.command, i.song);
    }

    method HandleInput(i: Input)
      requires Valid() && command == NoCommand && !fault
      modifies this
      ensures Valid() && (command == NoCommand || Quits(command))
      ensures i.command == Queue || i.command == Pause || i.command == Seek ==> command == NoCommand
      ensures fault ==> i.command == Seek && old(SeekMeetsStart(i.song))
      ensures calm && i.command == Seek && old(SeekMeetsStart(i.song)) ==> fault
      ensures SongsTraced(i, old(Snap()), Snap())
      ensures i.command == NoCommand ==> Now() == old(Now()).(borderPause := i.borderPause) && command == NoCommand
      ensures i.command == Seek ==> dcPipe == Some(pipe) && dcSong == i.song && NothingToPlay(output)
      ensures i.command == Pause && calm ==> paused == !old(paused)
      ensures Quits(i.command) ==> command == i.command
      ensures i.command == Cancel ==> nextSong == None && !AtNextSong() && (command == Stop <==> old(nextSong) == None)
      ensures i.command == Pause && !old(paused) ==> Snap() == old(Snap()).(paused := true)
      ensures calm && i.command == Queue && old(nextSong) == None && old(DecoderIdle()) ==>
                && AtNextSong() && decoder == DecoderStarting && dcSong == i.song
                && paused == old(paused) && buffering == old(buffering) && decoderStarting == old(decoderStarting)
    {
      hide Cells, OutputCells, PipeCells, One;
      hide Traced, SongsTraced;
      Receive(i);
      ghost var mid := Snap();
      ProcessCommand();
      DeliveredTraced(i, old(Snap()), mid, Snap());
    }

    /**
     A whole run for any script of client commands, up to the first failed assertion; the
     commands may end it, and so may the end of the script. The assertion fails at most at a
     SEEK to a song that was queued before.
     */
    method Run(s: Song, c: Command, format: bool, script: seq<Input>)
      requires Resting() && (c == Queue || c == Seek)
      modifies this
      ensures fault || Resting()
      ensures fault ==> exists k :: 0 <= k < |script| && script[k].command == Seek &&
                                    QueuedBefore(script, k, script[k].song)
    {
      hide Cells, OutputCells, PipeCells, One, Resting;
      var ok := Begin(s, c, format);
      if !ok {
        return;
      }
      for i := 0 to |script|
        invariant Valid() && command == NoCommand && !fault
        invariant AtNextSong() ==> QueuedBefore(script, i, dcSong)
        invariant nextSong.Some? ==> QueuedBefore(script, i, nextSong.value)
      {
        ghost var before := Snap();
        var quit := TurnWith(script[i]);
        if fault {
          return;
        }
        StillQueued(script, i, before, Snap());
        if quit {
          break;
        }
      }
      End();
    }

    /** CLOSE_AUDIO while stopped: the outputs are released, and then no chunk is in use. */
    method ReleaseOutputs()
      requires Resting()
      modifies this`output, this`inUse, this`command
      ensures Resting() && inUse == {} && output == None && command == NoCommand
    {
      GiveBack(inUse, multiset{}, OutputCells(output));
      inUse := inUse - Elements(OutputCells(output));
      output := None;
      NothingInUse(inUse);
      CommandFinished();
    }
  }

  /** Whether the next chunk, and the first one of the next song, have no audio. */
  datatype Chunks = Chunks(empty: bool, otherEmpty: bool)

  /** What a client and the decoder's progress do to one turn of the loop. */
  datatype Input = Input(command: Command, song: Song, borderPause: bool, fill: bool, fade: nat, chunks: Chunks)

  lemma NothingInUse(inUse: set<Chunk>)
    requires multiset(inUse) == multiset{}
    ensures inUse == {}
  {
    assert forall c :: c in inUse ==> c in multiset(inUse);
  }

  predicate Quits(c: Command) {
    c == Stop || c == Exit || c == CloseAudio
  }

  lemma OwnPipeCells(pipes: Pipes, pipe: Address)
    requires pipe in pipes && pipes[pipe] == []
    ensures PipeCells(pipes, pipe, None) == multiset(pipes[pipe]) == multiset{}
  {
  }

  /** What decides about the songs. */
  datatype Snapshot = Snapshot(
    decoder: DecoderState, dcSong: Song, dcPipe: Option<Address>, pipe: Address, nextSong: Option<Song>,
    paused: bool, buffering: bool, decoderStarting: bool)
  {
    predicate AtNextSong() { dcPipe.Some? && dcPipe.value != pipe }
  }

  /** What decides about a turn of the loop; `own` is what the player's pipe holds. */
  datatype Deck = Deck(
    snap: Snapshot, own: seq<Chunk>, output: Option<seq<Played>>, crossFade: CrossFade, song: Option<Song>,
    queued: bool, borderPause: bool, outputOpen: bool)
  {
    function Filled(): Deck { this.(snap := snap.(buffering := false)) }

    predicate Idle() { snap.decoder == DecoderStopped || snap.decoder == DecoderFailed }

    /** Playing goes on, and a chunk is there and wanted. */
    predicate PlaysOn() {
      !snap.paused && !snap.decoderStarting && own != [] && output.Some? && |output.value| < 64
    }

    /** Everything of the current song has been played. */
    predicate PlayedAll() {
      !snap.paused && !snap.decoderStarting && own == [] && NothingToPlay(output)
    }

    /** No other song is decoded, nor about to be. */
    predicate NoneAhead() {
      !snap.AtNextSong() && !(Idle() && queued && snap.dcPipe == Some(snap.pipe))
    }
  }

  /** The first chunk has gone to the outputs, unless it has no audio. */
  ghost predicate PlayedOne(before: Deck, after: Deck, c: Chunks) {
    && before.own != [] && after.own == before.own[1..] && after.snap.pipe == before.snap.pipe
    && before.output.Some? && after.output.Some? && !after.snap.paused
    && Sent(before.output.value, after.output.value, if c.empty then [] else [Played(before.own[0], None)])
  }

  /** The song that was next is the current one, in the pipe that was the decoder's. */
  predicate NextEntered(before: Deck, after: Deck) {
    && after.song == before.snap.nextSong && after.snap.nextSong == None
    && before.snap.dcPipe == after.snap.dcPipe == Some(after.snap.pipe) && after.snap.decoderStarting
    && after.crossFade == Unknown && after.snap.paused == (before.snap.paused || before.borderPause)
  }

  /** The turn waits for the decoder to get ready, and opens the outputs then. */
  predicate StartsUp(before: Deck, after: Deck, quit: bool) {
    && quit == (before.snap.decoder == DecoderFailed) && after.snap.decoder == before.snap.decoder
    && (before.snap.decoder == DecoderStarting ==> after.snap == before.Filled().snap)
    && (!after.snap.decoderStarting && before.outputOpen ==> NothingToPlay(after.output))
    && (!quit && before.snap.decoder != DecoderStarting && NothingToPlay(before.output) ==>
        after.snap == before.Filled().snap.(decoderStarting := false) && (!before.snap.paused ==> after.outputOpen))
    && (before.snap.decoder == Decoding && !before.outputOpen && !before.snap.paused ==>
        after.snap == before.Filled().snap.(decoderStarting := false) && after.outputOpen)
  }

  /**
   What one turn does if nothing interferes: it plays one chunk, enters the next song when all
   of the current one is played, and ends the run only if no song is left.
   */
  ghost predicate GoesOn(before: Deck, after: Deck, fade: nat, c: Chunks, quit: bool) {
    && (quit ==> before.Idle())
    && (before.snap.paused && !before.snap.decoderStarting && !before.Idle() ==>
        !quit && after.snap == before.Filled().snap)
    && (before.snap.decoderStarting ==> StartsUp(before, after, quit))
    && (fade == 0 && before.crossFade != Enabled && before.PlaysOn() ==> !quit && PlayedOne(before, after, c))
    && (before.PlayedAll() && before.snap.AtNextSong() ==>
        quit == (after.snap.decoder == DecoderFailed) && (!quit ==> NextEntered(before, after)))
    && (before.PlayedAll() && before.NoneAhead() ==> quit == before.Idle() && (!quit ==> NotDry(after.output)))
    && (after.snap.pipe != before.snap.pipe || (quit && !before.snap.decoderStarting) ==> NothingToPlay(after.output))
  }

  /** The decoder goes on with the queued song, and the cross-fade may have been decided on. */
  predicate LooksAhead(before: Deck, after: Deck, fade: nat) {
    && (fade == 0 && before.crossFade != Enabled ==> after.crossFade != Enabled)
    && (if before.Idle() && before.queued && before.snap.dcPipe == Some(before.snap.pipe) then
          && after.snap.AtNextSong() && Some(after.snap.dcSong) == before.snap.nextSong
          && after == before.(crossFade := after.crossFade,
                              snap := before.snap.(decoder := DecoderStarting, dcSong := after.snap.dcSong,
                                                   dcPipe := after.snap.dcPipe))
        else after == before.(crossFade := after.crossFade))
  }

  lemma GoesOnAhead(before: Deck, mid: Deck, after: Deck, fade: nat, c: Chunks, quit: bool)
    requires LooksAhead(before, mid, fade) && GoesOn(mid, after, 0, c, quit) && !before.snap.decoderStarting
    ensures GoesOn(before, after, fade, c, quit)
  {
  }

  lemma GoesOnFilled(before: Deck, mid: Deck, after: Deck, fade: nat, c: Chunks, quit: bool)
    requires mid == before.Filled() && GoesOn(mid, after, fade, c, quit)
    ensures GoesOn(before, after, fade, c, quit)
  {
  }

  /** No song comes out of nothing: a next song was one before, and so was one that is decoded ahead. */
  predicate Traced(before: Snapshot, after: Snapshot) {
    && (after.nextSong == None || after.nextSong == before.nextSong)
    && (after.AtNextSong() ==>
        (before.AtNextSong() && after.dcSong == before.dcSong) || before.nextSong == Some(after.dcSong))
  }

  lemma TracedTransitive(a: Snapshot, b: Snapshot, c: Snapshot)
    requires Traced(a, b) && Traced(b, c)
    ensures Traced(a, c)
  {
  }

  lemma SameSongs(a: Snapshot, b: Snapshot)
    requires b.dcSong == a.dcSong && b.dcPipe == a.dcPipe && b.pipe == a.pipe && b.nextSong == a.nextSong
    ensures Traced(a, b)
  {
  }

  lemma TracedSelf(s: Snapshot)
    ensures Traced(s, s)
  {
  }

  /** A song was queued by one of the first `n` inputs. */
  ghost predicate QueuedBefore(script: seq<Input>, n: nat, s: Song) {
    exists j :: 0 <= j < n && j < |script| && script[j].command == Queue && script[j].song == s
  }

  /** No song comes out of nothing but the input. */
  predicate SongsTraced(i: Input, before: Snapshot, after: Snapshot) {
    && (after.nextSong == None || after.nextSong == before.nextSong ||
        (i.command == Queue && after.nextSong == Some(i.song)))
    && (after.AtNextSong() ==>
        || (before.AtNextSong() && after.dcSong == before.dcSong)
        || before.nextSong == Some(after.dcSong) || (i.command == Queue && after.dcSong == i.song))
  }

  lemma DeliveredTraced(i: Input, before: Snapshot, mid: Snapshot, after: Snapshot)
    requires Traced(mid, after) && mid == before.(nextSong := mid.nextSong)
    requires mid.nextSong == before.nextSong || (i.command == Queue && mid.nextSong == Some(i.song)) ||
             (i.command == Seek && after.nextSong == None && !after.AtNextSong())
    ensures SongsTraced(i, before, after)
  {
  }

  lemma SongsTracedOn(i: Input, before: Snapshot, mid: Snapshot, after: Snapshot)
    requires SongsTraced(i, before, mid) && Traced(mid, after)
    ensures SongsTraced(i, before, after)
  {
  }

  lemma StillQueued(script: seq<Input>, i: nat, before: Snapshot, after: Snapshot)
    requires i < |script| && SongsTraced(script[i], before, after)
    requires before.AtNextSong() ==> QueuedBefore(script, i, before.dcSong)
    requires before.nextSong.Some? ==> QueuedBefore(script, i, before.nextSong.value)
    ensures after.AtNextSong() ==> QueuedBefore(script, i + 1, after.dcSong)
    ensures after.nextSong.Some? ==> QueuedBefore(script, i + 1, after.nextSong.value)
  {
  }

  /** The first song has got ready, and the outputs are open. */
  method FirstSongReady() returns (p: Player)
    ensures fresh(p) && p.calm && p.Valid() && p.command == NoCommand && !p.fault && p.nextSong == None
    ensures p.decoder == Decoding && !p.AtNextSong() && !p.buffering && !p.decoderStarting && !p.paused
  {
    hide Cells, OutputCells, PipeCells, One;
    p := new Player(true);
    var _ := p.Begin(1, Queue, false);
    p.DecoderReady();
    var _ := p.Turn(true, 0, Chunks(false, false));
  }

  /** The client pauses. */
  method FirstSongPaused() returns (p: Player)
    ensures fresh(p) && p.calm && p.Valid() && p.command == NoCommand && !p.fault && p.nextSong == None
    ensures p.decoder == Decoding && !p.AtNextSong() && !p.buffering && !p.decoderStarting && p.paused
  {
    hide Cells, OutputCells, PipeCells, One, Traced, SongsTraced;
    p := FirstSongReady();
    p.HandleInput(Input(Pause, 0, false, true, 0, Chunks(false, false)));
    assert p.Snap().paused;
    var _ := p.Turn(true, 0, Chunks(false, false));
  }

  /** The decoder finishes the song. */
  method FirstSongDecoded() returns (p: Player)
    ensures fresh(p) && p.calm && p.Valid() && p.command == NoCommand && !p.fault && p.nextSong == None
    ensures p.DecoderIdle() && !p.AtNextSong() && !p.buffering && !p.decoderStarting && p.paused
  {
    hide Cells, OutputCells, PipeCells, One;
    p := FirstSongPaused();
    p.DecoderFinish(false);
  }

  /** The client queues another song, and its decoder is started. */
  method SecondSongQueued() returns (p: Player)
    ensures fresh(p) && p.calm && p.Valid() && p.command == NoCommand && !p.fault && p.SeekMeetsStart(2)
  {
    hide Cells, OutputCells, PipeCells, One;
    p := FirstSongDecoded();
    p.HandleInput(Input(Queue, 2, false, true, 0, Chunks(false, false)));
    var _ := p.Turn(true, 0, Chunks(false, false));
  }

  /**
   A run in which the assertion of DecoderControl::Seek fails: the client seeks in the queued
   song while its decoder is still starting.
   */
  method SeekToStartingSongFails() returns (p: Player)
    ensures p.fault
  {
    hide Cells, OutputCells, PipeCells, One;
    p := SecondSongQueued();
    var _ := p.TurnWith(Input(Seek, 2, false, true, 0, Chunks(false, false)));
  }

  method Unused(inUse: set<Chunk>) returns (c: Chunk)
    ensures c !in inUse
  {
    c := 0;
    var rest := inUse;
    while c in rest
      invariant forall x :: x in inUse ==> x in rest || x < c
      decreases |rest|
    {
      rest := rest - {c};
      c := c + 1;
    }
  }

  /** There is something for the outputs to play. */
  predicate NotDry(output: Option<seq<Played>>) {
    output.Some? && output.value != []
  }

  /** The outputs have played a first part of `before`, and `after` is what remains. */
  predicate Remains(before: seq<Played>, after: seq<Played>) {
    |after| <= |before| && after == before[|before| - |after|..]
  }

  /** The outputs have played a first part, and `more` was sent to them. */
  ghost predicate Sent(before: seq<Played>, after: seq<Played>, more: seq<Played>) {
    |more| <= |after| && Remains(before, after[..|after| - |more|]) && after[|after| - |more|..] == more
  }

  /** The first chunk was taken, or none; the decoder may have added some behind. */
  predicate Took(before: seq<Chunk>, after: seq<Chunk>, taken: bool, p: Played) {
    if taken then before != [] && p.chunk == before[0] && before[1..] <= after else before <= after
  }

  /** The output pipe is empty, or there is none. */
  predicate NothingToPlay(output: Option<seq<Played>>) {
    output == None || output.value == []
  }

  lemma OneOrNothing(other: Option<Chunk>)
    ensures other == None ==> One(other) == multiset{}
  {
  }

  lemma CellIs(p: Played)
    ensures Cell(p) == One(p.other) + multiset{p.chunk} == multiset{} + Cell(p)
  {
  }

  lemma ElementsOfCell(p: Played)
    ensures Elements(Cell(p)) == if p.other.Some? then {p.other.value} + {p.chunk} else {p.chunk}
  {
  }
}
