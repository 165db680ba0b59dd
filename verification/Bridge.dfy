/**
 The decoder bridge (src/decoder/Bridge.cxx): how a decoder plugin's calls become chunks in
 the decoder's pipe. Commands of the player (`Arrive`) and chunks taken by the player
 (`Take`) may come between any two plugin calls, and a command may come while the bridge
 waits for a free chunk.

 `free` is the number of free chunks of the pool. `fault` records that an assertion about
 seeking has failed, in `FlushChunk` or in `CommandFinished`.
 */
module Bridge {
  import opened Common
  import opened Chunks

  datatype State = Stopped | Starting | Decoding | Error

  datatype Command = NoCommand | Stop | Seek

  /** A finished chunk, as the consumers of the pipe see it. */
  datatype Packet = Packet(audio: seq<Byte>, tag: Option<Tag>)

  // ---------------------------------------------------------------------------------------
  // The stream of chunks

  /** What the consumers of the pipe see, in order: bytes of audio, and tags that precede them. */
  datatype Item = Sample(byte: Byte) | Mark(tag: Tag)

  ghost function Music(audio: seq<Byte>): seq<Item> {
    seq(|audio|, i requires 0 <= i < |audio| => Sample(audio[i]))
  }

  ghost function Items(audio: seq<Byte>, tag: Option<Tag>): seq<Item> {
    (if tag.Some? then [Mark(tag.value)] else []) + Music(audio)
  }

  ghost function Contents(ps: seq<Packet>): seq<Item> {
    if ps == [] then [] else Items(ps[0].audio, ps[0].tag) + Contents(ps[1..])
  }

  lemma MusicAppend(a: seq<Byte>, b: seq<Byte>)
    ensures Music(a + b) == Music(a) + Music(b)
  {
  }

  lemma MoreMusic(before: seq<Item>, audio: seq<Byte>, n: nat, k: nat)
    requires n + k <= |audio|
    ensures before + Music(audio[..n]) + Music(audio[n..n + k]) == before + Music(audio[..n + k])
  {
    assert audio[..n] + audio[n..n + k] == audio[..n + k];
    MusicAppend(audio[..n], audio[n..n + k]);
  }

  lemma ItemsAppend(a: seq<Byte>, b: seq<Byte>, tag: Option<Tag>)
    ensures Items(a + b, tag) == Items(a, tag) + Music(b)
  {
    MusicAppend(a, b);
  }

  lemma NoItems()
    ensures Items([], None) == [] && Music([]) == []
    ensures forall tag :: Items([], Some(tag)) == [Mark(tag)]
  {
  }

  lemma {:induction false} ContentsAppend(ps: seq<Packet>, p: Packet)
    ensures Contents(ps + [p]) == Contents(ps) + Items(p.audio, p.tag)
  {
    if ps == [] {
      assert ps + [p] == [p];
    } else {
      assert (ps + [p])[1..] == ps[1..] + [p];
      ContentsAppend(ps[1..], p);
    }
  }

  /** A packet that may be in the pipe: not empty, whole frames, no larger than a chunk. */
  ghost predicate ValidPacket(p: Packet, frame: nat)
    requires frame > 0
  {
    (p.audio != [] || p.tag.Some?) && |p.audio| % frame == 0 && |p.audio| <= CHUNK_SIZE
  }

  lemma PushKeeps(taken: seq<Packet>, pipe: seq<Packet>, p: Packet, frame: nat)
    requires frame > 0 && ValidPacket(p, frame) && forall q :: q in taken + pipe ==> ValidPacket(q, frame)
    ensures Contents(taken + (pipe + [p])) == Contents(taken + pipe) + Items(p.audio, p.tag)
    ensures forall q :: q in taken + (pipe + [p]) ==> ValidPacket(q, frame)
  {
    ContentsAppend(taken + pipe, p);
    assert taken + (pipe + [p]) == taken + pipe + [p];
  }

  /** The phases of the initial seek, in their order. */
  datatype Phase = Pending | Running | Done {
    function Rank(): nat {
      match this
      case Pending => 0
      case Running => 1
      case Done => 2
    }
  }

  function Combined(base: Option<Tag>, add: Tag): Tag {
    if base.Some? then Merged(base.value, add) else add
  }

  /** A new stream tag, else the song tag, replaces the last stream tag. */
  function NewStreamTag(input: Option<Tag>, songTag: Option<Tag>, streamTag: Option<Tag>): Option<Tag> {
    if input.Some? then input else if songTag.Some? then songTag else streamTag
  }

  /** What is sent along with the next audio: the new stream tag, merged with the plugin's. */
  ghost function Announced(input: Option<Tag>, songTag: Option<Tag>, decoderTag: Option<Tag>): seq<Item> {
    var tag := NewStreamTag(input, songTag, None);
    if tag == None then []
    else [Mark(if decoderTag.Some? then Merged(decoderTag.value, tag.value) else tag.value)]
  }

  function Bytes(audio: Option<seq<Byte>>): seq<Byte> {
    if audio.Some? then audio.value else []
  }

  /** The memory of a chunk. */
  ghost function Memory(c: MusicChunk?): set<object> {
    if c == null then {} else {c, c.data}
  }

  class DecoderBridge {
    // the decoder control block
    var state: State
    var command: Command
    var seekable: bool
    var startTime: real
    var endTime: real
    var seekTime: real
    var seekError: bool
    var pipe: seq<Packet>
    ghost var taken: seq<Packet>
    var free: nat

    // the formats
    var frameIn: nat
    var frameOut: nat
    var convert: bool
    var timeToSize: real

    // the bridge
    var current: MusicChunk?
    var initialSeekPending: bool
    var initialSeekRunning: bool
    var seeking: bool
    var timestamp: real
    var error: bool
    var songTag: Option<Tag>
    var streamTag: Option<Tag>
    var decoderTag: Option<Tag>

    var fault: bool

    /** The plugin was given SEEK and has not finished it yet. */
    ghost var asked: bool

    constructor (chunks: nat)
      ensures Formats() && state == Stopped && pipe == [] && current == null && !fault && free == chunks
    {
      state, command, seekable := Stopped, NoCommand, false;
      startTime, endTime, seekTime, seekError := 0.0, 0.0, 0.0, false;
      pipe, taken, current, free := [], [], null, chunks;
      frameIn, frameOut, convert, timeToSize := 1, 1, false, 1.0;
      initialSeekPending, initialSeekRunning, seeking, asked := false, false, false, false;
      timestamp, error, fault := 0.0, false, false;
      songTag, streamTag, decoderTag := None, None, None;
    }

    ghost predicate Formats()
      reads this`frameIn, this`frameOut, this`convert, this`timeToSize
    {
      (!convert ==> frameIn == frameOut) && frameIn > 0 && frameOut > 0 && frameOut <= CHUNK_SIZE && timeToSize > 0.0
    }

    /** No audio and no tag has left the plugin yet. */
    ghost predicate Untouched()
      reads this`current, this`pipe, this`taken
    {
      current == null && pipe == [] && taken == []
    }

    ghost predicate Seeks()
      reads this`initialSeekPending, this`initialSeekRunning, this`state, this`asked, this`seeking, this`command
      reads this`current, this`pipe, this`taken
    {
      && !(initialSeekPending && initialSeekRunning)
      && (initialSeekPending || initialSeekRunning || state == Starting ==> Untouched())
      && (initialSeekRunning ==> state == Decoding)
      && (state == Starting ==> !asked)
      && (asked ==> !initialSeekPending && (initialSeekRunning || command == Seek))
      && (seeking ==> asked && !initialSeekRunning)
      && (command == Seek ==> state == Decoding)
    }

    ghost predicate Chunks()
      requires frameOut > 0
      reads this`frameOut, this`current, this`pipe, this`taken, Memory(current)
    {
      && (current != null ==> current.Valid() && current.length % frameOut == 0)
      && (forall p :: p in taken + pipe ==> ValidPacket(p, frameOut))
    }

    ghost predicate Valid()
      reads this, Memory(current)
    {
      Formats() && Seeks() && Chunks()
    }

    /** All audio and tags produced since the start of the song or the last seek. */
    ghost function Stream(): seq<Item>
      requires frameOut > 0 && Chunks()
      reads this`frameOut, this`current, this`pipe, this`taken, Memory(current)
    {
      Contents(taken + pipe) + (if current == null then [] else Items(current.data[..current.length], current.tag))
    }

    /** The chunks that are free, in the pipe or in the bridge's hand. */
    ghost function Chunked(): nat
      reads this`free, this`pipe, this`current
    {
      free + |pipe| + (if current == null then 0 else 1)
    }

    /** The phase of the initial seek after the next look at the command. */
    function NextPhase(): Phase
      reads this`initialSeekPending, this`initialSeekRunning, this`state, this`seekable, this`command
    {
      if state != Decoding || !initialSeekPending then InitialSeek()
      else if seekable && command == NoCommand then Running else Done
    }

    function InitialSeek(): Phase
      reads this`initialSeekPending, this`initialSeekRunning
    {
      if initialSeekPending then Pending else if initialSeekRunning then Running else Done
    }

    // -------------------------------------------------------------------------------------
    // The player

    /** The player issues a command: only one at a time, SEEK only to a decoder that can. */
    method Arrive(c: Command, time: real)
      requires Valid() && command == NoCommand
      requires c == Seek ==> state == Decoding && seekable
      modifies this`command, this`seekTime, this`seekError
      ensures Valid() && command == c && (c == Seek ==> seekTime == time && !seekError)
    {
      command := c;
      if c == Seek {
        seekTime, seekError := time, false;
      }
    }

    /** The player takes a chunk out of the pipe. */
    method Take() returns (p: Packet)
      requires Valid() && pipe != []
      modifies this`pipe, this`taken
      ensures Valid() && Stream() == old(Stream()) && [p] + pipe == old(pipe)
    {
      p := pipe[0];
      assert taken + pipe == taken + [p] + pipe[1..];
      taken := taken + [p];
      pipe := pipe[1..];
    }

    // -------------------------------------------------------------------------------------
    // Chunks

    /** Hands the current chunk over; the two initial-seek assertions hold here. */
    method FlushChunk()
      requires Valid() && current != null
      modifies this`current, this`free, this`pipe, this`fault
      ensures Valid() && current == null && Stream() == old(Stream())
      ensures !initialSeekPending && !initialSeekRunning
      ensures fault == (old(fault) || seeking) && free >= old(free) && Chunked() == old(Chunked())
    {
      assert !initialSeekPending && !initialSeekRunning;
      if seeking {
        fault := true;
      }
      if current.IsEmpty() {
        DropChunk();
      } else {
        PushChunk();
      }
    }

    /** An empty chunk goes back to the pool ... */
    method DropChunk()
      requires Valid() && current != null && current.IsEmpty()
      modifies this`current, this`free
      ensures Valid() && current == null && Stream() == old(Stream()) && free == old(free) + 1
    {
      NoItems();
      hide Contents, Items, Music, ValidPacket;
      assert current.data[..current.length] == [];
      current := null;
      free := free + 1;
    }

    /** ... and any other into the pipe. */
    method PushChunk()
      requires Valid() && current != null && !current.IsEmpty()
      modifies this`current, this`pipe
      ensures Valid() && current == null && Stream() == old(Stream()) && |pipe| == |old(pipe)| + 1
    {
      var p := Packet(current.data[..current.length], current.tag);
      PushKeeps(taken, pipe, p, frameOut);
      hide Contents, Items, Music, ValidPacket;
      current := null;
      pipe := pipe + [p];
    }

    /**
     The current chunk, or a new one. While the pool is empty the decoder waits, until a chunk
     is given back or a command arrives.
     */
    method GetChunk() returns (ok: bool)
      requires Valid() && state == Decoding && InitialSeek() == Done
      modifies this`current, this`free, this`command, this`seekTime, this`seekError
      ensures Valid() && Stream() == old(Stream()) && ok == (current != null)
      ensures old(current) != null ==> current == old(current)
      ensures old(current) == null && ok ==> fresh(current) && fresh(current.data)
      ensures old(current) == null && ok ==> current.length == 0 && current.tag == None
      ensures old(free) > 0 ==> ok && Chunked() == old(Chunked())
      ensures Chunked() >= old(Chunked())
      ensures if ok then command == old(command) else command != NoCommand
      ensures old(command) != NoCommand ==> command == old(command)
    {
      if current != null {
        return true;
      }
      hide Contents, Items, Music, ValidPacket;
      if free > 0 {
        NewChunk();
        free := free - 1;
        return true;
      }
      if * {
        NewChunk();
        return true;
      }
      if command == NoCommand {
        var c: Command, t: real := *, *;
        Arrive(if c == Seek && seekable then Seek else Stop, t);
      }
      ok := false;
    }

    method NewChunk()
      requires Valid() && state == Decoding && InitialSeek() == Done && current == null
      modifies this`current
      ensures Valid() && Stream() == old(Stream()) && current != null && fresh(current) && fresh(current.data)
      ensures current.length == 0 && current.tag == None
    {
      NoItems();
      hide Contents, Items, Music, ValidPacket;
      current := new MusicChunk();
      assert current.data[..0] == [];
    }

    // -------------------------------------------------------------------------------------
    // Commands

    /**
     Whether the virtual SEEK of the initial seek is in force. Once the decoder runs, a
     refused or skipped initial seek is over for good.
     */
    method PrepareInitialSeek() returns (running: bool)
      requires Valid()
      modifies this`initialSeekPending, this`initialSeekRunning, this`asked
      ensures Valid() && Stream() == old(Stream()) && asked == (old(asked) || running)
      ensures old(InitialSeek()).Rank() <= InitialSeek().Rank()
      ensures running <==> InitialSeek() == Running
      ensures state == Decoding && !running ==> InitialSeek() == Done
      ensures state != Decoding ==> InitialSeek() == old(InitialSeek())
      ensures InitialSeek() == old(NextPhase())
    {
      if state != Decoding {
        return false;
      }
      if initialSeekRunning {
        asked := true;
        return true;
      }
      if initialSeekPending {
        if !seekable {
          initialSeekPending := false;
          return false;
        }
        if command == NoCommand {
          initialSeekPending, initialSeekRunning, asked := false, true, true;
          return true;
        }
        initialSeekPending := false;
      }
      running := false;
    }

    /** The command the plugin sees. */
    method GetVirtualCommand() returns (cmd: Command)
      requires Valid()
      modifies this`initialSeekPending, this`initialSeekRunning, this`asked
      ensures Valid() && Stream() == old(Stream())
      ensures old(InitialSeek()).Rank() <= InitialSeek().Rank()
      ensures asked == (old(asked) || cmd == Seek)
      ensures error ==> cmd == Stop && InitialSeek() == old(InitialSeek())
      ensures !error ==> cmd == if InitialSeek() == Running then Seek else command
      ensures !error ==> InitialSeek() == old(NextPhase())
      ensures !error && state == Decoding ==> InitialSeek() != Pending
      ensures cmd == NoCommand ==> InitialSeek() != Running && !seeking
    {
      if error {
        return Stop;
      }
      var running := PrepareInitialSeek();
      cmd := if running then Seek else command;
      asked := asked || cmd == Seek;
    }

    /** The plugin asks where to seek to; it was given SEEK, so there is a place. */
    method GetSeekTime() returns (t: real)
      requires Valid() && asked
      modifies this`seeking
      ensures Valid() && Stream() == old(Stream())
      ensures initialSeekRunning || command == Seek
      ensures t == if initialSeekRunning then startTime else seekTime
      ensures initialSeekRunning ==> !seeking
      ensures !initialSeekRunning ==> seeking
    {
      if initialSeekRunning {
        return startTime;
      }
      assert command == Seek;
      seeking := true;
      t := seekTime;
    }

    /**
     The plugin has done the seek. The initial seek leaves no trace but the time stamp; any
     other drops what was produced before. The assertion that the plugin has asked for the
     position, or reported an error, fails exactly if it has not.
     */
    method CommandFinished()
      requires Valid() && asked
      modifies this`fault
      modifies this`initialSeekRunning, this`asked, this`timestamp, this`seeking, this`current, this`free
      modifies this`pipe, this`taken, this`command
      ensures Valid() && !asked && !seeking && !initialSeekRunning && InitialSeek() == Done
      ensures fault == (old(fault) || (!old(initialSeekRunning) && !old(seeking) && !seekError))
      ensures old(initialSeekRunning) ==> timestamp == startTime && command == old(command) && Untouched()
      ensures !old(initialSeekRunning) ==> command == NoCommand
      ensures old(seeking) ==> timestamp == seekTime && Untouched() && Stream() == []
      ensures !old(initialSeekRunning) && !old(seeking) ==> pipe == old(pipe) && current == old(current)
      ensures !old(initialSeekRunning) && !old(seeking) ==> timestamp == old(timestamp)
      ensures Chunked() == old(Chunked())
    {
      assert command != NoCommand || initialSeekRunning;
      if !initialSeekRunning && !seekError && !seeking {
        fault := true;
      }
      if initialSeekRunning {
        assert !seeking && current == null && pipe == [];
        initialSeekRunning, asked := false, false;
        timestamp := startTime;
        return;
      }
      if seeking {
        DropDecoded();
      }
      command, asked := NoCommand, false;
    }

    /** Deletes the chunks from the old position. */
    method DropDecoded()
      requires Valid() && seeking
      modifies this`seeking, this`free, this`current, this`pipe, this`taken, this`timestamp
      ensures Valid() && !seeking && Untouched() && timestamp == seekTime && Stream() == []
      ensures Chunked() == old(Chunked())
    {
      seeking := false;
      free := free + |pipe| + (if current != null then 1 else 0);
      current := null;
      pipe, taken := [], [];
      timestamp := seekTime;
    }

    method SeekError()
      requires Valid() && asked
      modifies this`fault
      modifies this`initialSeekRunning, this`asked, this`timestamp, this`seeking, this`current, this`free
      modifies this`pipe, this`taken, this`command, this`seekError
      ensures Valid() && !asked && !seeking && InitialSeek() == Done
      ensures pipe == old(pipe) && current == old(current) && fault == old(fault) && timestamp == old(timestamp)
      ensures if old(initialSeekRunning) then command == old(command) else command == NoCommand && seekError
    {
      if initialSeekRunning {
        initialSeekRunning, asked := false, false;
        return;
      }
      assert command == Seek;
      seekError, seeking := true, false;
      CommandFinished();
    }

    // -------------------------------------------------------------------------------------
    // Tags

    /** A new stream tag replaces the song tag; without one the song tag is used, once. */
    method UpdateStreamTag(input: Option<Tag>) returns (changed: bool)
      modifies this`streamTag, this`songTag
      ensures changed == (input.Some? || old(songTag).Some?)
      ensures changed ==> songTag == None && streamTag == if input.Some? then input else old(songTag)
      ensures !changed ==> songTag == old(songTag) && streamTag == old(streamTag)
    {
      var tag := input;
      if tag == None {
        tag := songTag;
        if tag == None {
          return false;
        }
      }
      songTag, streamTag := None, tag;
      changed := true;
    }

    /** Puts a tag into a chunk of its own; the audio is not affected. */
    method DoSendTag(tag: Tag) returns (cmd: Command)
      requires Valid() && state == Decoding && InitialSeek() == Done
      modifies this`current, this`free, this`pipe, this`fault, this`command, this`seekTime, this`seekError, this`asked
      ensures Valid() && asked == (old(asked) || cmd == Seek)
      ensures Stream() == old(Stream()) + (if cmd == NoCommand then [Mark(tag)] else [])
      ensures fault == (old(fault) || (seeking && old(current) != null))
      ensures old(free) > 0 ==> cmd == NoCommand
      ensures cmd == NoCommand ==> current != null && fresh(current) && fresh(current.data)
      ensures cmd == NoCommand ==> current.tag == Some(tag) && current.length == 0
      ensures cmd != NoCommand ==> current == null && cmd == command
      ensures old(command) != NoCommand || cmd == NoCommand ==> command == old(command)
    {
      hide Contents, Items, Music, ValidPacket, Stream;
      if current != null {
        FlushChunk();
      }
      var ok := GetChunk();
      if !ok {
        Tell();
        assert old(Stream()) + [] == old(Stream());
        return command;
      }
      SetTag(tag);
      cmd := NoCommand;
    }

    /** The plugin gets to know the player's command. */
    method Tell()
      requires Valid() && state == Decoding && InitialSeek() == Done
      modifies this`asked
      ensures Valid() && Stream() == old(Stream()) && asked == (old(asked) || command == Seek)
    {
      hide Contents, Items, Music, ValidPacket;
      asked := asked || command == Seek;
    }

    method SetTag(tag: Tag)
      requires Valid() && current != null && current.length == 0 && current.tag == None
      modifies current`tag
      ensures Valid() && current.tag == Some(tag) && Stream() == old(Stream()) + [Mark(tag)]
    {
      NoItems();
      hide Contents, Items, Music, ValidPacket;
      assert current.data[..current.length] == [];
      current.tag := Some(tag);
    }

    method SaveTag(input: Option<Tag>, tag: Tag)
      requires Valid()
      modifies this`decoderTag, this`streamTag, this`songTag
      ensures Valid() && Stream() == old(Stream()) && decoderTag == Some(tag)
      ensures streamTag == NewStreamTag(input, old(songTag), old(streamTag)) && songTag == None
    {
      decoderTag := Some(tag);
      var _ := UpdateStreamTag(input);
    }

    /** The plugin submits a tag; the assertion about seeking fails exactly with a partial chunk. */
    method SubmitTag(input: Option<Tag>, tag: Tag) returns (cmd: Command)
      requires Valid() && state == Decoding
      modifies this`decoderTag, this`streamTag, this`songTag, this`initialSeekPending, this`initialSeekRunning
      modifies this`asked, this`current, this`free, this`pipe, this`fault, this`command, this`seekTime, this`seekError
      ensures Valid() && streamTag == NewStreamTag(input, old(songTag), old(streamTag)) && songTag == None
      ensures Stream() == old(Stream()) + (if cmd == NoCommand then [Mark(Combined(streamTag, tag))] else [])
      ensures InitialSeek() == old(NextPhase()) && (InitialSeek() == Running ==> cmd == Seek)
      ensures fault == (old(fault) || (old(seeking) && old(current) != null))
      ensures decoderTag == Some(tag)
      ensures cmd == NoCommand ==> current != null && fresh(current) && fresh(current.data)
      ensures asked == (old(asked) || cmd == Seek)
      ensures InitialSeek() == Done && old(free) > 0 ==> cmd == NoCommand
      ensures cmd == NoCommand ==> command == old(command)
    {
      hide Contents, Items, Music, ValidPacket;
      SaveTag(input, tag);
      var running := PrepareInitialSeek();
      if running {
        return Seek;
      }
      cmd := DoSendTag(Combined(streamTag, tag));
    }

    /** New replay gain values start a new chunk. */
    method SubmitReplayGain(present: bool)
      requires Valid()
      modifies this`current, this`free, this`pipe, this`fault
      ensures Valid() && Stream() == old(Stream())
      ensures present ==> current == null
      ensures fault == (old(fault) || (present && seeking && old(current) != null))
    {
      if present && current != null {
        FlushChunk();
      }
    }

    /** Copies as much as fits into the current chunk, and hands it over once it is full. */
    method FillCurrent(rest: seq<Byte>) returns (n: nat)
      requires Valid() && current != null && !seeking && |rest| % frameOut == 0
      modifies this`current, this`free, this`pipe, this`fault, Memory(current)
      ensures Valid() && n <= |rest| && n % frameOut == 0 && Stream() == old(Stream()) + Music(rest[..n])
      ensures fault == old(fault) && (current == null || current == old(current)) && n <= CHUNK_SIZE
      ensures n == 0 && rest != [] ==> current == null && old(current.length) + frameOut > CHUNK_SIZE
      ensures current != null ==> current.length + frameOut <= CHUNK_SIZE
    {
      var room := current.Write(frameOut);
      NoItems();
      assert rest[..0] == [];
      if room == 0 {
        RoomExactly(current.length, frameOut);
        FlushChunk();
        return 0;
      }
      n := if room < |rest| then room else |rest|;
      var full := AppendToCurrent(rest[..n]);
      if full {
        FlushChunk();
      }
    }

    method AppendToCurrent(bytes: seq<Byte>) returns (full: bool)
      requires Valid() && current != null && |bytes| % frameOut == 0 && current.length + |bytes| <= CHUNK_SIZE
      modifies Memory(current)
      ensures Valid() && Stream() == old(Stream()) + Music(bytes)
      ensures full == (current.length + frameOut > CHUNK_SIZE)
    {
      hide Contents, Items, Music, ValidPacket;
      AlignedSum(current.length, |bytes|, frameOut);
      ghost var was, ahead := current.data[..current.length], Contents(taken + pipe);
      full := current.Append(frameOut, bytes);
      ItemsAppend(was, bytes, current.tag);
      assert ahead + (Items(was, current.tag) + Music(bytes)) == ahead + Items(was, current.tag) + Music(bytes);
    }

    // -------------------------------------------------------------------------------------
    // Audio

    /** Sends the tag of the stream along if there is a new one. */
    method SendStreamTag(input: Option<Tag>) returns (cmd: Command)
      requires Valid() && state == Decoding && InitialSeek() == Done && !seeking
      modifies this`streamTag, this`songTag
      modifies this`current, this`free, this`pipe, this`fault, this`command, this`seekTime, this`seekError, this`asked
      ensures Valid() && asked == (old(asked) || cmd == Seek) && fault == old(fault)
      ensures Stream() == old(Stream()) +
                          (if cmd == NoCommand then Announced(input, old(songTag), decoderTag) else [])
      ensures streamTag == NewStreamTag(input, old(songTag), old(streamTag)) && songTag == None
      ensures current != null && current != old(current) ==> fresh(current) && fresh(current.data)
      ensures cmd != NoCommand ==> cmd == command
    {
      hide Contents, Items, Music, ValidPacket;
      var changed := UpdateStreamTag(input);
      if changed {
        cmd := DoSendTag(if decoderTag.Some? then Merged(decoderTag.value, streamTag.value) else streamTag.value);
      } else {
        cmd := NoCommand;
      }
    }

    /** One turn of the loop below: nothing is left only if a command arrived. */
    method CopySome(rest: seq<Byte>) returns (ok: bool, n: nat)
      requires Valid() && state == Decoding && InitialSeek() == Done && !seeking
      requires rest != [] && |rest| % frameOut == 0
      modifies this`current, this`free, this`pipe, this`fault, this`command
      modifies this`seekTime, this`seekError, Memory(current)
      ensures Valid() && n <= |rest| && n % frameOut == 0 && Stream() == old(Stream()) + Music(rest[..n])
      ensures fault == old(fault) && n <= CHUNK_SIZE
      ensures current != null && current != old(current) ==> fresh(current) && fresh(current.data)
      ensures !ok ==> n == 0 && command != NoCommand
      ensures ok && n == 0 ==> current == null && old(current) != null
      ensures ok && current != null ==> current.length + frameOut <= CHUNK_SIZE
    {
      hide Contents, Items, Music, ValidPacket;
      ok := GetChunk();
      if ok {
        n := FillCurrent(rest);
      } else {
        NoItems();
        n := 0;
      }
    }

    /** Copies from position `n` on. */
    method CopyFrom(audio: seq<Byte>, n: nat) returns (ok: bool, k: nat)
      requires Valid() && state == Decoding && InitialSeek() == Done && !seeking
      requires n < |audio| && n % frameOut == 0 && |audio| % frameOut == 0
      modifies this`current, this`free, this`pipe, this`fault, this`command
      modifies this`seekTime, this`seekError, Memory(current)
      ensures Valid() && n + k <= |audio| && (n + k) % frameOut == 0 && k <= CHUNK_SIZE
      ensures Stream() == old(Stream()) + Music(audio[n..n + k])
      ensures fault == old(fault)
      ensures current != null && current != old(current) ==> fresh(current) && fresh(current.data)
      ensures !ok ==> k == 0 && command != NoCommand
      ensures ok && k == 0 ==> current == null && old(current) != null
      ensures ok && current != null ==> current.length + frameOut <= CHUNK_SIZE
    {
      hide Contents, Items, Music, ValidPacket, Stream;
      AlignedDifference(|audio|, n, frameOut);
      ok, k := CopySome(audio[n..]);
      AlignedSum(n, k, frameOut);
      assert audio[n..][..k] == audio[n..n + k];
    }

    method Advance(k: nat)
      requires Valid()
      modifies this`timestamp
      ensures Valid() && Stream() == old(Stream()) && timestamp == Later(old(timestamp), k, timeToSize)
    {
      hide Contents, Items, Music, ValidPacket, Later;
      timestamp := Later(timestamp, k, timeToSize);
    }

    /** The conversion has failed. */
    method Fail()
      requires Valid()
      modifies this`error
      ensures Valid() && Stream() == old(Stream()) && error
    {
      hide Contents, Items, Music, ValidPacket;
      error := true;
    }

    /** One turn of the copy loop from position `n` on. */
    method CopyTurn(audio: seq<Byte>, n: nat) returns (cmd: Command, k: nat)
      requires Valid() && state == Decoding && InitialSeek() == Done && !seeking
      requires n < |audio| && n % frameOut == 0 && |audio| % frameOut == 0
      modifies this`current, this`free, this`pipe, this`fault, this`command, this`seekTime, this`seekError, this`asked
      modifies this`timestamp, Memory(current)
      ensures Valid() && n + k <= |audio| && (n + k) % frameOut == 0 && k <= CHUNK_SIZE
      ensures Stream() == old(Stream()) + Music(audio[n..n + k]) && timestamp == Later(old(timestamp), k, timeToSize)
      ensures fault == old(fault) && asked == (old(asked) || cmd == Seek)
      ensures current != null && current != old(current) ==> fresh(current) && fresh(current.data)
      ensures cmd != NoCommand ==> cmd == command || (cmd == Stop && endTime > 0.0 && timestamp >= endTime)
      ensures cmd == NoCommand && k == 0 ==> current == null && old(current) != null && timestamp == old(timestamp)
      ensures cmd == NoCommand && k > 0 && endTime > 0.0 ==> timestamp < endTime
      ensures cmd == NoCommand && current != null ==> current.length + frameOut <= CHUNK_SIZE
    {
      hide Contents, Items, Music, ValidPacket, Later, Stream;
      var ok;
      ok, k := CopyFrom(audio, n);
      LaterSum(timestamp, 0, 0, timeToSize);
      if !ok {
        Tell();
        return command, 0;
      }
      Advance(k);
      cmd := if k > 0 && endTime > 0.0 && timestamp >= endTime then Stop else NoCommand;
    }

    /** Copies the audio into chunks until the end of the song's range or a command. */
    method CopyAll(audio: seq<Byte>) returns (cmd: Command, n: nat)
      requires Valid() && state == Decoding && InitialSeek() == Done && !seeking && |audio| % frameOut == 0
      modifies this`current, this`free, this`pipe, this`fault, this`command, this`seekTime, this`seekError, this`asked
      modifies this`timestamp, Memory(current)
      ensures Valid() && n <= |audio| && n % frameOut == 0
      ensures Stream() == old(Stream()) + Music(audio[..n]) && timestamp == Later(old(timestamp), n, timeToSize)
      ensures fault == old(fault) && asked == (old(asked) || cmd == Seek)
      ensures cmd == NoCommand ==> n == |audio| && (n > 0 && endTime > 0.0 ==> timestamp < endTime)
      ensures cmd == NoCommand && n > 0 && current != null ==> current.length + frameOut <= CHUNK_SIZE
      ensures cmd != NoCommand ==> cmd == command || (cmd == Stop && endTime > 0.0 && timestamp >= endTime)
      ensures n > CHUNK_SIZE && endTime > 0.0 ==> Later(old(timestamp), n - CHUNK_SIZE, timeToSize) < endTime
    {
      hide Contents, Items, Music, ValidPacket, Later, Stream;
      n := 0;
      ghost var before := Stream();
      LaterSum(timestamp, 0, 0, timeToSize);
      NoItems();
      assert audio[..0] == [];
      while n < |audio|
        invariant Valid() && n <= |audio| && n % frameOut == 0 && Stream() == before + Music(audio[..n])
        invariant fault == old(fault) && asked == old(asked)
        invariant timestamp == Later(old(timestamp), n, timeToSize) 
        invariant n > 0 && endTime > 0.0 ==> timestamp < endTime
        invariant n > 0 && current != null ==> current.length + frameOut <= CHUNK_SIZE
        invariant n > CHUNK_SIZE && endTime > 0.0 ==> Later(old(timestamp), n - CHUNK_SIZE, timeToSize) < endTime
        invariant current != null && current != old(current) ==> fresh(current) && fresh(current.data)
        decreases |audio| - n, if current != null then 1 else 0
      {
        assert n > 0 && endTime > 0.0 ==> Later(old(timestamp), n, timeToSize) < endTime;
        var k;
        cmd, k := CopyTurn(audio, n);
        LaterSum(old(timestamp), n, k, timeToSize);
        LaterGrows(old(timestamp), n, k, timeToSize);
        MoreMusic(before, audio, n, k);
        n := n + k;
        if cmd != NoCommand {
          return;
        }
      }
      cmd := NoCommand;
    }

    /** The part of SubmitData behind the command check. */
    method SubmitUnchecked(input: Option<Tag>, audio: Option<seq<Byte>>)
        returns (cmd: Command, n: nat, ghost sent: seq<Item>)
      requires Valid() && state == Decoding && InitialSeek() == Done && !seeking
      requires audio.Some? ==> |audio.value| % frameOut == 0
      modifies this`current, this`free, this`pipe, this`fault, this`command, this`seekTime, this`seekError, this`asked
      modifies this`timestamp, this`error, this`streamTag, this`songTag, Memory(current)
      ensures Valid() && fault == old(fault) && asked == (old(asked) || cmd == Seek)
      ensures n <= |Bytes(audio)| && n % frameOut == 0
      ensures Stream() == old(Stream()) + sent + Music(Bytes(audio)[..n])
      ensures sent == [] || sent == Announced(input, old(songTag), decoderTag)
      ensures cmd == NoCommand || n > 0 || error != old(error) ==> sent == Announced(input, old(songTag), decoderTag)
      ensures streamTag == NewStreamTag(input, old(songTag), old(streamTag)) && songTag == None
      ensures cmd == NoCommand ==> n == |Bytes(audio)|
      ensures timestamp == Later(old(timestamp), n, timeToSize)
      ensures error != old(error) ==> error && audio == None && cmd == Stop
      ensures cmd == Stop ==> error || command == Stop || (endTime > 0.0 && timestamp >= endTime)
      ensures cmd == NoCommand && n > 0 && endTime > 0.0 ==> timestamp < endTime
      ensures n > CHUNK_SIZE && endTime > 0.0 ==> Later(old(timestamp), n - CHUNK_SIZE, timeToSize) < endTime
    {
      hide Contents, Items, Music, ValidPacket, Later, Stream, Announced, NewStreamTag;
      LaterSum(timestamp, 0, 0, timeToSize);
      NoItems();
      cmd := SendStreamTag(input);
      sent := if cmd == NoCommand then Announced(input, old(songTag), decoderTag) else [];
      assert old(Stream()) + sent + [] == old(Stream()) + sent && Bytes(audio)[..0] == [];
      if cmd != NoCommand {
        n := 0;
      } else if audio == None {
        Fail();
        cmd, n := Stop, 0;
      } else {
        cmd, n := CopyAll(audio.value);
      }
    }

    /** What becomes of the submitted data: none if the conversion fails. */
    function Result(data: seq<Byte>, converted: Option<seq<Byte>>): Option<seq<Byte>>
      reads this`convert
    {
      if convert then converted else Some(data)
    }

    /**
     The plugin submits audio; `converted` is what the PCM converter makes of it, or none if
     the conversion fails. Whatever is interrupted, the stream grows by a prefix of whole
     frames, and by all of it unless a command is returned.
     */
    method SubmitData(input: Option<Tag>, data: seq<Byte>, converted: Option<seq<Byte>>)
        returns (cmd: Command, n: nat, ghost sent: seq<Item>)
      requires Valid() && state == Decoding && |data| % frameIn == 0
      requires converted.Some? ==> |converted.value| % frameOut == 0
      modifies this`current, this`free, this`pipe, this`fault, this`command, this`seekTime, this`seekError, this`asked
      modifies this`timestamp, this`error, this`streamTag, this`songTag, Memory(current)
      modifies this`initialSeekPending, this`initialSeekRunning
      ensures Valid() && fault == old(fault) && asked == (old(asked) || cmd == Seek)
      ensures n <= |Bytes(Result(data, converted))| && n % frameOut == 0
      ensures Stream() == old(Stream()) + sent + Music(Bytes(Result(data, converted))[..n])
      ensures sent == [] || sent == Announced(input, old(songTag), decoderTag)
      ensures (cmd == NoCommand && data != []) || n > 0 ==> sent == Announced(input, old(songTag), decoderTag)
      ensures cmd == NoCommand && data != [] ==> n == |Bytes(Result(data, converted))|
      ensures timestamp == Later(old(timestamp), n, timeToSize)
      ensures error != old(error) ==> error && Result(data, converted) == None && cmd == Stop
      ensures cmd == Stop ==> error || command == Stop || (endTime > 0.0 && timestamp >= endTime)
      ensures cmd == NoCommand && n > 0 && endTime > 0.0 ==> timestamp < endTime
      ensures n > CHUNK_SIZE && endTime > 0.0 ==> Later(old(timestamp), n - CHUNK_SIZE, timeToSize) < endTime
      ensures old(error) ==> cmd == Stop && InitialSeek() == old(InitialSeek())
      ensures !old(error) ==> InitialSeek() == old(NextPhase()) && (InitialSeek() == Running ==> cmd == Seek)
      ensures !old(error) && InitialSeek() != Running && old(command) != NoCommand ==> cmd == old(command)
      ensures old(error) || InitialSeek() != Done || old(command) != NoCommand ==> n == 0 && sent == []
      ensures InitialSeek() != Done ==> cmd != NoCommand
    {
      hide Contents, Items, Music, ValidPacket, Later, Stream;
      LaterSum(timestamp, 0, 0, timeToSize);
      NoItems();
      n, sent := 0, [];
      cmd := GetVirtualCommand();
      if cmd == NoCommand && data != [] {
        assert !initialSeekPending && !initialSeekRunning;
        cmd, n, sent := SubmitUnchecked(input, Result(data, converted));
      }
    }

    /** The plugin has opened the song: decoding starts. */
    method Ready(frameIn: nat, frameOut: nat, same: bool, timeToSize: real, seekable: bool, converterOk: bool)
      requires Valid() && state == Starting
      requires frameIn > 0 && 0 < frameOut <= CHUNK_SIZE && timeToSize > 0.0 && (same ==> frameIn == frameOut)
      modifies this`state, this`frameIn, this`frameOut, this`timeToSize, this`seekable, this`convert, this`error
      ensures Valid() && state == Decoding && InitialSeek() == old(InitialSeek()) && Untouched()
      ensures this.seekable == seekable && this.frameIn == frameIn && this.frameOut == frameOut && convert == !same
      ensures this.timeToSize == timeToSize
      ensures error == (old(error) || (!same && !converterOk))
    {
      assert !seeking;
      this.frameIn, this.frameOut, this.timeToSize, this.seekable := frameIn, frameOut, timeToSize, seekable;
      state := Decoding;
      convert := !same;
      if convert && !converterOk {
        error := true;
      }
    }

    // -------------------------------------------------------------------------------------
    // The decoder thread

    /** The start of a song: a new bridge, on an empty pipe. */
    method Begin(startTime: real, endTime: real, songTag: Option<Tag>)
      requires Formats() && state != Starting && state != Decoding && pipe == [] && current == null
      modifies this
      ensures Valid() && state == Starting && Untouched() && fault == old(fault) && free == old(free) && !error
      ensures InitialSeek() == (if startTime > 0.0 then Pending else Done) && command == NoCommand
      ensures this.startTime == startTime && this.endTime == endTime && this.songTag == songTag
      ensures timestamp == 0.0 && streamTag == None && decoderTag == None
    {
      ForgetSong(startTime, endTime, songTag);
      EnterStart();
    }

    method EnterStart()
      requires Formats() && pipe == [] && current == null
      modifies this`taken, this`asked, this`initialSeekPending, this`initialSeekRunning, this`seeking
      modifies this`state, this`command
      ensures Valid() && state == Starting && Untouched() && command == NoCommand
      ensures InitialSeek() == (if startTime > 0.0 then Pending else Done)
    {
      hide Contents, Items, Music, ValidPacket;
      taken, asked := [], false;
      initialSeekPending, initialSeekRunning, seeking := startTime > 0.0, false, false;
      state, command := Starting, NoCommand;
      assert forall p :: p !in taken + pipe;
    }

    method ForgetSong(startTime: real, endTime: real, songTag: Option<Tag>)
      modifies this`startTime, this`endTime, this`songTag, this`streamTag, this`decoderTag, this`timestamp, this`error
      ensures this.startTime == startTime && this.endTime == endTime && this.songTag == songTag
      ensures streamTag == None && decoderTag == None && timestamp == 0.0 && !error
    {
      this.startTime, this.endTime, this.songTag := startTime, endTime, songTag;
      streamTag, decoderTag, timestamp, error := None, None, 0.0, false;
    }

    /** A seek that came after the end of the song: the song is started again. */
    method SeekTooLate(songTag: Option<Tag>)
      requires Formats() && state != Starting && state != Decoding && current == null
      modifies this
      ensures Valid() && state == Starting && Untouched() && fault == old(fault)
      ensures InitialSeek() == (if old(startTime) > 0.0 then Pending else Done) && command == NoCommand
      ensures startTime == old(startTime) && endTime == old(endTime) && Chunked() == old(Chunked())
    {
      free := free + |pipe|;
      pipe := [];
      Begin(startTime, endTime, songTag);
    }

    /** The plugin has returned: the last chunk is flushed, and the bridge may be destroyed. */
    method Finish(success: bool)
      requires Valid() && (state == Starting || state == Decoding)
      modifies this
      ensures Formats() && current == null && (state == Stopped || state == Error)
      ensures state == Stopped <==> success && !old(error)
      ensures Contents(taken + pipe) == old(Stream()) && Chunked() == old(Chunked())
      ensures fault == (old(fault) || (old(seeking) && old(current) != null))
    {
      hide Contents, Items, Music, ValidPacket;
      if current != null {
        FlushChunk();
      }
      assert Stream() == Contents(taken + pipe);
      state := if success && !error then Stopped else Error;
    }
  }

  /** The calls that flush a partial chunk. */
  datatype Flush = ByTag | ByReplayGain | ByReturn

  /** A plugin that has opened a song and sent a tag. */
  method PartialChunk() returns (b: DecoderBridge)
    ensures fresh(b) && b.Valid() && b.state == Decoding && !b.fault && !b.error && b.seekable
    ensures b.current != null && fresh(b.current) && fresh(b.current.data)
    ensures b.command == NoCommand && !b.seeking && b.InitialSeek() == Done
  {
    hide Contents, Items, Music, ValidPacket;
    b := new DecoderBridge(1);
    b.Begin(0.0, 0.0, None);
    b.Ready(4, 4, true, 176400.0, true, true);
    var _ := b.SubmitTag(None, Tag(0));
  }

  /** The player asks it to seek. */
  method PartialChunkInSeek() returns (b: DecoderBridge)
    ensures fresh(b) && b.Valid() && b.state == Decoding && !b.fault && b.command == Seek && b.asked
    ensures b.current != null && fresh(b.current) && fresh(b.current.data)
    ensures !b.seeking && !b.seekError && !b.initialSeekRunning
  {
    hide Contents, Items, Music, ValidPacket;
    b := PartialChunk();
    b.Arrive(Seek, 1.0);
    var _ := b.GetVirtualCommand();
  }

  /** Each of these calls violates the assertion in FlushChunk() after the plugin has asked where to. */
  method FlushInSeekFails(f: Flush) returns (b: DecoderBridge)
    ensures b.fault
  {
    b := PartialChunkInSeek();
    var _ := b.GetSeekTime();
    match f {
      case ByTag => var _ := b.SubmitTag(None, Tag(1));
      case ByReplayGain => b.SubmitReplayGain(true);
      case ByReturn => b.Finish(true);
    }
  }

  /** A plugin that finishes SEEK without having asked where to violates the assertion there. */
  method FinishUnaskedFails() returns (b: DecoderBridge)
    ensures b.fault
  {
    b := PartialChunkInSeek();
    b.CommandFinished();
  }

  /** The time stamp after `n` more bytes. */
  function Later(start: real, n: nat, timeToSize: real): real
    requires timeToSize > 0.0
  {
    start + n as real / timeToSize
  }

  lemma LaterGrows(start: real, n: nat, k: nat, timeToSize: real)
    requires timeToSize > 0.0 && k <= CHUNK_SIZE
    ensures n + k >= CHUNK_SIZE ==> Later(start, n + k - CHUNK_SIZE, timeToSize) <= Later(start, n, timeToSize)
  {
  }

  lemma LaterSum(start: real, n: nat, k: nat, timeToSize: real)
    requires timeToSize > 0.0
    ensures Later(start, 0, timeToSize) == start
    ensures Later(Later(start, n, timeToSize), k, timeToSize) == Later(start, n + k, timeToSize)
  {
  }
}
